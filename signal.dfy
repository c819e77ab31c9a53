/**
 * Signal extraction from the model's free-text reply: the text is trimmed and
 * upper-cased, then the first whole-word occurrence of BUY, SELL or HOLD is the
 * signal, and HOLD is the answer when there is none. "Whole word" is the
 * JavaScript `\b` assertion, whose word characters are `[A-Za-z0-9_]`.
 */
module Signal {
  import opened Wrappers

  /** The closed set of trading signals. */
  datatype Signal = Buy | Sell | Hold

  /** The spelling of a signal, as the recommendation string that is passed on. */
  function Word(s: Signal): string
  {
    match s
    case Buy => "BUY"
    case Sell => "SELL"
    case Hold => "HOLD"
  }

  /** A word character of a JavaScript regular expression without the `u` flag. */
  predicate IsWordChar(c: char)
  {
    'A' <= c <= 'Z' || 'a' <= c <= 'z' || '0' <= c <= '9' || c == '_'
  }

  /** White space and line terminators removed by `String.prototype.trim`. */
  predicate IsTrimmable(c: char)
  {
    c == '\t' || c == '\n' || c == '\U{000B}' || c == '\U{000C}' || c == '\r' || c == ' ' ||
    c == '\U{00A0}' || c == '\U{1680}' || ('\U{2000}' <= c <= '\U{200A}') ||
    c == '\U{2028}' || c == '\U{2029}' || c == '\U{202F}' || c == '\U{205F}' ||
    c == '\U{3000}' || c == '\U{FEFF}'
  }

  function TrimStart(s: string): (r: string)
    ensures |r| <= |s| && r == s[|s| - |r|..]
    ensures r == [] || !IsTrimmable(r[0])
    ensures forall k :: 0 <= k < |s| - |r| ==> IsTrimmable(s[k])
  {
    if s != [] && IsTrimmable(s[0]) then TrimStart(s[1..]) else s
  }

  function TrimEnd(s: string): (r: string)
    ensures |r| <= |s| && r == s[..|r|]
    ensures r == [] || !IsTrimmable(r[|r| - 1])
    ensures forall k :: |r| <= k < |s| ==> IsTrimmable(s[k])
  {
    if s != [] && IsTrimmable(s[|s| - 1]) then TrimEnd(s[..|s| - 1]) else s
  }

  /** `s.trim()` */
  function Trim(s: string): string
  {
    TrimEnd(TrimStart(s))
  }

  /**
   * `toUpperCase` on one character, for the ASCII alphabet: a lower-case letter
   * becomes the upper-case letter at the same place in the alphabet, and every
   * other character is left alone.
   */
  function UpperChar(c: char): (u: char)
    ensures 'a' <= c <= 'z' ==> 'A' <= u <= 'Z' && u as int - 'A' as int == c as int - 'a' as int
    ensures !('a' <= c <= 'z') ==> u == c
    ensures !('a' <= u <= 'z')
    ensures IsWordChar(u) == IsWordChar(c)
  {
    if 'a' <= c <= 'z' then (c as int - 32) as char else c
  }

  /** `s.toUpperCase()`, for the ASCII alphabet. */
  function ToUpper(s: string): (u: string)
    ensures |u| == |s|
    ensures forall i :: 0 <= i < |s| ==> u[i] == UpperChar(s[i])
    ensures forall i :: 0 <= i < |u| ==> !('a' <= u[i] <= 'z')
    ensures forall i :: 0 <= i < |s| && !('a' <= s[i] <= 'z') ==> u[i] == s[i]
    ensures forall i :: 0 <= i < |s| ==> IsWordChar(u[i]) == IsWordChar(s[i])
  {
    seq(|s|, i requires 0 <= i < |s| => UpperChar(s[i]))
  }

  /** `response.text().trim().toUpperCase()` */
  function Normalize(raw: string): string
  {
    ToUpper(Trim(raw))
  }

  /**
   * The `\b` assertion at position `i` of `t` (0 <= i <= |t|): the characters on
   * either side differ in being word characters, the outside of the string
   * counting as non-word.
   */
  predicate IsBoundary(t: string, i: nat)
    requires i <= |t|
  {
    (i > 0 && IsWordChar(t[i - 1])) != (i < |t| && IsWordChar(t[i]))
  }

  /** `\b(BUY|SELL|HOLD)\b` matches at position `i` of `t` with the word of `s`. */
  predicate TokenAt(t: string, i: nat, s: Signal)
  {
    i + |Word(s)| <= |t| &&
    t[i..i + |Word(s)|] == Word(s) &&
    IsBoundary(t, i) && IsBoundary(t, i + |Word(s)|)
  }

  /** No word character touches the `n` characters from position `i` on either side. */
  predicate Standalone(t: string, i: nat, n: nat)
    requires i + n <= |t|
  {
    (i == 0 || !IsWordChar(t[i - 1])) && (i + n == |t| || !IsWordChar(t[i + n]))
  }

  /** No word of the pattern matches at position `j` of `t`. */
  ghost predicate NoTokenAt(t: string, j: nat)
  {
    forall s :: !TokenAt(t, j, s)
  }

  /**
   * The alternatives of the pattern tried in order at one position, each word
   * compared letter by letter.
   */
  function MatchAt(t: string, i: nat): (r: Option<Signal>)
    ensures r.Some? ==> TokenAt(t, i, r.value)
    ensures r.None? ==> NoTokenAt(t, i)
  {
    SpelledAt(t, i, Buy);
    SpelledAt(t, i, Sell);
    SpelledAt(t, i, Hold);
    if LettersAt(t, i, Buy) && Standalone(t, i, 3) then Some(Buy)
    else if LettersAt(t, i, Sell) && Standalone(t, i, 4) then Some(Sell)
    else if LettersAt(t, i, Hold) && Standalone(t, i, 4) then Some(Hold)
    else None
  }

  /** Whether the letters of `s`'s word stand at position `i`, compared one by one. */
  predicate LettersAt(t: string, i: nat, s: Signal)
  {
    match s
    case Buy => i + 3 <= |t| && t[i] == 'B' && t[i + 1] == 'U' && t[i + 2] == 'Y'
    case Sell => i + 4 <= |t| && t[i] == 'S' && t[i + 1] == 'E' && t[i + 2] == 'L' && t[i + 3] == 'L'
    case Hold => i + 4 <= |t| && t[i] == 'H' && t[i + 1] == 'O' && t[i + 2] == 'L' && t[i + 3] == 'D'
  }

  /**
   * The `\b` pattern as the matcher checks it: the word's letters, and no word
   * character on either side (every word begins and ends with a word character).
   */
  lemma SpelledAt(t: string, i: nat, s: Signal)
    ensures TokenAt(t, i, s) <==> LettersAt(t, i, s) && Standalone(t, i, |Word(s)|)
  {
    var w := Word(s);
    if i + |w| <= |t| {
      var u := t[i..i + |w|];
      assert forall k :: 0 <= k < |w| ==> u[k] == t[i + k];
      if LettersAt(t, i, s) {
        assert u == w;
      }
      if u == w {
        assert t[i] == u[0] == w[0];
        assert t[i + |w| - 1] == u[|w| - 1] == w[|w| - 1];
        assert t[i + 1] == u[1] == w[1] && t[i + 2] == u[2] == w[2];
        if |w| == 4 {
          assert t[i + 3] == u[3] == w[3];
        }
      }
    }
  }

  /** A match: where it starts and which word it is. */
  datatype Match = Match(at: nat, signal: Signal)

  /** The leftmost match at or after position `i`: the regular-expression search. */
  function FindFrom(t: string, i: nat): (r: Option<Match>)
    requires i <= |t|
    ensures r.Some? ==> i <= r.value.at < |t| && TokenAt(t, r.value.at, r.value.signal)
    ensures r.Some? ==> forall j :: i <= j < r.value.at ==> NoTokenAt(t, j)
    ensures r.None? ==> forall j :: i <= j <= |t| ==> NoTokenAt(t, j)
    decreases |t| - i
  {
    if i == |t| then None
    else
      var m := MatchAt(t, i);
      if m.Some? then Some(Match(i, m.value)) else FindFrom(t, i + 1)
  }

  /**
   * The signal extracted from a model reply: the word of the leftmost match in
   * the normalised text, HOLD when nothing matches.
   */
  function ExtractSignal(raw: string): Signal
  {
    match FindFrom(Normalize(raw), 0)
    case Some(m) => m.signal
    case None => Hold
  }

  /** BUY or SELL only when its word stands in the normalised text; HOLD when no word does. */
  lemma ExtractSignalSound(raw: string)
    ensures ExtractSignal(raw) != Hold ==> exists i :: TokenAt(Normalize(raw), i, ExtractSignal(raw))
    ensures (forall j, s :: 0 <= j <= |Normalize(raw)| ==> !TokenAt(Normalize(raw), j, s)) ==> ExtractSignal(raw) == Hold
  {
  }

  /** At most one of the three words can match at a given position. */
  lemma TokenAtUnique(t: string, i: nat, s: Signal, s': Signal)
    requires TokenAt(t, i, s) && TokenAt(t, i, s')
    ensures s == s'
  {
    assert t[i] == t[i..i + |Word(s)|][0] == Word(s)[0];
    assert t[i] == t[i..i + |Word(s')|][0] == Word(s')[0];
  }

  /** The search finds the leftmost whole-word occurrence. */
  lemma LeftmostTokenIsFound(t: string, i: nat, s: Signal)
    requires TokenAt(t, i, s)
    requires forall j, s' :: 0 <= j < i ==> !TokenAt(t, j, s')
    ensures FindFrom(t, 0) == Some(Match(i, s))
  {
    var m := FindFrom(t, 0);
    assert m.None? || m.value.at > i ==> NoTokenAt(t, i);
    assert m.Some? && m.value.at == i;
    TokenAtUnique(t, i, s, m.value.signal);
  }

  /**
   * Extraction returns the leftmost whole-word occurrence: if `s` stands at `i`
   * of the normalised text and no word stands anywhere before, the result is `s`.
   */
  lemma ExtractIsLeftmostToken(raw: string, i: nat, s: Signal)
    requires TokenAt(Normalize(raw), i, s)
    requires forall j, s' :: 0 <= j < i ==> !TokenAt(Normalize(raw), j, s')
    ensures ExtractSignal(raw) == s
  {
    LeftmostTokenIsFound(Normalize(raw), i, s);
  }

  /** Text that begins and ends with a non-space character is left alone by `trim`. */
  lemma TrimUnchanged(s: string)
    requires s != [] && !IsTrimmable(s[0]) && !IsTrimmable(s[|s| - 1])
    ensures Trim(s) == s
  {
  }

  /** The letters a match can start with. */
  predicate IsInitial(c: char)
  {
    c == 'B' || c == 'S' || c == 'H'
  }

  /** A match starts with the initial letter of its word. */
  lemma TokenAtInitial(t: string, j: nat, s: Signal)
    requires TokenAt(t, j, s)
    ensures j < |t| && IsInitial(t[j])
  {
    assert t[j] == t[j..j + |Word(s)|][0];
  }

  /**
   * If no initial letter occurs before position `i` and the word of `s` stands
   * at `i`, the search finds `s` at `i`.
   */
  lemma FoundAfterPlainPrefix(t: string, i: nat, s: Signal)
    requires i <= |t|
    requires forall j :: 0 <= j < i ==> !IsInitial(t[j])
    requires LettersAt(t, i, s) && Standalone(t, i, |Word(s)|)
    ensures FindFrom(t, 0) == Some(Match(i, s))
  {
    forall j, s' | 0 <= j < i
      ensures !TokenAt(t, j, s')
    {
      if TokenAt(t, j, s') {
        TokenAtInitial(t, j, s');
      }
    }
    SpelledAt(t, i, s);
    LeftmostTokenIsFound(t, i, s);
  }

  /** A position that does not hold an initial letter starts no match. */
  lemma NoTokenWithoutInitial(t: string, j: nat, s: Signal)
    requires j < |t| ==> !IsInitial(t[j])
    ensures !TokenAt(t, j, s)
  {
    if TokenAt(t, j, s) {
      TokenAtInitial(t, j, s);
    }
  }

  /** The worked example of a reply that recommends buying. */
  lemma ExtractBuyExample(raw: string)
    requires raw == "I recommend we BUY aggressively because..."
    ensures ExtractSignal(raw) == Buy
  {
    TrimUnchanged(raw);
    BuyTextPrefix(raw);
    BuyTextWord(raw);
    FoundAfterPlainPrefix(ToUpper(raw), 15, Buy);
  }

  /** The upper-cased BUY example has its signal word, standing alone, at position 15. */
  lemma BuyTextWord(raw: string)
    requires raw == "I recommend we BUY aggressively because..."
    ensures LettersAt(ToUpper(raw), 15, Buy) && Standalone(ToUpper(raw), 15, 3)
  {
    assert raw[14] == ' ' && raw[15] == 'B' && raw[16] == 'U' && raw[17] == 'Y' && raw[18] == ' ';
  }

  /** The text before the signal word of the BUY example, in two pieces. */
  lemma BuyTextPieces(raw: string)
    requires raw == "I recommend we BUY aggressively because..."
    ensures raw[..8] == "I recomm" && raw[8..15] == "end we "
  {
    assert raw[..15] == "I recommend we ";
    assert raw[..8] == raw[..15][..8] && raw[8..15] == raw[..15][8..];
  }

  /** No initial letter precedes the signal word of the upper-cased BUY example. */
  lemma BuyTextPrefix(raw: string)
    requires raw == "I recommend we BUY aggressively because..."
    ensures forall j :: 0 <= j < 15 ==> !IsInitial(ToUpper(raw)[j])
  {
    var t := ToUpper(raw);
    BuyTextPieces(raw);
    forall j | 0 <= j < 15
      ensures !IsInitial(t[j])
    {
      if j < 8 {
        assert raw[j] in raw[..8];
      } else {
        assert raw[j] in raw[8..15];
      }
    }
  }

  /**
   * "HOLDING" contains HOLD only as a prefix of a longer word, so the reply below
   * has no whole-word occurrence at all and HOLD comes from the default.
   */
  lemma ExtractHoldingExample(raw: string)
    requires raw == "HOLDING is wise here."
    ensures forall j, s :: 0 <= j <= |Normalize(raw)| ==> !TokenAt(Normalize(raw), j, s)
    ensures ExtractSignal(raw) == Hold
  {
    TrimUnchanged(raw);
    HoldingHasNoToken(raw, ToUpper(raw));
    ExtractSignalSound(raw);
  }

  /** The HOLDING example, piece by piece. */
  lemma HoldingPieces(raw: string)
    requires raw == "HOLDING is wise here."
    ensures raw[1..9] == "OLDING i" && raw[10..13] == " wi"
  {
  }

  lemma HoldingTail(raw: string)
    requires raw == "HOLDING is wise here."
    ensures raw[14..16] == "e " && raw[17..] == "ere."
  {
  }

  /** Where the HOLDING example has no initial letter, no word starts. */
  lemma HoldingPlainAt(raw: string, t: string, j: nat, s: Signal)
    requires raw == "HOLDING is wise here." && t == ToUpper(raw)
    requires j <= |t| && j != 0 && j != 9 && j != 13 && j != 16
    ensures !TokenAt(t, j, s)
  {
    if j < 9 {
      HoldingPieces(raw);
      assert raw[j] in raw[1..9];
    } else if j < 13 {
      HoldingPieces(raw);
      assert raw[j] in raw[10..13];
    } else if j < 16 {
      HoldingTail(raw);
      assert raw[j] in raw[14..16];
    } else if j < |t| {
      HoldingTail(raw);
      assert raw[j] in raw[17..];
    }
    NoTokenWithoutInitial(t, j, s);
  }

  /** Where the HOLDING example has an initial letter, the word around it is not a whole word. */
  lemma HoldingInitialAt(raw: string, t: string, j: nat, s: Signal)
    requires raw == "HOLDING is wise here." && t == ToUpper(raw)
    requires j == 0 || j == 9 || j == 13 || j == 16
    ensures !TokenAt(t, j, s)
  {
    SpelledAt(t, j, s);
    if j == 0 {
      // HOLD is followed by the word character I
      assert t[4] == 'I';
    } else if j == 9 || j == 13 {
      // S is preceded by the word character I
      assert t[j - 1] == 'I';
    } else {
      // H is followed by E, not O
      assert t[17] == 'E';
    }
  }

  /** The position-by-position argument behind the HOLDING example. */
  lemma HoldingHasNoToken(raw: string, t: string)
    requires raw == "HOLDING is wise here." && t == ToUpper(raw)
    ensures forall j, s :: 0 <= j <= |t| ==> !TokenAt(t, j, s)
  {
    forall j, s | 0 <= j <= |t|
      ensures !TokenAt(t, j, s)
    {
      if j == 0 || j == 9 || j == 13 || j == 16 {
        HoldingInitialAt(raw, t, j, s);
      } else {
        HoldingPlainAt(raw, t, j, s);
      }
    }
  }
}
