/**
  The Python `str` built-ins the relay relies on, over `seq<char>`:
  `strip()`, `rstrip(chars)`, `startswith`, `split(sep)`, `split(maxsplit=1)`
  and the decimal `int(s)` conversion.
 */
module PyStr {
  import opened Wrappers

  /** `c.isspace()`: the characters `strip()` and `split()` treat as whitespace. */
  predicate IsSpace(c: char) {
    c == ' ' || ('\t' <= c <= '\r') || ('\U{1C}' <= c <= '\U{1F}')
    || c == '\U{85}' || c == '\U{A0}' || c == '\U{1680}' || ('\U{2000}' <= c <= '\U{200A}')
    || c == '\U{2028}' || c == '\U{2029}' || c == '\U{202F}' || c == '\U{205F}' || c == '\U{3000}'
  }

  predicate AllSpace(s: string) {
    forall i | 0 <= i < |s| :: IsSpace(s[i])
  }

  predicate NoSpace(s: string) {
    forall i | 0 <= i < |s| :: !IsSpace(s[i])
  }

  /** `s.rstrip()`: removes the longest all-whitespace suffix. */
  function RStripSpace(s: string): (r: string)
    ensures r <= s
    ensures r == [] || !IsSpace(r[|r| - 1])
    ensures forall i | |r| <= i < |s| :: IsSpace(s[i])
  {
    if s != [] && IsSpace(s[|s| - 1]) then RStripSpace(s[..|s| - 1]) else s
  }

  /** The length of the leading run of whitespace characters. */
  function SpaceRun(s: string): (k: nat)
    ensures k <= |s|
    ensures forall i | 0 <= i < k :: IsSpace(s[i])
    ensures k < |s| ==> !IsSpace(s[k])
  {
    if s != [] && IsSpace(s[0]) then 1 + SpaceRun(s[1..]) else 0
  }

  /** `s.rstrip(c)` for a single character `c`: removes every trailing `c`. */
  function RStripChar(s: string, c: char): (r: string)
    ensures r <= s
    ensures r == [] || r[|r| - 1] != c
    ensures forall i | |r| <= i < |s| :: s[i] == c
  {
    if s != [] && s[|s| - 1] == c then RStripChar(s[..|s| - 1], c) else s
  }

  /** `s.strip()` */
  function Strip(s: string): (r: string)
    ensures r == [] <==> AllSpace(s)
    ensures r != [] ==> !IsSpace(r[0]) && !IsSpace(r[|r| - 1])
    ensures exists i, j | 0 <= i <= j <= |s| :: AllSpace(s[..i]) && AllSpace(s[j..]) && r == s[i..j]
  {
    var e := RStripSpace(s);
    var i := SpaceRun(e);
    var r := e[i..];
    assert r != [] ==> r[|r| - 1] == e[|e| - 1];
    assert AllSpace(s[..i]) && AllSpace(s[|e|..]) && r == s[i..|e|];
    r
  }

  /** A string that neither starts nor ends with whitespace is its own `strip()`. */
  lemma StripTrimmed(s: string)
    requires s == [] || (!IsSpace(s[0]) && !IsSpace(s[|s| - 1]))
    ensures Strip(s) == s
  {
  }

  /** `s.startswith(p)` */
  predicate StartsWith(s: string, p: string) {
    p <= s
  }

  /** The number of occurrences of `c` in `s`. */
  function Count(s: string, c: char): nat {
    if s == [] then 0 else (if s[0] == c then 1 else 0) + Count(s[1..], c)
  }

  /** `sep.join(parts)`, the inverse of `Split`. */
  function Join(parts: seq<string>, sep: char): string
    requires |parts| >= 1
  {
    if |parts| == 1 then parts[0] else parts[0] + [sep] + Join(parts[1..], sep)
  }

  /**
    `s.split(sep)` for a one-character separator: the pieces between
    separators, empty pieces included; `"".split(",")` is `[""]`.
   */
  function Split(s: string, sep: char): (parts: seq<string>)
    ensures |parts| == Count(s, sep) + 1
    ensures forall i | 0 <= i < |parts| :: sep !in parts[i]
    ensures Join(parts, sep) == s
  {
    if s == [] then [[]]
    else
      var rest := Split(s[1..], sep);
      if s[0] == sep then
        var parts := [[]] + rest;
        assert parts[1..] == rest;
        assert Join(parts, sep) == [sep] + Join(rest, sep);
        assert s == [s[0]] + s[1..];
        parts
      else
        var parts := [[s[0]] + rest[0]] + rest[1..];
        assert |rest| > 1 ==> parts[1..] == rest[1..];
        assert Join(parts, sep) == [s[0]] + Join(rest, sep);
        assert s == [s[0]] + s[1..];
        parts
  }

  /** The length of the leading run of non-whitespace characters. */
  function WordLength(s: string): (k: nat)
    ensures k <= |s|
    ensures forall i | 0 <= i < k :: !IsSpace(s[i])
    ensures k < |s| ==> IsSpace(s[k])
  {
    if s == [] || IsSpace(s[0]) then 0 else 1 + WordLength(s[1..])
  }

  /**
    `parts` is how `split(maxsplit=1)` cuts `s`: after the leading
    whitespace comes the first part, ending at whitespace or at the end;
    with one part only whitespace follows; with two, a non-empty
    whitespace gap separates the first part from the second, which runs
    to the end of `s`.
   */
  ghost predicate MaxOneSplit(s: string, parts: seq<string>) {
    MaxOneSplitAt(s, parts, SpaceRun(s))
  }

  /** `MaxOneSplit` with the length `a` of the leading whitespace given. */
  ghost predicate MaxOneSplitAt(s: string, parts: seq<string>, a: nat) {
    |parts| >= 1 ==>
      var k := a + |parts[0]|;
      && k <= |s| && AllSpace(s[..a]) && parts[0] == s[a..k] && (k == |s| || IsSpace(s[k]))
      && (|parts| == 1 ==> AllSpace(s[k..]))
      && (|parts| == 2 ==> k < |s| - |parts[1]| && AllSpace(s[k..|s| - |parts[1]|]) && parts[1] == s[|s| - |parts[1]|..])
  }

  /**
    `s.split(maxsplit=1)`: leading whitespace is skipped, the first word is
    cut at the next whitespace, and the rest (without its leading whitespace,
    but keeping any trailing whitespace) is the second part if non-empty.
   */
  function SplitMaxOne(s: string): (parts: seq<string>)
    ensures |parts| <= 2
    ensures parts == [] <==> AllSpace(s)
    ensures forall i | 0 <= i < |parts| :: parts[i] != [] && !IsSpace(parts[i][0])
    ensures |parts| >= 1 ==> NoSpace(parts[0])
    ensures MaxOneSplit(s, parts)
  {
    var a := SpaceRun(s);
    if a == |s| then
      assert s[..a] == s;
      []
    else
      var k := a + WordLength(s[a..]);
      var b := k + SpaceRun(s[k..]);
      SplitMaxOneCuts(s, a, k, b);
      SplitMaxOneShape(s, a, k, b);
      if b == |s| then [s[a..k]] else [s[a..k], s[b..]]
  }

  lemma SplitMaxOneShape(s: string, a: nat, k: nat, b: nat)
    requires a == SpaceRun(s) && a < k <= b <= |s|
    requires AllSpace(s[..a]) && (k == |s| || IsSpace(s[k]))
    requires AllSpace(s[k..b]) && (b < |s| ==> k < b)
    ensures MaxOneSplit(s, if b == |s| then [s[a..k]] else [s[a..k], s[b..]])
  {
    if b == |s| {
      OnePartShape(s, a, k);
    } else {
      TwoPartShape(s, a, k, b);
    }
  }

  lemma OnePartShape(s: string, a: nat, k: nat)
    requires a < k <= |s|
    requires AllSpace(s[..a]) && (k == |s| || IsSpace(s[k])) && AllSpace(s[k..])
    ensures MaxOneSplitAt(s, [s[a..k]], a)
  {
    var first := s[a..k];
    assert [first][0] == first;
    assert a + |first| == k;
  }

  lemma TwoPartShape(s: string, a: nat, k: nat, b: nat)
    requires a < k < b < |s|
    requires AllSpace(s[..a]) && IsSpace(s[k]) && AllSpace(s[k..b])
    ensures MaxOneSplitAt(s, [s[a..k], s[b..]], a)
  {
    var first, second := s[a..k], s[b..];
    var parts := [first, second];
    assert parts[0] == first && parts[1] == second;
    assert |first| == k - a && a + |first| == k;
    assert |s| - |second| == b;
    assert s[k..|s| - |second|] == s[k..b];
  }

  /** The cut points `SplitMaxOne` uses: leading gap, first word, second gap. */
  lemma SplitMaxOneCuts(s: string, a: nat, k: nat, b: nat)
    requires a == SpaceRun(s) && a < |s|
    requires k == a + WordLength(s[a..]) && k <= |s| && b == k + SpaceRun(s[k..])
    ensures a < k <= b <= |s|
    ensures AllSpace(s[..a]) && NoSpace(s[a..k]) && (k == |s| || IsSpace(s[k]))
    ensures AllSpace(s[k..b]) && (b < |s| ==> k < b && !IsSpace(s[b]))
    ensures s[a..k] != [] && !IsSpace(s[a..k][0])
    ensures b < |s| ==> s[b..] != [] && !IsSpace(s[b..][0])
    ensures !AllSpace(s)
  {
    SpaceCut(s, 0, a);
    WordCut(s, a, k);
    SpaceCut(s, k, b);
    assert s[a..k][0] == s[a];
    if b < |s| {
      assert s[b..][0] == s[b];
    }
  }

  /** `s[i..j]` is the whitespace run starting at `i`. */
  lemma SpaceCut(s: string, i: nat, j: nat)
    requires i <= |s| && j == i + SpaceRun(s[i..])
    ensures i <= j <= |s| && AllSpace(s[i..j]) && s[..j][i..] == s[i..j]
    ensures j < |s| ==> !IsSpace(s[j])
    ensures i == 0 ==> s[..j] == s[i..j]
  {
    var g := s[i..];
    forall t | 0 <= t < j - i ensures IsSpace(s[i..j][t]) {
      assert s[i..j][t] == g[t];
    }
    if j < |s| {
      assert s[j] == g[j - i];
    }
  }

  /** `s[i..j]` is the word starting at a non-whitespace `s[i]`. */
  lemma WordCut(s: string, i: nat, j: nat)
    requires i < |s| && !IsSpace(s[i]) && j == i + WordLength(s[i..])
    ensures i < j <= |s| && NoSpace(s[i..j])
    ensures j < |s| ==> IsSpace(s[j])
  {
    var w := s[i..];
    assert w[0] == s[i];
    forall t | 0 <= t < j - i ensures !IsSpace(s[i..j][t]) {
      assert s[i..j][t] == w[t];
    }
    if j < |s| {
      assert s[j] == w[j - i];
    }
  }

  /** Splitting a command word, a whitespace gap and an argument gives back the word and the argument. */
  lemma {:induction false} SplitMaxOneCommand(word: string, gap: string, arg: string)
    requires word != [] && NoSpace(word)
    requires gap != [] && AllSpace(gap)
    requires arg != [] && !IsSpace(arg[0])
    ensures SplitMaxOne(word + gap + arg) == [word, arg]
  {
    var s := word + gap + arg;
    assert SpaceRun(s) == 0;
    assert s[0..] == s;
    WordLengthOfWord(word, gap + arg);
    assert s[|word|..] == gap + arg;
    assert s[0..|word|] == word;
    SpaceRunOfGap(gap, arg);
    assert s[|word| + |gap|..] == arg;
  }

  /** A single word splits into itself. */
  lemma SplitMaxOneWord(word: string)
    requires word != [] && NoSpace(word)
    ensures SplitMaxOne(word) == [word]
  {
    WordLengthOfWord(word, []);
    assert word + [] == word;
    assert word[0..] == word;
    assert word[0..|word|] == word;
  }

  lemma {:induction false} WordLengthOfWord(word: string, tail: string)
    requires NoSpace(word)
    requires tail == [] || IsSpace(tail[0])
    ensures WordLength(word + tail) == |word|
  {
    if word != [] {
      assert (word + tail)[1..] == word[1..] + tail;
      WordLengthOfWord(word[1..], tail);
    }
  }

  lemma {:induction false} SpaceRunOfGap(gap: string, arg: string)
    requires AllSpace(gap)
    requires arg == [] || !IsSpace(arg[0])
    ensures SpaceRun(gap + arg) == |gap|
  {
    if gap != [] {
      assert (gap + arg)[1..] == gap[1..] + arg;
      SpaceRunOfGap(gap[1..], arg);
    }
  }

  predicate IsDigit(c: char) {
    '0' <= c <= '9'
  }

  predicate AllDigits(s: string) {
    forall i | 0 <= i < |s| :: IsDigit(s[i])
  }

  /** The value of a string of decimal digits. */
  function DigitsValue(s: string): nat
    requires AllDigits(s)
  {
    if s == [] then 0 else 10 * DigitsValue(s[..|s| - 1]) + (s[|s| - 1] as int - '0' as int)
  }

  /**
    `int(s)` on a decimal string: surrounding whitespace is ignored, one
    optional sign, then at least one ASCII digit; anything else is the
    `ValueError` case, `None` here.
   */
  function ParseInt(s: string): (r: Option<int>)
    ensures AllSpace(s) ==> r.None?
  {
    ParseSigned(Strip(s))
  }

  /** An optional sign, then at least one ASCII digit. */
  function ParseSigned(t: string): Option<int> {
    if t != [] && (t[0] == '-' || t[0] == '+') then
      var digits := t[1..];
      if digits != [] && AllDigits(digits) then
        var v: int := DigitsValue(digits);
        Some(if t[0] == '-' then -v else v)
      else None
    else if t != [] && AllDigits(t) then Some(DigitsValue(t))
    else None
  }

  function DigitChar(d: nat): char
    requires d < 10
  {
    ('0' as int + d) as char
  }

  /** `str(n)` for a natural number. */
  function ShowNat(n: nat): (s: string)
    ensures s != [] && AllDigits(s)
  {
    if n < 10 then [DigitChar(n)] else ShowNat(n / 10) + [DigitChar(n % 10)]
  }

  /** `str(n)` */
  function ShowInt(n: int): string {
    if n < 0 then "-" + ShowNat(-n) else ShowNat(n)
  }

  lemma {:induction false} DigitsValueShowNat(n: nat)
    ensures DigitsValue(ShowNat(n)) == n
  {
    if n >= 10 {
      var s := ShowNat(n);
      assert s[..|s| - 1] == ShowNat(n / 10);
      DigitsValueShowNat(n / 10);
    }
  }

  /** `int(str(n)) == n`: `ParseInt` reads back what `ShowInt` writes. */
  lemma ParseShowRoundTrip(n: int)
    ensures ParseInt(ShowInt(n)) == Some(n)
  {
    var m: nat := if n < 0 then -n else n;
    var d := ShowNat(m);
    DigitsValueShowNat(m);
    if n < 0 {
      ParseNegative(d);
    } else {
      ParseDigits(d);
    }
  }

  lemma ParseDigits(d: string)
    requires d != [] && AllDigits(d)
    ensures ParseInt(d) == Some(DigitsValue(d))
  {
    assert IsDigit(d[0]) && IsDigit(d[|d| - 1]);
    assert !IsSpace(d[0]) && !IsSpace(d[|d| - 1]);
    StripTrimmed(d);
    assert Strip(d) == d;
    assert d[0] != '-' && d[0] != '+';
    assert ParseSigned(d) == Some(DigitsValue(d));
  }

  lemma ParseNegative(d: string)
    requires d != [] && AllDigits(d)
    ensures ParseInt("-" + d) == Some(-(DigitsValue(d) as int))
  {
    var s := "-" + d;
    assert s[0] == '-';
    assert s[|s| - 1] == d[|d| - 1] && IsDigit(d[|d| - 1]);
    StripTrimmed(s);
    assert s[1..] == d;
  }
}
