/** The parts of Python's `str` that the selector parser, the id generator and the
    path logic depend on: `split`, `strip`, `lower` and `str()` of a natural number.
    A Python `str` is a `seq<char>`; `s.startswith(p)` is Dafny's prefix test `p <= s`
    and `c in s` is sequence membership. */
module PyStr {

  /** `c.isspace()`: exactly the characters that `str.strip()` with no argument removes. */
  predicate IsSpace(c: char) {
    || c == ' '
    || '\t' <= c <= '\r'
    || '\U{1C}' <= c <= '\U{1F}'
    || c == '\U{85}' || c == '\U{A0}' || c == '\U{1680}'
    || '\U{2000}' <= c <= '\U{200A}'
    || c == '\U{2028}' || c == '\U{2029}' || c == '\U{202F}' || c == '\U{205F}' || c == '\U{3000}'
  }

  /** Position of the first occurrence of `c` in `s` (`s.index(c)`). */
  function FirstIndex(s: string, c: char): (k: nat)
    requires c in s
    ensures k < |s| && s[k] == c
  {
    if s[0] == c then 0
    else
      assert c in s[1..] by { var j :| 0 <= j < |s| && s[j] == c; assert s[1..][j - 1] == c; }
      1 + FirstIndex(s[1..], c)
  }

  /** No occurrence of `c` comes before `FirstIndex(s, c)`. */
  lemma {:induction false} FirstIndexIsFirst(s: string, c: char)
    requires c in s
    ensures c !in s[..FirstIndex(s, c)]
  {
    if s[0] != c {
      var k := FirstIndex(s, c);
      assert c in s[1..] by { var j :| 0 <= j < |s| && s[j] == c; assert s[1..][j - 1] == c; }
      FirstIndexIsFirst(s[1..], c);
      assert s[..k] == [s[0]] + s[1..][..k - 1];
    }
  }

  /** `s.split(sep)`: the pieces between the occurrences of `sep`, always at least one. */
  function Split(s: string, sep: char): (parts: seq<string>)
    ensures |parts| >= 1
    decreases |s|
  {
    if sep !in s then [s]
    else
      var k := FirstIndex(s, sep);
      [s[..k]] + Split(s[k + 1..], sep)
  }

  /** No piece of a split holds the separator. */
  lemma {:induction false} SplitPiecesLackSeparator(s: string, sep: char)
    ensures forall i :: 0 <= i < |Split(s, sep)| ==> sep !in Split(s, sep)[i]
    decreases |s|
  {
    if sep in s {
      var k := FirstIndex(s, sep);
      FirstIndexIsFirst(s, sep);
      SplitPiecesLackSeparator(s[k + 1..], sep);
    }
  }

  /** `sep.join(parts)`, the inverse of `Split`. */
  function Join(parts: seq<string>, sep: char): string
    requires |parts| >= 1
  {
    if |parts| == 1 then parts[0] else parts[0] + [sep] + Join(parts[1..], sep)
  }

  /** Joining the pieces of a split gives back the original string. */
  lemma {:induction false} JoinSplit(s: string, sep: char)
    ensures Join(Split(s, sep), sep) == s
    decreases |s|
  {
    if sep in s {
      var k := FirstIndex(s, sep);
      JoinSplit(s[k + 1..], sep);
      assert s == s[..k] + [sep] + s[k + 1..];
    }
  }

  /** The first separator of `a + [sep] + b` is the one after `a` when `a` holds none. */
  lemma FirstIndexOfJoin(a: string, sep: char, b: string)
    requires sep !in a
    ensures sep in a + [sep] + b && FirstIndex(a + [sep] + b, sep) == |a|
  {
    var s := a + [sep] + b;
    assert s[|a|] == sep;
    var k := FirstIndex(s, sep);
    FirstIndexIsFirst(s, sep);
    assert forall j :: 0 <= j < |a| ==> s[j] == a[j];
    assert forall j :: 0 <= j < k ==> s[..k][j] == s[j];
  }

  /** Splitting pieces that hold no separator after joining them gives the pieces back. */
  lemma {:induction false} SplitJoin(parts: seq<string>, sep: char)
    requires |parts| >= 1
    requires forall i :: 0 <= i < |parts| ==> sep !in parts[i]
    ensures Split(Join(parts, sep), sep) == parts
  {
    if |parts| > 1 {
      var rest := Join(parts[1..], sep);
      FirstIndexOfJoin(parts[0], sep, rest);
      var s := parts[0] + [sep] + rest;
      assert s[..|parts[0]|] == parts[0];
      assert s[|parts[0]| + 1..] == rest;
      SplitJoin(parts[1..], sep);
    }
  }

  /** `s.split(sep, 1)` when `sep in s`: the text before the first `sep` and everything after it. */
  function SplitOnce(s: string, sep: char): (halves: (string, string))
    requires sep in s
  {
    var k := FirstIndex(s, sep);
    (s[..k], s[k + 1..])
  }

  /** The two halves of `s.split(sep, 1)` put back together around `sep` give `s`, and the first
      half holds no `sep`. */
  lemma SplitOnceRejoins(s: string, sep: char)
    requires sep in s
    ensures s == SplitOnce(s, sep).0 + [sep] + SplitOnce(s, sep).1
    ensures sep !in SplitOnce(s, sep).0
  {
    var k := FirstIndex(s, sep);
    FirstIndexIsFirst(s, sep);
    assert s == s[..k] + [sep] + s[k + 1..];
  }

  /** Splitting `a + [sep] + b` once at `sep` gives `a` and `b` back when `a` holds no `sep`. */
  lemma SplitOnceOfJoin(a: string, sep: char, b: string)
    requires sep !in a
    ensures sep in a + [sep] + b && SplitOnce(a + [sep] + b, sep) == (a, b)
  {
    var s := a + [sep] + b;
    FirstIndexOfJoin(a, sep, b);
    assert s[..|a|] == a && s[|a| + 1..] == b;
  }

  /** `s.lstrip()`. */
  function TrimStart(s: string): (r: string)
    ensures |r| <= |s| && r == s[|s| - |r|..]
    ensures r == [] || !IsSpace(r[0])
  {
    if s == [] || !IsSpace(s[0]) then s else TrimStart(s[1..])
  }

  /** `s.lstrip()` removes white space only. */
  lemma {:induction false} TrimStartRemovesSpace(s: string)
    ensures forall i :: 0 <= i < |s| - |TrimStart(s)| ==> IsSpace(s[i])
  {
    if s != [] && IsSpace(s[0]) {
      TrimStartRemovesSpace(s[1..]);
      assert forall i :: 1 <= i < |s| ==> s[i] == s[1..][i - 1];
    }
  }

  /** `s.rstrip()`. */
  function TrimEnd(s: string): (r: string)
    ensures |r| <= |s| && r == s[..|r|]
    ensures r == [] || !IsSpace(r[|r| - 1])
  {
    if s == [] || !IsSpace(s[|s| - 1]) then s else TrimEnd(s[..|s| - 1])
  }

  /** `s.rstrip()` removes white space only. */
  lemma {:induction false} TrimEndRemovesSpace(s: string)
    ensures forall i :: |TrimEnd(s)| <= i < |s| ==> IsSpace(s[i])
  {
    if s != [] && IsSpace(s[|s| - 1]) {
      TrimEndRemovesSpace(s[..|s| - 1]);
    }
  }

  /** `s.strip()`: `s` without its leading and trailing white space. */
  function Strip(s: string): (r: string)
    ensures |r| <= |s|
    ensures r == [] || (!IsSpace(r[0]) && !IsSpace(r[|r| - 1]))
  {
    var t := TrimStart(s);
    var r := TrimEnd(t);
    assert r == [] || r[0] == t[0];
    r
  }

  /** Cutting a string at `k` and gluing the pieces back gives the string. */
  lemma Rejoin(x: string, k: nat)
    requires k <= |x|
    ensures x == x[..k] + x[k..]
  {
  }

  /** A string is a white-space front, a middle `r` and a white-space back when `r` is a prefix
      of a suffix `t` and white space surrounds them. */
  lemma Surrounded(s: string, t: string, r: string)
    requires |t| <= |s| && t == s[|s| - |t|..] && |r| <= |t| && r == t[..|r|]
    requires forall i :: 0 <= i < |s| - |t| ==> IsSpace(s[i])
    requires forall i :: |r| <= i < |t| ==> IsSpace(t[i])
    ensures var front, back := s[..|s| - |t|], t[|r|..];
      && s == front + r + back
      && (forall i :: 0 <= i < |front| ==> IsSpace(front[i]))
      && (forall i :: 0 <= i < |back| ==> IsSpace(back[i]))
  {
    Rejoin(s, |s| - |t|);
    Rejoin(t, |r|);
    assert s == s[..|s| - |t|] + (r + t[|r|..]);
  }

  /** `s.strip()` is what is left of `s` after removing a run of white space at the front and a
      run at the back. */
  lemma StripTrims(s: string)
    ensures exists front, back :: s == front + Strip(s) + back
              && (forall i :: 0 <= i < |front| ==> IsSpace(front[i]))
              && (forall i :: 0 <= i < |back| ==> IsSpace(back[i]))
  {
    var t := TrimStart(s);
    var r := TrimEnd(t);
    TrimStartRemovesSpace(s);
    TrimEndRemovesSpace(t);
    Surrounded(s, t, r);
    var front, back := s[..|s| - |t|], t[|r|..];
    assert s == front + Strip(s) + back;
  }

  /** A string with no white space at either end is its own strip. */
  lemma StripKeeps(s: string)
    requires s == [] || (!IsSpace(s[0]) && !IsSpace(s[|s| - 1]))
    ensures Strip(s) == s
  {
  }

  /** `c.lower()` where the result is compared against ASCII words: ASCII capitals become small
      letters and the Kelvin sign U+212A becomes 'k', which are the only characters whose Python
      lower case is a single ASCII letter other than themselves. Every other character is kept;
      its lower case is never an ASCII letter, so no comparison against an ASCII word changes. */
  function LowerChar(c: char): char {
    if 'A' <= c <= 'Z' then (c as int + 32) as char
    else if c == '\U{212A}' then 'k'
    else c
  }

  /** `s.lower()`, exact for comparisons against words made of ASCII small letters. */
  function Lower(s: string): (r: string)
    ensures |r| == |s|
  {
    seq(|s|, i requires 0 <= i < |s| => LowerChar(s[i]))
  }

  /** One character of a string that lowers to an ASCII small letter `w`: `w` itself, its
      capital, or the Kelvin sign for 'k'. */
  predicate LowersTo(c: char, w: char) {
    c == w || c as int == w as int - 32 || (w == 'k' && c == '\U{212A}')
  }

  /** `value.lower() == word` holds exactly when every character of `value` lowers to the
      character of `word` at its place. */
  lemma {:induction false} LowerMatches(value: string, word: string)
    requires forall i :: 0 <= i < |word| ==> 'a' <= word[i] <= 'z'
    ensures Lower(value) == word <==>
              |value| == |word| && forall i :: 0 <= i < |word| ==> LowersTo(value[i], word[i])
  {
    if Lower(value) == word {
      forall i | 0 <= i < |word|
        ensures LowersTo(value[i], word[i])
      {
        assert Lower(value)[i] == LowerChar(value[i]);
      }
    }
    if |value| == |word| && forall i :: 0 <= i < |word| ==> LowersTo(value[i], word[i]) {
      forall i | 0 <= i < |word| ensures Lower(value)[i] == word[i] {
        assert LowerChar(value[i]) == word[i];
      }
    }
  }

  predicate IsDigit(c: char) { '0' <= c <= '9' }

  function DigitChar(d: nat): (c: char)
    requires d < 10
    ensures IsDigit(c) && c as int - '0' as int == d
  {
    (d + '0' as int) as char
  }

  /** `str(n)` for a natural number: its decimal digits, without leading zeros. */
  function NatToString(n: nat): (s: string)
    ensures |s| >= 1
    ensures forall i :: 0 <= i < |s| ==> IsDigit(s[i])
    ensures s[0] == '0' <==> n == 0
    ensures n == 0 ==> s == "0"
  {
    if n < 10 then [DigitChar(n)] else NatToString(n / 10) + [DigitChar(n % 10)]
  }

  /** `int(s)` for a string of decimal digits. */
  function DigitsValue(s: string): nat
    requires forall i :: 0 <= i < |s| ==> IsDigit(s[i])
  {
    if s == [] then 0
    else
      assert IsDigit(s[|s| - 1]);
      DigitsValue(s[..|s| - 1]) * 10 + (s[|s| - 1] as int - '0' as int)
  }

  /** `int(str(n)) == n`. */
  lemma {:induction false} NatToStringRoundTrip(n: nat)
    ensures DigitsValue(NatToString(n)) == n
  {
    if n >= 10 {
      var s := NatToString(n);
      assert s[..|s| - 1] == NatToString(n / 10);
      NatToStringRoundTrip(n / 10);
    }
  }

  /** Distinct numbers have distinct decimal forms. */
  lemma NatToStringInjective(m: nat, n: nat)
    requires NatToString(m) == NatToString(n)
    ensures m == n
  {
    NatToStringRoundTrip(m);
    NatToStringRoundTrip(n);
  }
}
