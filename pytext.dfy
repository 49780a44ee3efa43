/** The Python 2 `str` builtins that the router and the OpenAPI generator rely on:
    `split`, `join`, `strip`, `lower`, `upper`, `startswith` and `int()`. */
module PyText {

  datatype Option<T> = None | Some(value: T)

  /** The characters `str.split()` and `str.strip()` treat as whitespace (ASCII only, as for `str`). */
  predicate IsSpace(c: char) {
    // space, or one of tab, line feed, vertical tab, form feed and carriage return (9 to 13)
    c == ' ' || 9 <= c as int <= 13
  }

  /** `sep.join(parts)` */
  function Join(parts: seq<string>, sep: string): string
  {
    if |parts| == 0 then ""
    else if |parts| == 1 then parts[0]
    else parts[0] + sep + Join(parts[1..], sep)
  }

  /** The index of the first `c` in `s`, or `|s|` when there is none. */
  function IndexOf(s: string, c: char): (i: nat)
    ensures i <= |s|
    ensures i < |s| ==> s[i] == c
    ensures forall k :: 0 <= k < i ==> s[k] != c
  {
    if |s| == 0 then 0 else if s[0] == c then 0 else 1 + IndexOf(s[1..], c)
  }

  /** `s.split(c)` for a one-character separator: the pieces between the occurrences of `c`. */
  function Split(s: string, c: char): (parts: seq<string>)
    ensures |parts| >= 1
    ensures forall k :: 0 <= k < |parts| ==> c !in parts[k]
    ensures Join(parts, [c]) == s
    decreases |s|
  {
    var i := IndexOf(s, c);
    if i == |s| then [s]
    else
      var rest := Split(s[i + 1..], c);
      assert s == s[..i] + [c] + s[i + 1..];
      [s[..i]] + rest
  }

  /** `s.split(c, 1)`: the whole string, or the parts before and after the first `c`. */
  function SplitOnce(s: string, c: char): (parts: seq<string>)
    ensures |parts| == 1 <==> c !in s
    ensures |parts| == 1 ==> parts[0] == s
    ensures |parts| != 1 ==> |parts| == 2 && c !in parts[0] && s == parts[0] + [c] + parts[1]
  {
    var i := IndexOf(s, c);
    if i == |s| then [s]
    else
      assert s == s[..i] + [c] + s[i + 1..];
      [s[..i], s[i + 1..]]
  }

  /** `s.lstrip()` */
  function StripLeft(s: string): (r: string)
    ensures |r| <= |s| && r == s[|s| - |r|..]
    ensures r == [] || !IsSpace(r[0])
    ensures forall k :: 0 <= k < |s| - |r| ==> IsSpace(s[k])
  {
    if |s| > 0 && IsSpace(s[0]) then StripLeft(s[1..]) else s
  }

  /** `s.rstrip()` */
  function StripRight(s: string): (r: string)
    ensures |r| <= |s| && r == s[..|r|]
    ensures r == [] || !IsSpace(r[|r| - 1])
    ensures forall k :: |r| <= k < |s| ==> IsSpace(s[k])
  {
    if |s| > 0 && IsSpace(s[|s| - 1]) then StripRight(s[..|s| - 1]) else s
  }

  /** `s.strip()` */
  function Strip(s: string): string
  {
    StripRight(StripLeft(s))
  }

  /** The length of the leading run of non-whitespace characters of `s`. */
  function TokenLength(s: string): (n: nat)
    ensures n <= |s|
    ensures forall k :: 0 <= k < n ==> !IsSpace(s[k])
    ensures n < |s| ==> IsSpace(s[n])
  {
    if |s| == 0 || IsSpace(s[0]) then 0 else 1 + TokenLength(s[1..])
  }

  /** A nonempty run of non-whitespace characters. */
  predicate IsToken(t: string) {
    t != [] && forall j :: 0 <= j < |t| ==> !IsSpace(t[j])
  }

  /** Splitting `a + [c] + b` once at `c` gives back `a` and `b` when `a` holds no `c`. */
  lemma SplitOnceOfJoined(a: string, c: char, b: string)
    requires c !in a
    ensures SplitOnce(a + [c] + b, c) == [a, b]
  {
    var s := a + [c] + b;
    var i := IndexOf(s, c);
    assert s[|a|] == c;
    assert forall k :: 0 <= k < |a| ==> s[k] == a[k];
    assert s[..|a|] == a && s[|a| + 1..] == b;
  }

  /** Splitting `a + [c] + rest` at every `c` starts with `a` when `a` holds no `c`. */
  lemma SplitCons(a: string, c: char, rest: string)
    requires c !in a
    ensures Split(a + [c] + rest, c) == [a] + Split(rest, c)
  {
    var s := a + [c] + rest;
    assert s[|a|] == c;
    assert forall k :: 0 <= k < |a| ==> s[k] == a[k];
    assert IndexOf(s, c) == |a|;
    assert s[..|a|] == a && s[|a| + 1..] == rest;
  }

  /** `c.join(parts).split(c)` gives back the parts when none of them holds `c`. */
  lemma {:induction false} SplitJoin(parts: seq<string>, c: char)
    requires parts != [] && forall k :: 0 <= k < |parts| ==> c !in parts[k]
    ensures Split(Join(parts, [c]), c) == parts
    decreases |parts|
  {
    if |parts| == 1 {
      assert IndexOf(parts[0], c) == |parts[0]|;
    } else {
      var rest := parts[1..];
      SplitJoin(rest, c);
      SplitCons(parts[0], c, Join(rest, [c]));
    }
  }

  /** A string whose ends are not whitespace is its own `strip()`. */
  lemma StripUnspaced(s: string)
    requires s != [] && !IsSpace(s[0]) && !IsSpace(s[|s| - 1])
    ensures Strip(s) == s
  {
  }

  /** Joining nonempty parts starts with the first part's first character and ends with
      the last part's last character. */
  lemma {:induction false} JoinEnds(parts: seq<string>, sep: string)
    requires parts != [] && forall k :: 0 <= k < |parts| ==> parts[k] != []
    ensures var j := Join(parts, sep);
            j != [] && j[0] == parts[0][0] && j[|j| - 1] == parts[|parts| - 1][|parts[|parts| - 1]| - 1]
    decreases |parts|
  {
    if |parts| > 1 {
      JoinEnds(parts[1..], sep);
    }
  }

  /** `s.split()` with no separator: the maximal runs of non-whitespace characters. */
  function Tokens(s: string): (ts: seq<string>)
    decreases |s|
  {
    var t := StripLeft(s);
    if t == [] then []
    else
      var n := TokenLength(t);
      [t[..n]] + Tokens(t[n..])
  }

  /** Nothing but whitespace (possibly empty). */
  predicate AllSpace(s: string) {
    forall k :: 0 <= k < |s| ==> IsSpace(s[k])
  }

  /** `s.split()` is empty exactly on blank strings. */
  lemma TokensEmpty(s: string)
    ensures Tokens(s) == [] <==> AllSpace(s)
  {
    var t := StripLeft(s);
    if t != [] {
      assert s[|s| - |t|] == t[0];
    }
  }

  /** `s.split()[-1]`, or nothing where that indexing raises IndexError: the last word of
      `s`, absent exactly on blank strings. */
  function LastToken(s: string): (w: Option<string>)
    ensures w.None? <==> AllSpace(s)
    ensures w.Some? ==> Tokens(s) != [] && w.value == Tokens(s)[|Tokens(s)| - 1]
  {
    TokensEmpty(s);
    var ts := Tokens(s);
    if ts == [] then None else Some(ts[|ts| - 1])
  }

  /** A header value `' ' + word + blanks` splits into the single token `word`. */
  lemma {:induction false} TokensOfSpaced(word: string, rest: string)
    requires IsToken(word)
    requires AllSpace(rest)
    ensures Tokens(" " + word + rest) == [word]
  {
    var s := " " + word + rest;
    assert s[1..] == word + rest;
    assert s[0] == ' ';
    assert (word + rest)[0] == word[0];
    assert StripLeft(word + rest) == word + rest;
    var t := StripLeft(s);
    assert t == word + rest;
    var n := TokenLength(t);
    TokenLengthOfWord(word, rest);
    assert t[..n] == word;
    assert t[n..] == rest;
    TokensEmpty(rest);
  }

  /** `(a + ' ' + w).split()` is `[a, w]` for two tokens `a` and `w`. */
  lemma TokensOfTwo(a: string, w: string)
    requires IsToken(a) && IsToken(w)
    ensures Tokens(a + " " + w) == [a, w]
  {
    var rest := " " + w;
    assert a + " " + w == a + rest;
    assert Tokens(rest) == [w] by {
      TokensOfSpaced(w, "");
      assert " " + w + "" == rest;
    }
    assert Tokens(a + rest) == [a] + Tokens(rest) by {
      TokensAfterToken(a, rest);
    }
    assert [a] + [w] == [a, w];
  }

  /** A token followed by a blank or the end is the first token. */
  lemma TokensAfterToken(a: string, rest: string)
    requires IsToken(a)
    requires rest == [] || IsSpace(rest[0])
    ensures Tokens(a + rest) == [a] + Tokens(rest)
  {
    var s := a + rest;
    assert StripLeft(s) == s by {
      assert s[0] == a[0];
    }
    TokenLengthOfWord(a, rest);
    assert s[..|a|] == a && s[|a|..] == rest;
  }

  /** The leading token of `word + rest` is `word` when a blank or the end follows it. */
  lemma {:induction false} TokenLengthOfWord(word: string, rest: string)
    requires forall j :: 0 <= j < |word| ==> !IsSpace(word[j])
    requires rest == [] || IsSpace(rest[0])
    ensures TokenLength(word + rest) == |word|
    decreases |word|
  {
    if word == [] {
      assert word + rest == rest;
    } else {
      assert (word + rest)[1..] == word[1..] + rest;
      TokenLengthOfWord(word[1..], rest);
    }
  }

  predicate IsDigit(c: char) {
    '0' <= c <= '9'
  }

  /** The value of a run of decimal digits. */
  function DigitsValue(d: string): (v: nat)
    requires forall k :: 0 <= k < |d| ==> IsDigit(d[k])
    ensures v == 0 <==> forall k :: 0 <= k < |d| ==> d[k] == '0'
  {
    if |d| == 0 then 0
    else
      assert IsDigit(d[|d| - 1]);
      var last: nat := (d[|d| - 1] as int) - ('0' as int);
      assert last == 0 <==> d[|d| - 1] == '0';
      var front := DigitsValue(d[..|d| - 1]);
      assert forall k :: 0 <= k < |d| - 1 ==> d[..|d| - 1][k] == d[k];
      front * 10 + last
  }

  predicate AllDigits(d: string) {
    |d| > 0 && forall k :: 0 <= k < |d| ==> IsDigit(d[k])
  }

  /** `int(s)` on a Python 2 `str` in base 10: surrounding whitespace, an optional sign and
      at least one decimal digit; anything else raises ValueError, modelled as None. */
  function PyInt(s: string): (r: Option<int>)
  {
    var t := Strip(s);
    if |t| > 0 && (t[0] == '-' || t[0] == '+') then
      if AllDigits(t[1..]) then
        var v: int := DigitsValue(t[1..]);
        Some(if t[0] == '-' then -v else v)
      else None
    else if AllDigits(t) then Some(DigitsValue(t))
    else None
  }

  lemma PyIntOfDigits(d: string)
    requires AllDigits(d)
    ensures PyInt(d) == Some(DigitsValue(d))
  {
    assert IsDigit(d[0]) && IsDigit(d[|d| - 1]);
    assert StripLeft(d) == d by { assert !IsSpace(d[0]); }
    assert StripRight(d) == d by { assert !IsSpace(d[|d| - 1]); }
    assert Strip(d) == d;
    assert d[0] != '-' && d[0] != '+';
  }

  predicate StartsWith(s: string, prefix: string) {
    |prefix| <= |s| && s[..|prefix|] == prefix
  }

  function LowerChar(c: char): char {
    if 'A' <= c <= 'Z' then (c as int + 32) as char else c
  }

  function UpperChar(c: char): char {
    if 'a' <= c <= 'z' then (c as int - 32) as char else c
  }

  /** `s.lower()` (ASCII, as for a Python 2 `str` in the C locale) */
  function Lower(s: string): (r: string)
    ensures |r| == |s| && forall k :: 0 <= k < |s| ==> r[k] == LowerChar(s[k])
  {
    if |s| == 0 then "" else [LowerChar(s[0])] + Lower(s[1..])
  }

  /** `s.upper()` (ASCII) */
  function Upper(s: string): (r: string)
    ensures |r| == |s| && forall k :: 0 <= k < |s| ==> r[k] == UpperChar(s[k])
  {
    if |s| == 0 then "" else [UpperChar(s[0])] + Upper(s[1..])
  }

  /** `s.capitalize()` (ASCII): the first character upper-cased and the rest lower-cased. */
  function Capitalize(s: string): (r: string)
    ensures |r| == |s|
    ensures |s| > 0 ==> r[0] == UpperChar(s[0]) && r[1..] == Lower(s[1..])
  {
    if s == "" then "" else [UpperChar(s[0])] + Lower(s[1..])
  }

  /** Python's ordering of `str` values: lexicographic by character code. */
  predicate StrLess(a: string, b: string)
    decreases |a|
  {
    |b| > 0 && (|a| == 0 || a[0] < b[0] || (a[0] == b[0] && StrLess(a[1..], b[1..])))
  }

  predicate StrLessEq(a: string, b: string) {
    a == b || StrLess(a, b)
  }

  lemma {:induction false} StrLessTotal(a: string, b: string)
    ensures a == b || StrLess(a, b) || StrLess(b, a)
    decreases |a|
  {
    if |a| > 0 && |b| > 0 && a[0] == b[0] {
      StrLessTotal(a[1..], b[1..]);
      if a[1..] == b[1..] {
        assert a == [a[0]] + a[1..] && b == [b[0]] + b[1..];
      }
    }
  }

  lemma {:induction false} StrLessTransitive(a: string, b: string, c: string)
    requires StrLess(a, b) && StrLess(b, c)
    ensures StrLess(a, c)
    decreases |a|
  {
    if |a| > 0 && a[0] == b[0] && b[0] == c[0] {
      StrLessTransitive(a[1..], b[1..], c[1..]);
    }
  }

  lemma {:induction false} StrLessIrreflexive(a: string)
    ensures !StrLess(a, a)
    decreases |a|
  {
    if |a| > 0 {
      StrLessIrreflexive(a[1..]);
    }
  }
}
