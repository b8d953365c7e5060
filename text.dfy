/**
 * The handful of Python `str` operations the collectors rely on, stated over `seq<char>`:
 * `replace` of one character, `split` on one character, `"sep".join`, `int()` and `str()` of an
 * integer, `rfind`, and the line iteration a file object performs.
 */
module Text {
  import opened Outcomes

  predicate IsDigit(c: char) { '0' <= c <= '9' }

  /** `s.replace(a, b)` for one-character `a` and `b`. */
  function ReplaceChar(s: string, a: char, b: char): (r: string)
    ensures |r| == |s|
    ensures forall i :: 0 <= i < |s| ==> r[i] == (if s[i] == a then b else s[i])
  {
    if s == [] then [] else [if s[0] == a then b else s[0]] + ReplaceChar(s[1..], a, b)
  }

  /** `s.replace(c, "")`: every occurrence of `c` dropped, everything else kept in order. */
  function RemoveChar(s: string, c: char): (r: string)
    ensures c !in r
    ensures |r| <= |s|
  {
    if s == [] then [] else (if s[0] == c then [] else [s[0]]) + RemoveChar(s[1..], c)
  }

  /** Removing `c` keeps exactly the other characters. */
  lemma {:induction false} RemoveCharMembers(s: string, c: char)
    ensures forall x :: x in RemoveChar(s, c) <==> x in s && x != c
  {
    if s != [] {
      RemoveCharMembers(s[1..], c);
      assert forall x :: x in s <==> x == s[0] || x in s[1..];
    }
  }

  lemma {:induction false} RemoveCharAppend(a: string, b: string, c: char)
    ensures RemoveChar(a + b, c) == RemoveChar(a, c) + RemoveChar(b, c)
  {
    if a == [] {
      assert a + b == b;
    } else {
      var tail := a[1..];
      assert a == [a[0]] + tail;
      assert a + b == [a[0]] + (tail + b);
      RemoveCharAppend(tail, b, c);
    }
  }

  lemma {:induction false} RemoveCharAbsent(s: string, c: char)
    requires c !in s
    ensures RemoveChar(s, c) == s
  {
    if s != [] {
      RemoveCharAbsent(s[1..], c);
    }
  }

  lemma {:induction false} ReplaceCharAppend(a: string, b: string, x: char, y: char)
    ensures ReplaceChar(a + b, x, y) == ReplaceChar(a, x, y) + ReplaceChar(b, x, y)
  {
    var l, r := ReplaceChar(a + b, x, y), ReplaceChar(a, x, y) + ReplaceChar(b, x, y);
    assert |l| == |r|;
    forall i | 0 <= i < |l| ensures l[i] == r[i] {
      if i < |a| { assert (a + b)[i] == a[i]; } else { assert (a + b)[i] == b[i - |a|]; }
    }
  }

  /** First position of `c` in `s` (Python's `s.index(c)`). */
  function IndexOf(s: string, c: char): (i: nat)
    requires c in s
    ensures i < |s| && s[i] == c && c !in s[..i]
  {
    if s[0] == c then 0 else 1 + IndexOf(s[1..], c)
  }

  /** `s.rfind(c)`: the last position of `c`, or -1 when `c` does not occur. */
  function RFind(s: string, c: char): (i: int)
    ensures -1 <= i < |s|
    ensures i == -1 <==> c !in s
    ensures i >= 0 ==> s[i] == c && c !in s[i + 1..]
  {
    if s == [] then -1
    else if s[|s| - 1] == c then |s| - 1
    else
      assert s == s[..|s| - 1] + [s[|s| - 1]];
      RFind(s[..|s| - 1], c)
  }

  /** `s.split(sep)` for a one-character separator: never empty, pieces free of `sep`. */
  function Split(s: string, sep: char): (r: seq<string>)
    ensures |r| >= 1
    ensures sep in s ==> |r| >= 2
    ensures forall i :: 0 <= i < |r| ==> sep !in r[i]
    decreases |s|
  {
    if sep !in s then [s]
    else
      var i := IndexOf(s, sep);
      [s[..i]] + Split(s[i + 1..], sep)
  }

  /** Splitting at the first separator: what precedes it is the first piece. */
  lemma SplitAtFirst(a: string, b: string, sep: char)
    requires sep !in a
    ensures Split(a + [sep] + b, sep) == [a] + Split(b, sep)
  {
    var s := a + [sep] + b;
    var i := IndexOf(s, sep);
    assert s[|a|] == sep;
    assert forall j :: 0 <= j < |a| ==> s[j] == a[j];
    assert s[..i] == a && s[i + 1..] == b;
  }

  /** `sep.join(parts)`. */
  function Join(parts: seq<string>, sep: string): string
  {
    if parts == [] then ""
    else if |parts| == 1 then parts[0]
    else parts[0] + sep + Join(parts[1..], sep)
  }

  /** Splitting and joining back with the same separator gives the original string. */
  lemma {:induction false} JoinSplit(s: string, sep: char)
    ensures Join(Split(s, sep), [sep]) == s
    decreases |s|
  {
    if sep in s {
      var i := IndexOf(s, sep);
      var tail := s[i + 1..];
      var rest := Split(tail, sep);
      var parts := Split(s, sep);
      assert parts == [s[..i]] + rest;
      assert parts[0] == s[..i] && parts[1..] == rest && |parts| > 1;
      JoinSplit(tail, sep);
      assert Join(parts, [sep]) == s[..i] + [sep] + tail;
      assert s == s[..i] + [sep] + tail;
    }
  }

  /** The value of a non-empty run of decimal digits. */
  function DigitsValue(s: string): nat
    requires forall i :: 0 <= i < |s| ==> IsDigit(s[i])
  {
    if s == [] then 0
    else
      assert IsDigit(s[|s| - 1]);
      DigitsValue(s[..|s| - 1]) * 10 + (s[|s| - 1] as int - '0' as int)
  }

  /** Python's `int(s)` on a string: an optional sign followed by at least one decimal digit. */
  function ParseInt(s: string): Option<int>
  {
    if |s| > 0 && (s[0] == '-' || s[0] == '+') then
      var d := s[1..];
      if |d| > 0 && forall i :: 0 <= i < |d| ==> IsDigit(d[i]) then
        var v: int := DigitsValue(d);
        Some(if s[0] == '-' then -v else v)
      else None
    else if |s| > 0 && forall i :: 0 <= i < |s| ==> IsDigit(s[i]) then Some(DigitsValue(s))
    else None
  }

  function DigitChar(d: nat): (c: char)
    requires d < 10
    ensures IsDigit(c) && c as int - '0' as int == d
  {
    ('0' as int + d) as char
  }

  /** Python's `str(n)` for a natural number: no sign, no leading zero. */
  function NatToString(n: nat): (s: string)
    ensures |s| > 0 && forall i :: 0 <= i < |s| ==> IsDigit(s[i])
  {
    if n < 10 then [DigitChar(n)] else NatToString(n / 10) + [DigitChar(n % 10)]
  }

  /** Python's `str(n)` for an integer. */
  function IntToString(n: int): string
  {
    if n < 0 then "-" + NatToString(-n) else NatToString(n)
  }

  lemma {:induction false} DigitsValueOfNatToString(n: nat)
    ensures DigitsValue(NatToString(n)) == n
  {
    var s := NatToString(n);
    if n >= 10 {
      DigitsValueOfNatToString(n / 10);
      assert s[..|s| - 1] == NatToString(n / 10);
    }
  }

  /** `int(str(n)) == n`: printing an integer and parsing it back is the identity. */
  lemma ParseIntOfIntToString(n: int)
    ensures ParseInt(IntToString(n)) == Some(n)
  {
    var s := IntToString(n);
    if n < 0 {
      var d := NatToString(-n);
      assert s == "-" + d;
      assert s[0] == '-' && s[1..] == d;
      DigitsValueOfNatToString(-n);
      var v: int := DigitsValue(d);
      assert ParseInt(s) == Some(-v);
    } else {
      assert s == NatToString(n);
      assert IsDigit(s[0]);
      DigitsValueOfNatToString(n);
      assert ParseInt(s) == Some(DigitsValue(s));
    }
  }

  /** Concatenation of a sequence of strings. */
  function Flatten(ss: seq<string>): string
  {
    if ss == [] then "" else ss[0] + Flatten(ss[1..])
  }

  lemma {:induction false} FlattenAppend(a: seq<string>, b: seq<string>)
    ensures Flatten(a + b) == Flatten(a) + Flatten(b)
  {
    if a == [] {
      assert a + b == b;
    } else {
      assert (a + b)[1..] == a[1..] + b;
      FlattenAppend(a[1..], b);
    }
  }

  /** Length of the first line of `s`, its terminating newline included. */
  function FirstLineLength(s: string): (n: nat)
    requires s != []
    ensures 0 < n <= |s|
    ensures '\n' !in s[..n - 1]
    ensures n < |s| ==> s[n - 1] == '\n'
  {
    if s[0] == '\n' || |s| == 1 then 1
    else
      var n := 1 + FirstLineLength(s[1..]);
      assert s[..n - 1] == [s[0]] + s[1..][..n - 2];
      n
  }

  /**
   * The lines a Python file object yields when iterated from the current position to the end:
   * each line keeps its `\n`, and a last line without one is yielded too.
   */
  function Lines(s: string): (r: seq<string>)
    ensures forall i :: 0 <= i < |r| ==> r[i] != []
    decreases |s|
  {
    if s == [] then [] else
      var n := FirstLineLength(s);
      [s[..n]] + Lines(s[n..])
  }

  /** No byte is lost or duplicated by splitting into lines. */
  lemma {:induction false} FlattenLines(s: string)
    ensures Flatten(Lines(s)) == s
    decreases |s|
  {
    if s != [] {
      var n := FirstLineLength(s);
      FlattenLines(s[n..]);
      assert Lines(s)[1..] == Lines(s[n..]);
      assert s == s[..n] + s[n..];
    }
  }

  /** Every line but the last ends in a newline, and no line has a newline anywhere else. */
  lemma {:induction false} LinesShape(s: string)
    ensures forall i :: 0 <= i < |Lines(s)| ==> '\n' !in Lines(s)[i][..|Lines(s)[i]| - 1]
    ensures forall i :: 0 <= i < |Lines(s)| - 1 ==> Lines(s)[i][|Lines(s)[i]| - 1] == '\n'
    decreases |s|
  {
    if s != [] {
      var n := FirstLineLength(s);
      LinesShape(s[n..]);
      assert Lines(s)[1..] == Lines(s[n..]);
    }
  }
}
