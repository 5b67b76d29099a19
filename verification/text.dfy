/**
 * The few string operations the handlers rely on: `str(n)` for a line count, and `str.splitlines`
 * restricted to '\n' line breaks, together with the inverse of each.
 */
module Text {
  import opened Options

  predicate HasPrefix(s: string, p: string) {
    |p| <= |s| && s[..|p|] == p
  }

  /** `c * n` in Python, for a one-character string c. */
  function Repeat(c: char, n: nat): (r: string)
    ensures |r| == n
    ensures forall i :: 0 <= i < n ==> r[i] == c
  {
    seq(n, i => c)
  }

  predicate IsDigit(c: char) {
    '0' <= c <= '9'
  }

  function DigitChar(d: nat): (c: char)
    requires d < 10
    ensures IsDigit(c) && c as int - '0' as int == d
  {
    ('0' as int + d) as char
  }

  /** `str(n)` for a natural number: its decimal digits, no leading zero. */
  function Decimal(n: nat): (r: string)
    ensures r != []
    ensures forall i :: 0 <= i < |r| ==> IsDigit(r[i])
    ensures r[0] == '0' <==> n == 0
  {
    if n < 10 then [DigitChar(n)] else Decimal(n / 10) + [DigitChar(n % 10)]
  }

  /** Reads a non-empty string of decimal digits back as a number. */
  function ParseDecimal(s: string): (r: Option<nat>)
    ensures r.Some? <==> s != [] && forall i :: 0 <= i < |s| ==> IsDigit(s[i])
    decreases |s|
  {
    if s == [] || !IsDigit(s[|s| - 1]) then None
    else
      var d := s[|s| - 1] as int - '0' as int;
      if |s| == 1 then Some(d)
      else match ParseDecimal(s[..|s| - 1])
        case None => None
        case Some(v) => Some(10 * v + d)
  }

  lemma {:induction false} DecimalRoundTrip(n: nat)
    ensures ParseDecimal(Decimal(n)) == Some(n)
  {
    if n >= 10 {
      var s := Decimal(n);
      assert s[..|s| - 1] == Decimal(n / 10);
      DecimalRoundTrip(n / 10);
    }
  }

  /** The index of the first '\n' in s, or |s| when there is none. */
  function LineEnd(s: string): (k: nat)
    ensures k <= |s|
    ensures forall i :: 0 <= i < k ==> s[i] != '\n'
    ensures k < |s| ==> s[k] == '\n'
  {
    if s == [] || s[0] == '\n' then 0 else 1 + LineEnd(s[1..])
  }

  /**
   * `s.splitlines()` where '\n' is the only line break: the pieces between
   * breaks, with no empty piece after a final '\n'.
   */
  function SplitLines(s: string): (r: seq<string>)
    ensures forall i :: 0 <= i < |r| ==> '\n' !in r[i]
    ensures s == [] <==> r == []
    decreases |s|
  {
    if s == [] then []
    else
      var k := LineEnd(s);
      if k == |s| then [s] else [s[..k]] + SplitLines(s[k + 1..])
  }

  /** Writing each line followed by '\n', one after the other. */
  function JoinLines(ls: seq<string>): (r: string)
    ensures ls != [] ==> r != [] && r[|r| - 1] == '\n'
  {
    if ls == [] then "" else ls[0] + "\n" + JoinLines(ls[1..])
  }

  lemma {:induction false} JoinLinesAppend(a: seq<string>, b: seq<string>)
    ensures JoinLines(a + b) == JoinLines(a) + JoinLines(b)
  {
    if a != [] {
      assert (a + b)[0] == a[0];
      assert (a + b)[1..] == a[1..] + b;
      JoinLinesAppend(a[1..], b);
    } else {
      assert a + b == b;
    }
  }

  lemma JoinLinesSnoc(ls: seq<string>, line: string)
    ensures JoinLines(ls + [line]) == JoinLines(ls) + line + "\n"
  {
    JoinLinesAppend(ls, [line]);
    assert JoinLines([line]) == line + "\n" + JoinLines([]);
  }

  /** Lines without breaks survive being written out and split again. */
  lemma {:induction false} SplitJoin(ls: seq<string>)
    requires forall i :: 0 <= i < |ls| ==> '\n' !in ls[i]
    ensures SplitLines(JoinLines(ls)) == ls
  {
    if ls != [] {
      var rest := JoinLines(ls[1..]);
      var s := ls[0] + "\n" + rest;
      assert JoinLines(ls) == s;
      var k := LineEnd(s);
      var n := |ls[0]|;
      assert s[n] == '\n';
      assert k == n;
      assert s[..k] == ls[0];
      assert s[k + 1..] == rest;
      SplitJoin(ls[1..]);
    }
  }

  /** The text ends a line: it is empty or its last character is '\n'. */
  predicate EndsLine(s: string) {
    s == [] || s[|s| - 1] == '\n'
  }

  /** Splitting then writing out restores the text, plus a final '\n' if it lacked one. */
  lemma {:induction false} JoinSplit(s: string)
    ensures JoinLines(SplitLines(s)) == if EndsLine(s) then s else s + "\n"
    decreases |s|
  {
    if s != [] {
      var k := LineEnd(s);
      if k == |s| {
        assert SplitLines(s) == [s];
        assert JoinLines([s]) == s + "\n" + JoinLines([]);
      } else {
        JoinSplitStep(s, k);
      }
    }
  }

  lemma {:induction false} JoinSplitStep(s: string, k: nat)
    requires k < |s| && k == LineEnd(s)
    ensures JoinLines(SplitLines(s)) == if EndsLine(s) then s else s + "\n"
    decreases |s|, 0
  {
    var head, t := s[..k], s[k + 1..];
    assert SplitLines(s) == [head] + SplitLines(t);
    JoinLineHead(head, SplitLines(t));
    JoinSplit(t);
    BreakAt(s, k);
    if t == [] {
      assert JoinLines(SplitLines(t)) == [];
      assert EndsLine(s);
    } else {
      LastOfTail(s, k);
    }
  }

  lemma JoinLineHead(head: string, rest: seq<string>)
    ensures JoinLines([head] + rest) == head + "\n" + JoinLines(rest)
  {
    assert ([head] + rest)[1..] == rest;
  }

  /** A text is the piece before a '\n', the '\n' and the piece after it. */
  lemma BreakAt(s: string, k: nat)
    requires k < |s| && s[k] == '\n'
    ensures s == s[..k] + "\n" + s[k + 1..]
  {
  }

  lemma LastOfTail(s: string, k: nat)
    requires k + 1 < |s| && s[k] == '\n'
    ensures EndsLine(s[k + 1..]) == EndsLine(s)
    ensures s[..k] + "\n" + (s[k + 1..] + "\n") == s + "\n"
  {
    assert s[k + 1..][|s[k + 1..]| - 1] == s[|s| - 1];
    BreakAt(s, k);
  }
}
