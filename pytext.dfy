/** Python value semantics shared by the scripts: optional values, raised
    exceptions, truthiness, `os.getenv`, `str(int)`, `str.join` and the two
    `str.split` idioms the scripts use. */
module PyText {

  datatype Option<T> = None | Some(value: T)

  /** The result of a call that either returns a value or raises an exception
      (the exception is represented by its `str(e)` text). */
  datatype Outcome<T> = Returned(value: T) | Raised(message: string)

  /** Process environment: variable name to value. */
  type Environment = map<string, string>

  /** `os.getenv(name)`: None when the variable is not set. The result is
      truthy exactly when the variable is set to a non-empty value. */
  function Getenv(env: Environment, name: string): (r: Option<string>)
    ensures Truthy(r) <==> name in env && env[name] != ""
    ensures Truthy(r) ==> r.value == env[name]
  {
    if name in env then Some(env[name]) else None
  }

  /** Python truthiness of an optional string: None and "" are false. */
  predicate Truthy(s: Option<string>)
  {
    s.Some? && s.value != ""
  }

  /** `str(x)` of an optional string: None prints as "None". */
  function OptionText(s: Option<string>): string
  {
    match s
    case None => "None"
    case Some(v) => v
  }

  // ---------------------------------------------------------------------
  // Decimal rendering, `str(n)` for a natural number
  // ---------------------------------------------------------------------

  function DigitChar(d: nat): (c: char)
    requires d < 10
    ensures '0' <= c <= '9' && c as int - '0' as int == d
  {
    (d + '0' as int) as char
  }

  predicate IsDigits(s: string)
  {
    forall i :: 0 <= i < |s| ==> '0' <= s[i] <= '9'
  }

  /** The value of a string of decimal digits (the reading of `str(n)`). */
  function DecimalValue(s: string): nat
    requires IsDigits(s)
  {
    if s == [] then 0 else DecimalValue(s[..|s| - 1]) * 10 + (s[|s| - 1] as int - '0' as int)
  }

  /** `str(n)` for n >= 0: the shortest decimal spelling. */
  function NatText(n: nat): (r: string)
    ensures |r| >= 1 && IsDigits(r)
    ensures |r| > 1 ==> r[0] != '0'
  {
    if n < 10 then [DigitChar(n)] else NatText(n / 10) + [DigitChar(n % 10)]
  }

  /** Reading back the decimal text of n gives n. */
  lemma {:induction false} NatTextRoundTrip(n: nat)
    ensures DecimalValue(NatText(n)) == n
  {
    if n >= 10 {
      var r := NatText(n);
      assert r[..|r| - 1] == NatText(n / 10);
      NatTextRoundTrip(n / 10);
    }
  }

  /** Distinct numbers have distinct decimal texts. */
  lemma NatTextInjective(m: nat, n: nat)
    requires NatText(m) == NatText(n)
    ensures m == n
  {
    NatTextRoundTrip(m);
    NatTextRoundTrip(n);
  }

  // ---------------------------------------------------------------------
  // Sequences of strings
  // ---------------------------------------------------------------------

  /** `sep.join(xs)`. */
  function Join(sep: string, xs: seq<string>): string
  {
    if |xs| == 0 then "" else if |xs| == 1 then xs[0] else xs[0] + sep + Join(sep, xs[1..])
  }

  /** `''.join(xs)`. */
  function Concat(xs: seq<string>): string
  {
    if xs == [] then "" else xs[0] + Concat(xs[1..])
  }

  lemma {:induction false} ConcatAppend(xs: seq<string>, ys: seq<string>)
    ensures Concat(xs + ys) == Concat(xs) + Concat(ys)
  {
    if xs == [] {
      assert xs + ys == ys;
    } else {
      assert (xs + ys)[1..] == xs[1..] + ys;
      ConcatAppend(xs[1..], ys);
    }
  }

  /** Joining three or four pieces is appending them. */
  lemma {:induction false} ConcatOfThree(xs: seq<string>)
    requires |xs| == 3
    ensures Concat(xs) == xs[0] + xs[1] + xs[2]
  {
    var t1, t2 := xs[1..], xs[1..][1..];
    assert t2[1..] == [];
    assert Concat(t2) == t2[0];
    assert Concat(xs) == xs[0] + (xs[1] + xs[2]);
  }

  lemma {:induction false} ConcatOfFour(xs: seq<string>)
    requires |xs| == 4
    ensures Concat(xs) == xs[0] + xs[1] + xs[2] + xs[3]
  {
    var t := xs[1..];
    ConcatOfThree(t);
    assert Concat(xs) == xs[0] + (xs[1] + xs[2] + xs[3]);
  }

  /** `[x] * n`. */
  function Repeat<T>(x: T, n: nat): (r: seq<T>)
    ensures |r| == n && forall i :: 0 <= i < n ==> r[i] == x
  {
    if n == 0 then [] else [x] + Repeat(x, n - 1)
  }

  /** `xs` is obtained from `ys` by deleting elements (order kept). */
  predicate IsSubsequence<T(==)>(xs: seq<T>, ys: seq<T>)
  {
    if xs == [] then true
    else if ys == [] then false
    else if xs[0] == ys[0] then IsSubsequence(xs[1..], ys[1..])
    else IsSubsequence(xs, ys[1..])
  }

  /** The elements of `names` that `keep` accepts, in their order: the
      list comprehension `[n for n in names if keep(n)]`. */
  function Filter(names: seq<string>, keep: string -> bool): seq<string>
  {
    if names == [] then []
    else if keep(names[0]) then [names[0]] + Filter(names[1..], keep)
    else Filter(names[1..], keep)
  }

  /** The filter keeps exactly the accepted names, in their original order. */
  lemma {:induction false} FilterMeaning(names: seq<string>, keep: string -> bool)
    ensures IsSubsequence(Filter(names, keep), names)
    ensures forall n :: n in Filter(names, keep) <==> n in names && keep(n)
  {
    if names != [] {
      FilterMeaning(names[1..], keep);
    }
  }

  /** Filtering a list of four names, one name at a time. */
  lemma {:induction false} FilterOfFour(a: string, b: string, c: string, d: string, keep: string -> bool)
    ensures Filter([a, b, c, d], keep) ==
              (if keep(a) then [a] else []) + (if keep(b) then [b] else []) +
              (if keep(c) then [c] else []) + (if keep(d) then [d] else [])
  {
    assert [a, b, c, d][1..] == [b, c, d] && [b, c, d][1..] == [c, d] && [c, d][1..] == [d] && [d][1..] == [];
    var ka, kb, kc, kd := (if keep(a) then [a] else []), (if keep(b) then [b] else []),
                          (if keep(c) then [c] else []), (if keep(d) then [d] else []);
    assert Filter([], keep) == [];
    assert Filter([d], keep) == kd;
    assert Filter([c, d], keep) == kc + kd;
    assert Filter([b, c, d], keep) == kb + (kc + kd);
    assert Filter([a, b, c, d], keep) == ka + (kb + (kc + kd));
    AppendAssociates(ka, kb, kc, kd);
  }

  lemma AppendAssociates<T>(p: seq<T>, q: seq<T>, r: seq<T>, s: seq<T>)
    ensures p + (q + (r + s)) == p + q + r + s
  {
    assert q + (r + s) == q + r + s;
    assert p + (q + r + s) == p + (q + r) + s;
  }

  // ---------------------------------------------------------------------
  // Splitting
  // ---------------------------------------------------------------------

  /** Index of the first occurrence of `c` in `s`, or |s| when there is none. */
  function IndexOf(s: string, c: char): (i: nat)
    ensures i <= |s|
    ensures c !in s[..i]
    ensures i < |s| ==> s[i] == c
  {
    if s == [] then 0
    else if s[0] == c then 0
    else
      var j := IndexOf(s[1..], c);
      assert s[..j + 1] == [s[0]] + s[1..][..j];
      j + 1
  }

  /** `s.split(c)[-1]`: the text after the last `c`, all of `s` when it has none. */
  function LastField(s: string, c: char): (r: string)
    ensures |r| <= |s| && r == s[|s| - |r|..]
    ensures c !in r
    ensures |r| < |s| ==> s[|s| - |r| - 1] == c
  {
    if s == [] then ""
    else if s[|s| - 1] == c then ""
    else
      var r' := LastField(s[..|s| - 1], c);
      r' + [s[|s| - 1]]
  }
}
