/** The slice of JavaScript value semantics the dashboard relies on: numbers
    that may be absent or null, the falsy (`||`) and nullish (`??`) fallbacks,
    `Math.round`, `Array.prototype.filter` / `find` / `join`, and number
    formatting (kept abstract). */
module JsValues {

  datatype Option<+T> = None | Some(value: T)

  /** A JavaScript number as a JSON payload delivers it: a missing property
      (`undefined`), an explicit `null`, or a finite number. */
  datatype JsNum = Undefined | Null | Num(v: real)
  {
    /** `x == null` in JavaScript: the values `??` replaces. */
    predicate IsNullish() { !Num? }

    /** The values `||` replaces: `undefined`, `null` and `0`. */
    predicate IsFalsy() { !Num? || v == 0.0 }

    /** `x || d` on a numeric operand. */
    function Or(d: real): real { if IsFalsy() then d else v }

    /** `x ?? y`. */
    function Coalesce(y: JsNum): JsNum { if IsNullish() then y else this }

    /** The number an arithmetic operator sees: `null` converts to 0. */
    function ToReal(): real
      requires !Undefined?
    { if Null? then 0.0 else v }
  }

  /** A string operand is truthy when it is present and non-empty. */
  predicate TruthyString(s: Option<string>) { s.Some? && s.value != "" }

  /** `Math.round`: the nearest integer, halves rounded towards +infinity. */
  function Round(x: real): int { (x + 0.5).Floor }

  /** `Math.round(x * 10) / 10`: rounding to one decimal place. */
  function Round1(x: real): real { (Round(x * 10.0) as real) / 10.0 }

  function Min(a: int, b: int): int { if a <= b then a else b }
  function MaxReal(a: real, b: real): real { if a >= b then a else b }
  function MinReal(a: real, b: real): real { if a <= b then a else b }

  lemma RoundBounds(x: real)
    ensures x - 0.5 < Round(x) as real <= x + 0.5
  {
  }

  lemma RoundMonotonic(x: real, y: real)
    requires x <= y
    ensures Round(x) <= Round(y)
  {
  }

  /** `Math.round` of an integer is that integer. */
  lemma RoundOfInt(n: int)
    ensures Round(n as real) == n
  {
  }

  /** A value of `Round1` has at most one decimal and lies within 0.05 of its argument. */
  lemma Round1Bounds(x: real)
    ensures Round1(x) * 10.0 == Round(x * 10.0) as real
    ensures x - 0.05 < Round1(x) <= x + 0.05
  {
    RoundBounds(x * 10.0);
  }

  lemma Round1Monotonic(x: real, y: real)
    requires x <= y
    ensures Round1(x) <= Round1(y)
  {
    RoundMonotonic(x * 10.0, y * 10.0);
  }

  /** `Round1` leaves a value that already has one decimal unchanged. */
  lemma Round1OfTenths(n: int)
    ensures Round1(n as real / 10.0) == n as real / 10.0
  {
    assert (n as real / 10.0) * 10.0 == n as real;
    RoundOfInt(n);
  }

  /** How a number is written into text: a template literal (`${x}`) or
      `x.toFixed(places)`. */
  datatype Digits = Plain | Fixed(places: nat)

  /** The JavaScript engine's number-to-string conversion, which the model
      leaves abstract. */
  type Formatter = (real, Digits) -> string

  /** `Array.prototype.filter`. */
  function Filter<T(!new)>(s: seq<T>, p: T -> bool): (r: seq<T>)
    ensures |r| <= |s|
    ensures forall x :: x in r <==> x in s && p(x)
    ensures forall x :: multiset(r)[x] == if p(x) then multiset(s)[x] else 0
  {
    if |s| == 0 then []
    else
      assert s == [s[0]] + s[1..];
      if p(s[0]) then [s[0]] + Filter(s[1..], p)
      else Filter(s[1..], p)
  }

  /** Filtering distributes over concatenation. */
  lemma {:induction false} FilterConcat<T(!new)>(s: seq<T>, t: seq<T>, p: T -> bool)
    ensures Filter(s + t, p) == Filter(s, p) + Filter(t, p)
  {
    if |s| == 0 {
      assert s + t == t;
    } else {
      assert (s + t)[0] == s[0];
      assert (s + t)[1..] == s[1..] + t;
      FilterConcat(s[1..], t, p);
    }
  }

  /** `Array.prototype.findIndex`: the first position whose element satisfies `p`. */
  function FindIndex<T>(s: seq<T>, p: T -> bool): (r: Option<nat>)
    ensures r.Some? ==> r.value < |s| && p(s[r.value])
    ensures r.Some? ==> forall j :: 0 <= j < r.value ==> !p(s[j])
    ensures r.None? <==> forall j :: 0 <= j < |s| ==> !p(s[j])
  {
    if |s| == 0 then None
    else if p(s[0]) then Some(0)
    else match FindIndex(s[1..], p)
      case None => None
      case Some(k) => Some(k + 1)
  }

  /** `Array.prototype.find`. */
  function Find<T(!new)>(s: seq<T>, p: T -> bool): (r: Option<T>)
    ensures r.Some? ==> r.value in s && p(r.value)
    ensures r.Some? ==> exists k :: 0 <= k < |s| && s[k] == r.value && forall j :: 0 <= j < k ==> !p(s[j])
    ensures r.None? <==> forall x :: x in s ==> !p(x)
  {
    match FindIndex(s, p)
    case None => None
    case Some(k) => Some(s[k])
  }

  /** `find` looks at the head first, then at the rest. */
  lemma FindStep<T(!new)>(s: seq<T>, q: T -> bool)
    requires |s| > 0
    ensures Find(s, q) == if q(s[0]) then Some(s[0]) else Find(s[1..], q)
  {
    if !q(s[0]) {
      match FindIndex(s[1..], q)
      case None =>
      case Some(k) => assert s[k + 1] == s[1..][k];
    }
  }

  /** One step of `s.filter(p).find(q)`. */
  lemma FindAfterFilterStep<T(!new)>(s: seq<T>, p: T -> bool, q: T -> bool)
    requires |s| > 0
    ensures Find(Filter(s, p), q) == if p(s[0]) && q(s[0]) then Some(s[0]) else Find(Filter(s[1..], p), q)
  {
    if p(s[0]) {
      var f := Filter(s, p);
      assert f[0] == s[0] && f[1..] == Filter(s[1..], p);
      FindStep(f, q);
    }
  }

  /** `s.filter(p).find(q)` finds nothing exactly when no element of `s`
      satisfies both. */
  lemma FindAfterFilterNone<T(!new)>(s: seq<T>, p: T -> bool, q: T -> bool)
    ensures Find(Filter(s, p), q).None? <==> forall k :: 0 <= k < |s| ==> !(p(s[k]) && q(s[k]))
  {
    if Find(Filter(s, p), q).Some? {
      var x := Find(Filter(s, p), q).value;
      var k :| 0 <= k < |s| && s[k] == x;
    } else {
      forall k | 0 <= k < |s|
        ensures !(p(s[k]) && q(s[k]))
      {
        assert s[k] in s;
      }
    }
  }

  /** `s.filter(p).find(q)` finds what `s.find` finds with both tests at once. */
  lemma {:induction false} FindAfterFilterFind<T(!new)>(s: seq<T>, p: T -> bool, q: T -> bool, both: T -> bool)
    requires forall x :: both(x) == (p(x) && q(x))
    ensures Find(Filter(s, p), q) == Find(s, both)
  {
    if |s| > 0 {
      FindAfterFilterFind(s[1..], p, q, both);
      FindAfterFilterStep(s, p, q);
      FindStep(s, both);
    }
  }

  /** `s.filter(p).find(q)` is the first element of `s` satisfying both, and
      there is none when no element does. */
  lemma FindAfterFilter<T(!new)>(s: seq<T>, p: T -> bool, q: T -> bool)
    ensures Find(Filter(s, p), q).None? <==> forall k :: 0 <= k < |s| ==> !(p(s[k]) && q(s[k]))
    ensures Find(Filter(s, p), q).Some? ==>
      exists k :: 0 <= k < |s| && s[k] == Find(Filter(s, p), q).value && p(s[k]) && q(s[k])
        && forall j :: 0 <= j < k ==> !(p(s[j]) && q(s[j]))
  {
    FindAfterFilterNone(s, p, q);
    var both := (x: T) => p(x) && q(x);
    FindAfterFilterFind(s, p, q, both);
  }

  /** `lines.join(sep)`. */
  function Join(lines: seq<string>, sep: string): (r: string)
    ensures |lines| > 0 ==> lines[0] <= r
    ensures |lines| == 1 ==> r == lines[0]
  {
    if |lines| == 0 then ""
    else if |lines| == 1 then lines[0]
    else lines[0] + sep + Join(lines[1..], sep)
  }
}
