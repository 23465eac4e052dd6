/** Small shared vocabulary: optional values, outcomes of calls that can throw,
    JavaScript's `String.prototype.includes`, and JavaScript numbers. */
module Common {

  datatype Option<T> = None | Some(value: T)

  /** The outcome of a call that either returns a value or throws. */
  datatype Result<T, E> = Ok(value: T) | Err(error: E)

  /** `s.includes(part)`: `part` occurs somewhere in `s` as a contiguous block. */
  predicate Contains(s: string, part: string)
    decreases |s|
  {
    part <= s || (s != [] && Contains(s[1..], part))
  }

  /** Every string contains the empty string, as in JavaScript. */
  lemma {:induction false} ContainsEmpty(s: string)
    ensures Contains(s, "")
  {
  }

  /** A string contains itself with any text around it. */
  lemma {:induction false} ContainsInMiddle(pre: string, part: string, post: string)
    ensures Contains(pre + part + post, part)
    decreases |pre|
  {
    var s := pre + part + post;
    if pre == [] {
      assert s == part + post;
      assert part <= s;
    } else {
      assert s[1..] == pre[1..] + part + post;
      ContainsInMiddle(pre[1..], part, post);
    }
  }

  /** A part longer than the string cannot occur in it. */
  lemma {:induction false} ContainsNeedsRoom(s: string, part: string)
    requires Contains(s, part)
    ensures |part| <= |s|
    decreases |s|
  {
    if !(part <= s) {
      ContainsNeedsRoom(s[1..], part);
    }
  }

  /** Whatever contains a string also contains each of its prefixes. */
  lemma {:induction false} ContainsPrefixOf(s: string, part: string, longer: string)
    requires part <= longer
    requires Contains(s, longer)
    ensures Contains(s, part)
    decreases |s|
  {
    if longer <= s {
      assert part == s[..|part|];
    } else {
      ContainsPrefixOf(s[1..], part, longer);
    }
  }

  /** The values of the outcomes that succeed, in order; a failed outcome
      contributes nothing. */
  function Successes<P, F(!new), E>(ps: seq<P>, outcome: P -> Result<F, E>): (r: seq<F>)
    ensures |r| <= |ps|
    ensures forall f :: f in r <==> exists i :: 0 <= i < |ps| && outcome(ps[i]) == Ok(f)
  {
    if ps == [] then []
    else
      var init := ps[..|ps| - 1];
      assert forall i :: 0 <= i < |init| ==> ps[i] == init[i];
      var last := outcome(ps[|ps| - 1]);
      Successes(init, outcome) + (if last.Ok? then [last.value] else [])
  }

  /** Appending one element appends its value exactly when its outcome succeeds. */
  lemma SuccessesSnoc<P, F(!new), E>(ps: seq<P>, p: P, outcome: P -> Result<F, E>)
    ensures Successes(ps + [p], outcome)
            == Successes(ps, outcome) + (if outcome(p).Ok? then [outcome(p).value] else [])
  {
    assert (ps + [p])[..|ps + [p]| - 1] == ps;
  }

  /** When every outcome succeeds, every element contributes a value. */
  lemma {:induction false} SuccessesAllOk<P, F(!new), E>(ps: seq<P>, outcome: P -> Result<F, E>)
    requires forall i :: 0 <= i < |ps| ==> outcome(ps[i]).Ok?
    ensures |Successes(ps, outcome)| == |ps|
  {
    if ps != [] {
      var init := ps[..|ps| - 1];
      assert forall i :: 0 <= i < |init| ==> init[i] == ps[i];
      SuccessesAllOk(init, outcome);
    }
  }

  /** A JavaScript optional string is truthy when present and non-empty. */
  predicate Truthy(s: Option<string>)
  {
    s.Some? && s.value != ""
  }

  /** A JavaScript number: a finite real, one of the infinities, or NaN. */
  datatype Number = Finite(v: real) | PosInf | NegInf | NaN
  {
    /** `x > c` for a finite constant `c`; every comparison with NaN is false. */
    predicate Gt(c: real)
    {
      match this
      case Finite(v) => v > c
      case PosInf => true
      case NegInf => false
      case NaN => false
    }

    /** `x < c` for a finite constant `c`. */
    predicate Lt(c: real)
    {
      match this
      case Finite(v) => v < c
      case PosInf => false
      case NegInf => true
      case NaN => false
    }

    /** `x <= c` for a finite constant `c`. */
    predicate Le(c: real)
    {
      Lt(c) || this == Finite(c)
    }

    /** `Number.isFinite(x)` */
    predicate IsFinite()
    {
      Finite?
    }
  }
}
