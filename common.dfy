/**
 * Shared value types: optional values, results, and the failures the
 * service's handlers raise (HTTP errors, runtime errors, validation errors of
 * the record types, and exceptions that come from an outside service).
 */
module Common {

  datatype Option<+T> = None | Some(value: T)
  {
    /** `x or default` on an optional value. */
    function GetOr(default: T): T
    {
      match this
      case Some(v) => v
      case None => default
    }
  }

  /** An optional string that is present and not empty (truthy). */
  predicate IsSet(o: Option<string>)
  {
    o.Some? && o.value != ""
  }

  /** How `None` prints inside an f-string. */
  function Show(o: Option<string>): string
  {
    match o
    case Some(s) => s
    case None => "None"
  }

  /** An exception the code raises, by kind. */
  datatype Error =
    | HttpError(status: int, detail: string)    // an HTTP error answered to the client
    | RuntimeError(message: string)
    | NotImplementedError
    | ValidationError(field: string)            // a record built with a missing required field
    | ExternalError(message: string)            // anything an outside service raised

  datatype Result<+T> = Ok(value: T) | Err(error: Error)

  /** True when every result in `rs` succeeded. */
  predicate AllOk<T>(rs: seq<Result<T>>)
  {
    forall i :: 0 <= i < |rs| ==> rs[i].Ok?
  }

  /** The index of the first element of `s` satisfying `p`, or `|s|` when there is none:
      the first-match search with early return. */
  function FirstWhere<T>(s: seq<T>, p: T -> bool): (i: nat)
    ensures i <= |s|
    ensures forall k :: 0 <= k < i ==> !p(s[k])
    ensures i < |s| ==> p(s[i])
  {
    if s == [] || p(s[0]) then 0 else 1 + FirstWhere(s[1..], p)
  }

  /** The first element satisfying `p` is the one the search stops at. */
  lemma FirstWhereIs<T>(s: seq<T>, p: T -> bool, i: int)
    requires 0 <= i < |s| && p(s[i])
    requires forall k :: 0 <= k < i ==> !p(s[k])
    ensures FirstWhere(s, p) == i
  {
  }

  /** The values of a sequence of successful results, in order. */
  function Values<T>(rs: seq<Result<T>>): (vs: seq<T>)
    requires AllOk(rs)
    ensures |vs| == |rs|
    ensures forall i :: 0 <= i < |rs| ==> vs[i] == rs[i].value
  {
    if rs == [] then [] else [rs[0].value] + Values(rs[1..])
  }

  /** `f` applied to each element in order, stopping at the first `Err`: the loop that
      collects results and lets the first exception propagate. */
  function MapUntilErr<A, B>(xs: seq<A>, f: A -> Result<B>): Result<seq<B>>
  {
    if xs == [] then Ok([])
    else match MapUntilErr(xs[..|xs| - 1], f)
      case Err(e) => Err(e)
      case Ok(ys) =>
        match f(xs[|xs| - 1])
        case Err(e) => Err(e)
        case Ok(y) => Ok(ys + [y])
  }

  /** One more element: its value is appended, or its error ends the list. */
  lemma MapUntilErrStep<A, B>(xs: seq<A>, i: int, f: A -> Result<B>)
    requires 0 <= i < |xs|
    ensures MapUntilErr(xs[..i + 1], f) ==
      match MapUntilErr(xs[..i], f)
      case Err(e) => Err(e)
      case Ok(ys) =>
        match f(xs[i])
        case Err(e) => Err(e)
        case Ok(y) => Ok(ys + [y])
  {
    assert xs[..i + 1][..i] == xs[..i];
    assert xs[..i + 1][i] == xs[i];
  }

  /** Once a prefix fails, the whole list fails with the same error. */
  lemma {:induction false} MapUntilErrSticks<A, B>(xs: seq<A>, m: nat, f: A -> Result<B>)
    requires m <= |xs| && MapUntilErr(xs[..m], f).Err?
    ensures MapUntilErr(xs, f) == MapUntilErr(xs[..m], f)
  {
    if m == |xs| {
      assert xs[..m] == xs;
    } else {
      var init := xs[..|xs| - 1];
      assert init[..m] == xs[..m];
      MapUntilErrSticks(init, m, f);
    }
  }

  /** The map succeeds exactly when `f` succeeds on every element, and then holds the
      values in order; otherwise its error is that of the first element that fails. */
  lemma {:induction false} MapUntilErrProperties<A, B>(xs: seq<A>, f: A -> Result<B>)
    ensures var r := MapUntilErr(xs, f);
      && (r.Ok? <==> forall i :: 0 <= i < |xs| ==> f(xs[i]).Ok?)
      && (r.Ok? ==> |r.value| == |xs| && forall i :: 0 <= i < |xs| ==> f(xs[i]) == Ok(r.value[i]))
      && (r.Err? ==>
            exists i ::
              && 0 <= i < |xs|
              && f(xs[i]) == Err(r.error)
              && forall j :: 0 <= j < i ==> f(xs[j]).Ok?)
  {
    if xs != [] {
      var n := |xs| - 1;
      var init := xs[..n];
      MapUntilErrProperties(init, f);
      assert forall j :: 0 <= j < n ==> init[j] == xs[j];
      var r0 := MapUntilErr(init, f);
      if r0.Err? {
        var i :| 0 <= i < n && f(init[i]) == Err(r0.error) && forall j :: 0 <= j < i ==> f(init[j]).Ok?;
        assert f(xs[i]) == Err(r0.error);
      }
    }
  }
}
