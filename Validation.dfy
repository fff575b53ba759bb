/** The data-annotation checks `Validator.ValidateObject(..., true)` applies
    to a configuration object before it is serialized: `[Range]` and
    `[AllowedValues]` on each property, the first violated one reported as a
    `ValidationException`. */
module Validation {
  import opened Wrappers

  /** `[Range(lo, hi)]` on a nullable property: null passes, a present value
      must lie in the closed interval. Float bounds are compared as reals. */
  predicate RealInRange(x: Option<real>, lo: real, hi: real) {
    x.None? || (lo <= x.value && x.value <= hi)
  }

  predicate IntInRange(x: Option<int>, lo: int, hi: int) {
    x.None? || (lo <= x.value && x.value <= hi)
  }

  /** One property's annotation check, named by the C# property. */
  datatype Check = Check(property: string, passes: bool)

  predicate AllPass(checks: seq<Check>) {
    forall i :: 0 <= i < |checks| ==> checks[i].passes
  }

  /** The property reported by the `ValidationException`, or `None` when
      every check passes (nothing is thrown). The checks come in declaration
      order, and the reported property is the first whose check fails. */
  function FirstFailure(checks: seq<Check>): (r: Option<string>)
    ensures r.None? <==> AllPass(checks)
    ensures r.Some? ==> exists i :: 0 <= i < |checks| && !checks[i].passes && checks[i].property == r.value &&
                                    AllPass(checks[..i])
  {
    if checks == [] then None
    else if !checks[0].passes then Some(checks[0].property)
    else
      var r := FirstFailure(checks[1..]);
      assert forall i :: 1 <= i < |checks| ==> checks[i] == checks[1..][i - 1];
      r
  }
}
