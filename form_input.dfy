/**
 * Number inputs of the forms. `parseInt`/`parseFloat` are taken as already
 * applied: `None` stands for `NaN`. The forms then write `parsed || fallback`,
 * and since both `NaN` and `0` are falsy in JavaScript, both give the fallback.
 */
module FormInput {
  import opened Wrappers

  /** `parseInt(text) || fallback`. */
  function IntOr(parsed: Option<int>, fallback: int): (r: int)
    ensures parsed.Some? && parsed.value != 0 ==> r == parsed.value
    ensures parsed.None? || parsed == Some(0) ==> r == fallback
  {
    if parsed.Some? && parsed.value != 0 then parsed.value else fallback
  }

  /** `parseFloat(text) || fallback`. */
  function RealOr(parsed: Option<real>, fallback: real): (r: real)
    ensures parsed.Some? && parsed.value != 0.0 ==> r == parsed.value
    ensures parsed.None? || parsed == Some(0.0) ==> r == fallback
  {
    if parsed.Some? && parsed.value != 0.0 then parsed.value else fallback
  }

  /** With fallback 0 the rule is "unparsable reads as 0": a parsed value is never altered. */
  lemma ZeroFallbackKeepsParsed(pi: Option<int>, pr: Option<real>)
    ensures pi.Some? ==> IntOr(pi, 0) == pi.value
    ensures pi.None? ==> IntOr(pi, 0) == 0
    ensures pr.Some? ==> RealOr(pr, 0.0) == pr.value
    ensures pr.None? ==> RealOr(pr, 0.0) == 0.0
  {
  }

  /** With a non-zero fallback, typing `0` cannot be told apart from typing garbage. */
  lemma NonZeroFallbackSwallowsZero(fallback: int)
    requires fallback != 0
    ensures IntOr(Some(0), fallback) == IntOr(None, fallback) == fallback
    ensures forall p: Option<int> :: IntOr(p, fallback) != 0
  {
  }
}
