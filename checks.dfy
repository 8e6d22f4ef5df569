/** mltemplate/utils/checks.py: `ifnone`. */
module Checks {
  import opened Wrappers

  /** `val if val is not None else default`; both arguments may be None. */
  function IfNone<T>(val: Option<T>, default: Option<T>): (r: Option<T>)
    ensures val.Some? ==> r == val
    ensures val.None? ==> r == default
    ensures r.None? <==> val.None? && default.None?
  {
    if val.Some? then val else default
  }

  /** Applying the same default twice changes nothing more. */
  lemma IfNoneIdempotent<T>(val: Option<T>, default: Option<T>)
    ensures IfNone(IfNone(val, default), default) == IfNone(val, default)
  {
  }

  /** Falsy values are values: `False` and `0` are returned, not replaced. */
  lemma IfNoneKeepsFalsy()
    ensures IfNone(Some(false), Some(true)) == Some(false)
    ensures IfNone(Some(0), Some(10)) == Some(0)
  {
  }
}
