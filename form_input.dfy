/** The checks every form in the web client applies before it calls the
    store: a user must be selected, and a typed amount or odometer value must
    be non-empty, a number, and strictly positive. */
module FormInput {
  import opened Wrappers

  /** `Number(text)` on form input; `None` stands for NaN. */
  type NumberParser = string -> Option<real>

  /** `!userId` is false: a user id is present and not the empty string. */
  predicate Selected(userId: Option<string>) {
    userId.Some? && userId.value != ""
  }

  /** The value of `text` unless `!text || Number.isNaN(value) || value <= 0`. */
  function PositiveAmount(text: string, number: NumberParser): (r: Option<real>)
    ensures r.Some? <==> text != "" && number(text).Some? && number(text).value > 0.0
    ensures r.Some? ==> number(text) == r && r.value > 0.0
  {
    if text == "" then None
    else
      match number(text)
      case None => None
      case Some(v) => if v <= 0.0 then None else Some(v)
  }
}
