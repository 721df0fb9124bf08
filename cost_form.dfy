/** The cost form (apps/web/src/pages/CostPage.tsx): who paid, how much, what
    kind of cost and an optional note, checked and turned into one cost event. */
module CostForm {
  import opened Wrappers
  import opened Domain
  import opened FormInput
  import opened Settlement

  datatype CostError =
    | SelectUser     // "Select a user."
    | InvalidAmount  // "Enter a valid amount."

  /** `description || undefined`: an empty note is no note. */
  function NoteOf(description: string): (r: Option<string>)
    ensures r.None? <==> description == ""
    ensures r.Some? ==> r.value == description
  {
    if description == "" then None else Some(description)
  }

  /** What `handleSubmit` decides: an error, or the cost event it hands to
      `store.addCost`. */
  function CostDecision(userId: Option<UserId>, amountText: string, costType: CostType, description: string,
                        number: NumberParser, costId: string, now: int)
    : (r: Result<CostEvent, CostError>)
    ensures r.Ok? <==> Selected(userId) && PositiveAmount(amountText, number).Some?
    ensures !Selected(userId) ==> r == Err(SelectUser)
    ensures Selected(userId) && PositiveAmount(amountText, number).None? ==> r == Err(InvalidAmount)
    ensures r.Ok? ==> && r.value.id == costId && r.value.userId == userId.value
                      && r.value.amount > 0.0 && number(amountText) == Some(r.value.amount)
                      && r.value.costType == costType && r.value.createdAt == now
                      && (r.value.description.None? <==> description == "")
  {
    if !Selected(userId) then Err(SelectUser)
    else
      match PositiveAmount(amountText, number)
      case None => Err(InvalidAmount)
      case Some(v) => Ok(CostEvent(costId, userId.value, v, costType, NoteOf(description), now))
  }

  /** A recorded cost raises the payer's `variablePaid`, and the pool of
      variable costs, by its amount, and leaves everyone else's paid total alone. */
  lemma RecordedCostEffect(costs: seq<CostEvent>, userId: Option<UserId>, amountText: string, costType: CostType,
                           description: string, number: NumberParser, costId: string, now: int, u: UserId)
    requires CostDecision(userId, amountText, costType, description, number, costId, now).Ok?
    ensures var c := CostDecision(userId, amountText, costType, description, number, costId, now).value;
            && TotalVariableCosts(costs + [c]) == TotalVariableCosts(costs) + c.amount
            && TotalVariableCosts(costs + [c]) > TotalVariableCosts(costs)
            && PaidBy(costs + [c], u) == PaidBy(costs, u) + (if u == userId.value then c.amount else 0.0)
  {
    var c := CostDecision(userId, amountText, costType, description, number, costId, now).value;
    assert (costs + [c])[..|costs + [c]| - 1] == costs;
  }

  /** The form's state. The payer starts as the first roster user and the
      type as fuel; `submitted` lists the events handed to `store.addCost`. */
  class CostFormState {
    var userId: Option<UserId>
    var amount: string
    var costType: CostType
    var description: string
    var error: Option<CostError>
    var submitted: seq<CostEvent>

    constructor ()
      ensures userId == Some(USERS[0].id) && amount == "" && costType == Fuel && description == ""
      ensures error == None && submitted == []
    {
      userId := Some(USERS[0].id);
      amount := "";
      costType := Fuel;
      description := "";
      error := None;
      submitted := [];
    }

    /** `onChange` of the user picker. */
    method SetUserId(u: UserId)
      modifies this`userId
      ensures userId == Some(u)
    {
      userId := Some(u);
    }

    /** `onChange` of the amount input. */
    method SetAmount(text: string)
      modifies this`amount
      ensures amount == text
    {
      amount := text;
    }

    /** `onChange` of the type select. */
    method SetCostType(t: CostType)
      modifies this`costType
      ensures costType == t
    {
      costType := t;
    }

    /** `onChange` of the description input. */
    method SetDescription(text: string)
      modifies this`description
      ensures description == text
    {
      description := text;
    }

    /** Closing the error notification. */
    method DismissError()
      modifies this`error
      ensures error == None
    {
      error := None;
    }

    method HandleSubmit(costId: string, now: int, number: NumberParser)
      modifies this`error, this`submitted
      ensures var d := CostDecision(userId, amount, costType, description, number, costId, now);
              && (d.Err? ==> error == Some(d.error) && submitted == old(submitted))
              && (d.Ok? ==> error == None && submitted == old(submitted) + [d.value])
    {
      error := None;
      if userId.None? || userId.value == "" {
        error := Some(SelectUser);
        return;
      }
      var value := number(amount);
      if amount == "" || value.None? || value.value <= 0.0 {
        error := Some(InvalidAmount);
        return;
      }
      var note := if description == "" then None else Some(description);
      submitted := submitted + [CostEvent(costId, userId.value, value.value, costType, note, now)];
    }
  }
}
