/** One user's statistics page (apps/web/src/pages/StatsPage.tsx): the same
    figures as that user's row of the settle-up overview, and the form that
    records a wear-reserve payment. */
module Stats {
  import opened Wrappers
  import opened Sums
  import opened Domain
  import opened FormInput
  import opened Settlement

  datatype UserStats = UserStats(
    kmUser: real,
    variablePaid: real,
    fairShare: real,
    netVariable: real,
    wearOwed: real,
    wearPaid: real,
    netWear: real)

  /** `USERS.find((u) => u.id === userId)`: the first roster entry with that id. */
  function FindUser(users: seq<User>, userId: Option<UserId>): (r: Option<User>)
    ensures r.None? <==> userId.None? || forall i | 0 <= i < |users| :: users[i].id != userId.value
    ensures r.Some? ==> exists i | 0 <= i < |users| :: users[i] == r.value && r.value.id == userId.value
                          && forall j | 0 <= j < i :: users[j].id != userId.value
  {
    if userId.None? || users == [] then None
    else if users[0].id == userId.value then Some(users[0])
    else
      var r := FindUser(users[1..], userId);
      assert forall i | 0 < i < |users| :: users[i] == users[1..][i - 1];
      r
  }

  /** The page's figures for user `id`, given the page's km map and totals:
      field for field the overview's summary of a user with that id. */
  function StatsFor(st: State, id: UserId, kmByUser: map<UserId, real>, totalKm: real, totalCosts: real)
    : (r: UserStats)
    ensures forall u: User | u.id == id ::
              var s := Summarize(u, st, kmByUser, totalKm, totalCosts);
              && r.kmUser == s.km && r.variablePaid == s.variablePaid && r.fairShare == s.variableShare
              && r.netVariable == s.variableNet && r.wearOwed == s.wearOwed
              && r.wearPaid == s.wearPaid && r.netWear == s.wearNet
  {
    var kmUser := Get(kmByUser, id);
    var paid := PaidBy(st.costs, id);
    var fairShare := FairShare(totalCosts, kmUser, totalKm);
    var wearOwed := WearOwed(kmUser, st.config.wearRatePerKm);
    var wearPaid := WearPaidBy(st.wearPayments, id);
    UserStats(kmUser, paid, fairShare, paid - fairShare, wearOwed, wearPaid, wearPaid - wearOwed)
  }

  datatype StatsView = UserNotFound | UserFound(user: User, stats: UserStats)

  /** The page for the route parameter `userId`: "User not found" (with no
      actions) unless the id names a roster user. */
  ghost function StatsPage(st: State, userId: Option<UserId>): (v: StatsView)
    ensures v.UserFound? <==> userId.Some? && userId.value in UserIds(USERS)
    ensures v.UserFound? ==> v.user in USERS && v.user.id == userId.value
  {
    RosterWellFormed();
    var user := FindUser(USERS, userId);
    if user.None? || !Selected(userId) then UserNotFound
    else
      var kmByUser := OwnerKm(st.rides);
      UserFound(user.value, StatsFor(st, userId.value, kmByUser, TotalKmOverall(kmByUser), TotalVariableCosts(st.costs)))
  }

  /** For a roster user, every figure equals the corresponding field of that
      user's row of the settle-up overview. */
  lemma StatsAgreeWithSettle(st: State, i: nat)
    requires i < |USERS|
    ensures var v := StatsPage(st, Some(USERS[i].id));
            var s := SettleSummaries(st, USERS)[i];
            && v == UserFound(USERS[i], v.stats)
            && v.stats.kmUser == s.km
            && v.stats.variablePaid == s.variablePaid
            && v.stats.fairShare == s.variableShare
            && v.stats.netVariable == s.variableNet
            && v.stats.wearOwed == s.wearOwed
            && v.stats.wearPaid == s.wearPaid
            && v.stats.netWear == s.wearNet
  {
    RosterWellFormed();
    var id := Some(USERS[i].id);
    var user := FindUser(USERS, id);
    var j :| 0 <= j < |USERS| && USERS[j] == user.value && user.value.id == USERS[i].id
             && forall k | 0 <= k < j :: USERS[k].id != USERS[i].id;
    assert UserIds(USERS)[i] == USERS[i].id && UserIds(USERS)[j] == USERS[j].id;
    assert j == i;
    var kmByUser := OwnerKm(st.rides);
    assert SettleSummaries(st, USERS)[i]
        == Summarize(USERS[i], st, kmByUser, TotalKmOverall(kmByUser), TotalVariableCosts(st.costs));
  }

  // ---- recording a wear payment ----

  datatype WearError =
    | UserMissing    // "User missing or not found."
    | InvalidAmount  // "Enter a valid amount."

  /** What `handleAddWearPayment` decides: an error, or exactly one payment
      for this user with the typed amount. */
  function WearPaymentDecision(userId: Option<UserId>, user: Option<User>, amountText: string,
                               number: NumberParser, paymentId: string, now: int)
    : (r: Result<WearPayment, WearError>)
    ensures r.Ok? <==> Selected(userId) && user.Some? && PositiveAmount(amountText, number).Some?
    ensures !Selected(userId) || user.None? ==> r == Err(UserMissing)
    ensures Selected(userId) && user.Some? && PositiveAmount(amountText, number).None? ==> r == Err(InvalidAmount)
    ensures r.Ok? ==> r.value == WearPayment(paymentId, userId.value, r.value.amount, now)
                      && r.value.amount > 0.0 && number(amountText) == Some(r.value.amount)
  {
    if !Selected(userId) || user.None? then Err(UserMissing)
    else
      match PositiveAmount(amountText, number)
      case None => Err(InvalidAmount)
      case Some(v) => Ok(WearPayment(paymentId, userId.value, v, now))
  }

  /** The wear-payment form's state: the typed amount, the error shown, and
      the payments handed to `store.addWearPayment`, in order. */
  class WearPaymentForm {
    var wearAmount: string
    var error: Option<WearError>
    var submitted: seq<WearPayment>

    constructor ()
      ensures wearAmount == "" && error == None && submitted == []
    {
      wearAmount := "";
      error := None;
      submitted := [];
    }

    /** `onChange` of the amount input. */
    method SetWearAmount(text: string)
      modifies this`wearAmount
      ensures wearAmount == text
    {
      wearAmount := text;
    }

    /** Closing the error notification. */
    method DismissError()
      modifies this`error
      ensures error == None
    {
      error := None;
    }

    method HandleAddWearPayment(userId: Option<UserId>, user: Option<User>, paymentId: string, now: int,
                                number: NumberParser)
      modifies this
      ensures var d := WearPaymentDecision(userId, user, old(wearAmount), number, paymentId, now);
              && (d.Err? ==> error == Some(d.error) && submitted == old(submitted) && wearAmount == old(wearAmount))
              && (d.Ok? ==> error == None && submitted == old(submitted) + [d.value] && wearAmount == "")
    {
      error := None;
      if userId.None? || userId.value == "" || user.None? {
        error := Some(UserMissing);
        return;
      }
      var value := number(wearAmount);
      if wearAmount == "" || value.None? || value.value <= 0.0 {
        error := Some(InvalidAmount);
        return;
      }
      submitted := submitted + [WearPayment(paymentId, userId.value, value.value, now)];
      wearAmount := "";
    }
  }
}
