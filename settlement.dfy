/** The settle-up overview (apps/web/src/pages/SettlePage.tsx): per roster
    user, km driven, variable costs paid against a distance-proportional fair
    share, and wear owed against wear paid. As written, the page credits the
    whole distance of a ride to its initiator `r.userId`; participants play no
    part here. */
module Settlement {
  import opened Wrappers
  import opened Sums
  import opened Domain
  import RideShares

  /** Adds `x` to entry `k`, creating it at 0 first. */
  function AddTo(m: map<UserId, real>, k: UserId, x: real): map<UserId, real> {
    m[k := Get(m, k) + x]
  }

  /** The body of the accumulation loop for one ride: skip open rides and
      rides with a non-positive distance, otherwise credit the whole
      distance to the initiator. */
  function CreditOwner(m: map<UserId, real>, r: Ride): map<UserId, real> {
    match ClosedDistance(r)
    case None => m
    case Some(d) => AddTo(m, r.userId, d)
  }

  /** The `totalKmByUser` map after the loop has seen `rides`: only
      positive distances are ever credited, so every entry is positive. */
  function OwnerKm(rides: seq<Ride>): (m: map<UserId, real>)
    ensures forall k | k in m :: m[k] > 0.0
  {
    if rides == [] then map[]
    else CreditOwner(OwnerKm(rides[..|rides| - 1]), rides[|rides| - 1])
  }

  method TotalKmByUser(rides: seq<Ride>) returns (totals: map<UserId, real>)
    ensures totals == OwnerKm(rides)
  {
    totals := map[];
    for i := 0 to |rides|
      invariant totals == OwnerKm(rides[..i])
    {
      var r := rides[i];
      assert rides[..i + 1][..i] == rides[..i];
      if r.endKm.None? {
        continue;
      }
      var d := r.endKm.value - r.startKm;
      if d <= 0.0 {
        continue;
      }
      totals := totals[r.userId := Get(totals, r.userId) + d];
    }
    assert rides[..|rides|] == rides;
  }

  /** Reference definition: the distances of the counted rides `u` initiated. */
  function OwnedKm(rides: seq<Ride>, u: UserId): real {
    if rides == [] then 0.0
    else
      var r := rides[|rides| - 1];
      OwnedKm(rides[..|rides| - 1], u) + (if r.userId == u then ClosedDistance(r).GetOr(0.0) else 0.0)
  }

  /** `u` initiated some counted ride. */
  ghost predicate Drove(rides: seq<Ride>, u: UserId) {
    exists i | 0 <= i < |rides| :: ClosedDistance(rides[i]).Some? && rides[i].userId == u
  }

  /** Each entry of the page's km map is the summed distance of that user's
      counted rides; only users with a counted ride have an entry (so `km`
      falls back to 0 for everybody else). */
  lemma {:induction false} OwnerKmAt(rides: seq<Ride>, u: UserId)
    ensures Get(OwnerKm(rides), u) == OwnedKm(rides, u)
    ensures u in OwnerKm(rides) <==> Drove(rides, u)
  {
    if rides != [] {
      var n := |rides| - 1;
      OwnerKmAt(rides[..n], u);
      assert forall i | 0 <= i < n :: rides[..n][i] == rides[i];
      if Drove(rides, u) && !Drove(rides[..n], u) {
        assert ClosedDistance(rides[n]).Some? && rides[n].userId == u;
      }
    }
  }

  /** `totalKmOverall`: the sum of every entry of the map. */
  ghost function TotalKmOverall(totals: map<UserId, real>): real {
    MapSum(totals)
  }

  /** `totalKmOverall` is the summed distance of all counted rides, including
      rides initiated by users outside the roster. */
  lemma {:induction false} TotalKmOverallIsTotalDistance(rides: seq<Ride>)
    ensures TotalKmOverall(OwnerKm(rides)) == TotalDistance(rides)
  {
    if rides != [] {
      var n := |rides| - 1;
      TotalKmOverallIsTotalDistance(rides[..n]);
      if ClosedDistance(rides[n]).Some? {
        MapSumAdd(OwnerKm(rides[..n]), rides[n].userId, ClosedDistance(rides[n]).value);
      }
    }
  }

  /** `totalVariableCosts`: every cost amount, whoever paid it. */
  function TotalVariableCosts(costs: seq<CostEvent>): (total: real)
    ensures (forall i | 0 <= i < |costs| :: costs[i].amount >= 0.0) ==> total >= 0.0
  {
    if costs == [] then 0.0
    else TotalVariableCosts(costs[..|costs| - 1]) + costs[|costs| - 1].amount
  }

  /** `variablePaid`: the amounts of the costs paid by `u`; nothing for a
      user who paid no cost, and never more than the whole pool. */
  function PaidBy(costs: seq<CostEvent>, u: UserId): (paid: real)
    ensures (forall i | 0 <= i < |costs| :: costs[i].userId != u) ==> paid == 0.0
    ensures (forall i | 0 <= i < |costs| :: costs[i].amount >= 0.0) ==> 0.0 <= paid <= TotalVariableCosts(costs)
  {
    if costs == [] then 0.0
    else
      var c := costs[|costs| - 1];
      PaidBy(costs[..|costs| - 1], u) + (if c.userId == u then c.amount else 0.0)
  }

  /** `wearPaid`: the amounts of the wear payments made by `u`; nothing for
      a user who made none. */
  function WearPaidBy(payments: seq<WearPayment>, u: UserId): (paid: real)
    ensures (forall i | 0 <= i < |payments| :: payments[i].userId != u) ==> paid == 0.0
    ensures (forall i | 0 <= i < |payments| :: payments[i].amount >= 0.0) ==> paid >= 0.0
  {
    if payments == [] then 0.0
    else
      var p := payments[|payments| - 1];
      WearPaidBy(payments[..|payments| - 1], u) + (if p.userId == u then p.amount else 0.0)
  }

  datatype UserSummary = UserSummary(
    userId: UserId,
    name: string,
    km: real,
    variablePaid: real,
    variableShare: real,
    variableNet: real,
    wearOwed: real,
    wearPaid: real,
    wearNet: real)

  /** The fair share of the cost pool for `km` out of `totalKm`; nothing
      when no distance was driven at all. */
  function FairShare(totalCosts: real, km: real, totalKm: real): (share: real)
    ensures totalKm <= 0.0 ==> share == 0.0
    ensures totalKm > 0.0 && totalCosts >= 0.0 && 0.0 <= km <= totalKm ==> 0.0 <= share <= totalCosts
  {
    if totalKm > 0.0 then
      var share := totalCosts * km / totalKm;
      assert totalCosts >= 0.0 && 0.0 <= km <= totalKm ==> 0.0 <= share <= totalCosts by {
        if totalCosts >= 0.0 && 0.0 <= km <= totalKm {
          assert totalCosts * km >= 0.0;
          assert totalCosts * (totalKm - km) >= 0.0;
          assert share * totalKm == totalCosts * km;
        }
      }
      share
    else 0.0
  }

  /** Wear owed for `km` at the configured rate; no proportional
      redistribution between users. */
  function WearOwed(km: real, rate: real): (owed: real)
    ensures km == 0.0 ==> owed == 0.0
    ensures km >= 0.0 && rate >= 0.0 ==> owed >= 0.0
  {
    km * rate
  }

  /** One user's row of the overview: each net is paid minus owed, and a
      user without an entry in the km map (`|| 0`) owes no share and no wear. */
  function Summarize(u: User, st: State, kmByUser: map<UserId, real>, totalKm: real, totalCosts: real)
    : (s: UserSummary)
    ensures s.userId == u.id && s.name == u.name && s.km == Get(kmByUser, u.id)
    ensures s.variableNet + s.variableShare == s.variablePaid
    ensures s.wearNet + s.wearOwed == s.wearPaid
    ensures u.id !in kmByUser ==> s.km == 0.0 && s.variableShare == 0.0 && s.wearOwed == 0.0
  {
    var km := Get(kmByUser, u.id);
    var variablePaid := PaidBy(st.costs, u.id);
    var variableShare := FairShare(totalCosts, km, totalKm);
    var wearOwed := WearOwed(km, st.config.wearRatePerKm);
    var wearPaid := WearPaidBy(st.wearPayments, u.id);
    UserSummary(u.id, u.name, km, variablePaid, variableShare, variablePaid - variableShare,
                wearOwed, wearPaid, wearPaid - wearOwed)
  }

  /** `USERS.map(...)`: one summary per roster entry, in roster order. */
  function Summaries(users: seq<User>, st: State, kmByUser: map<UserId, real>, totalKm: real, totalCosts: real)
    : (r: seq<UserSummary>)
    ensures |r| == |users|
    ensures forall i | 0 <= i < |users| :: r[i] == Summarize(users[i], st, kmByUser, totalKm, totalCosts)
  {
    if users == [] then []
    else [Summarize(users[0], st, kmByUser, totalKm, totalCosts)] + Summaries(users[1..], st, kmByUser, totalKm, totalCosts)
  }

  /** The page as a whole: one row per roster entry, in roster order. */
  ghost function SettleSummaries(st: State, users: seq<User>): (r: seq<UserSummary>)
    ensures |r| == |users|
    ensures forall i | 0 <= i < |users| :: r[i].userId == users[i].id && r[i].name == users[i].name
  {
    var kmByUser := OwnerKm(st.rides);
    Summaries(users, st, kmByUser, TotalKmOverall(kmByUser), TotalVariableCosts(st.costs))
  }

  /** What each summary field means, in terms of the snapshot alone. */
  lemma SummaryFields(st: State, users: seq<User>, i: nat)
    requires i < |users|
    ensures |SettleSummaries(st, users)| == |users|
    ensures var s := SettleSummaries(st, users)[i];
            var T := TotalDistance(st.rides);
            && s.userId == users[i].id
            && s.km == OwnedKm(st.rides, users[i].id)
            && s.variablePaid == PaidBy(st.costs, users[i].id)
            && s.variableShare == FairShare(TotalVariableCosts(st.costs), s.km, T)
            && s.variableNet == s.variablePaid - s.variableShare
            && s.wearOwed == WearOwed(s.km, st.config.wearRatePerKm)
            && s.wearPaid == WearPaidBy(st.wearPayments, users[i].id)
            && s.wearNet == s.wearPaid - s.wearOwed
  {
    var km := OwnerKm(st.rides);
    OwnerKmAt(st.rides, users[i].id);
    TotalKmOverallIsTotalDistance(st.rides);
    assert SettleSummaries(st, users)[i]
        == Summarize(users[i], st, km, TotalKmOverall(km), TotalVariableCosts(st.costs));
  }

  /** With no counted ride, nobody owes a fair share, whatever was spent. */
  lemma NoDistanceNoShare(st: State, users: seq<User>)
    requires forall i | 0 <= i < |st.rides| :: ClosedDistance(st.rides[i]).None?
    ensures forall s | s in SettleSummaries(st, users) :: s.variableShare == 0.0 && s.variableNet == s.variablePaid
  {
    TotalDistanceNonNegative(st.rides);
    TotalKmOverallIsTotalDistance(st.rides);
  }

  // ---- the zero-sum property ----

  /** A map of the amounts each user paid; a proof device. */
  function PaidMap(costs: seq<CostEvent>): map<UserId, real> {
    if costs == [] then map[]
    else
      var c := costs[|costs| - 1];
      AddTo(PaidMap(costs[..|costs| - 1]), c.userId, c.amount)
  }

  lemma {:induction false} PaidMapAt(costs: seq<CostEvent>, u: UserId)
    ensures Get(PaidMap(costs), u) == PaidBy(costs, u)
    ensures u in PaidMap(costs) ==> exists i | 0 <= i < |costs| :: costs[i].userId == u
  {
    if costs != [] {
      var n := |costs| - 1;
      PaidMapAt(costs[..n], u);
      if u in PaidMap(costs) && u != costs[n].userId {
        var i :| 0 <= i < n && costs[..n][i].userId == u;
        assert costs[i] == costs[..n][i];
      }
    }
  }

  lemma {:induction false} PaidMapSum(costs: seq<CostEvent>)
    ensures MapSum(PaidMap(costs)) == TotalVariableCosts(costs)
  {
    if costs != [] {
      var n := |costs| - 1;
      PaidMapSum(costs[..n]);
      MapSumAdd(PaidMap(costs[..n]), costs[n].userId, costs[n].amount);
    }
  }

  function SumNet(summaries: seq<UserSummary>): real {
    if summaries == [] then 0.0 else summaries[0].variableNet + SumNet(summaries[1..])
  }

  /** The whole distance carries the whole pool. */
  lemma FairShareWhole(c: real, t: real)
    requires t > 0.0
    ensures FairShare(c, t, t) == c
  {
    assert c * t / t == c;
  }

  /** Fair shares add up: splitting a distance splits its share. */
  lemma FairShareAdditive(c: real, a: real, b: real, t: real)
    ensures FairShare(c, a, t) + FairShare(c, b, t) == FairShare(c, a + b, t)
  {
    if t > 0.0 {
      assert c * a / t + c * b / t == c * (a + b) / t;
    }
  }

  /** The nets over the roster: all paid minus the shares of the roster's km. */
  lemma {:induction false} SummariesNet(users: seq<User>, st: State, kmByUser: map<UserId, real>, T: real, C: real)
    ensures SumNet(Summaries(users, st, kmByUser, T, C))
         == SumAt(PaidMap(st.costs), UserIds(users)) - FairShare(C, SumAt(kmByUser, UserIds(users)), T)
  {
    if users != [] {
      var rest := users[1..];
      var ids := UserIds(users);
      assert UserIds(rest) == ids[1..];
      SummariesNet(rest, st, kmByUser, T, C);
      PaidMapAt(st.costs, users[0].id);
      var s := Summaries(users, st, kmByUser, T, C);
      assert s[1..] == Summaries(rest, st, kmByUser, T, C);
      assert s[0] == Summarize(users[0], st, kmByUser, T, C);
      FairShareAdditive(C, Get(kmByUser, users[0].id), SumAt(kmByUser, UserIds(rest)), T);
    }
  }

  /** The core guarantee: when some distance was driven and every counted
      ride's initiator and every cost's payer is on a roster of distinct ids,
      the variable nets sum to zero; the fair shares redistribute exactly the
      pool that was paid. */
  lemma VariableNetsSumToZero(st: State, users: seq<User>)
    requires Distinct(UserIds(users))
    requires TotalDistance(st.rides) > 0.0
    requires forall i | 0 <= i < |st.rides| :: ClosedDistance(st.rides[i]).Some? ==> st.rides[i].userId in UserIds(users)
    requires forall i | 0 <= i < |st.costs| :: st.costs[i].userId in UserIds(users)
    ensures SumNet(SettleSummaries(st, users)) == 0.0
  {
    var ids := UserIds(users);
    var km := OwnerKm(st.rides);
    var T := TotalKmOverall(km);
    var C := TotalVariableCosts(st.costs);
    TotalKmOverallIsTotalDistance(st.rides);
    SummariesNet(users, st, km, T, C);
    forall k | k in km ensures k in ids {
      OwnerKmAt(st.rides, k);
    }
    SumAtCoversMapSum(km, ids);
    forall k | k in PaidMap(st.costs) ensures k in ids {
      PaidMapAt(st.costs, k);
    }
    SumAtCoversMapSum(PaidMap(st.costs), ids);
    PaidMapSum(st.costs);
    FairShareWhole(C, T);
  }

  /** The two-user example: A drives 0 -> 100, B drives 100 -> 150, A pays
      60 for fuel; A's fair share is 40 (net +20), B's is 20 (net -20). */
  lemma TwoUserExample()
    ensures var a := User("a", "A");
            var b := User("b", "B");
            var st := State(
              [Ride("r1", "a", [], 0.0, Some(100.0), 1, Some(2), None, None),
               Ride("r2", "b", [], 100.0, Some(150.0), 3, Some(4), None, None)],
              [CostEvent("c1", "a", 60.0, Fuel, None, 5)],
              [],
              AppConfig(0.2));
            var s := SettleSummaries(st, [a, b]);
            && s[0].km == 100.0 && s[0].variableShare == 40.0 && s[0].variableNet == 20.0
            && s[1].km == 50.0 && s[1].variableShare == 20.0 && s[1].variableNet == -20.0
            && s[0].wearOwed == 20.0 && s[1].wearNet == -10.0
  {
    var r1 := Ride("r1", "a", [], 0.0, Some(100.0), 1, Some(2), None, None);
    var r2 := Ride("r2", "b", [], 100.0, Some(150.0), 3, Some(4), None, None);
    var rides := [r1, r2];
    assert rides[..1] == [r1] && [r1][..0] == [];
    assert ClosedDistance(r1) == Some(100.0) && ClosedDistance(r2) == Some(50.0);
    assert OwnerKm([r1]) == map["a" := 100.0];
    var km := OwnerKm(rides);
    assert km == map["a" := 100.0][ "b" := 50.0];
    SumAtCoversMapSum(km, ["a", "b"]);
    assert TotalKmOverall(km) == 150.0;
    var costs := [CostEvent("c1", "a", 60.0, Fuel, None, 5)];
    assert costs[..0] == [];
  }

  /** Wear has no redistribution: a wear payment by one user changes that
      user's wear figures only, by exactly its amount. */
  lemma WearIsPerUser(st: State, users: seq<User>, p: WearPayment, i: nat)
    requires i < |users|
    ensures var st' := st.(wearPayments := st.wearPayments + [p]);
            var before := SettleSummaries(st, users)[i];
            var after := SettleSummaries(st', users)[i];
            && after.km == before.km && after.variableNet == before.variableNet
            && after.wearOwed == before.wearOwed
            && after.wearNet == before.wearNet + (if p.userId == users[i].id then p.amount else 0.0)
  {
    var ps := st.wearPayments + [p];
    assert ps[..|ps| - 1] == st.wearPayments;
  }

  /** Where every ride's participants are just its initiator (which is what
      the backend returns, since it does not store participants), the shared
      attribution of rideShares.ts and this page's map agree on every user. */
  lemma {:induction false} SharesAgreeWithOwnerKm(rides: seq<Ride>, ids: seq<UserId>, u: UserId)
    requires forall i | 0 <= i < |rides| :: RideShares.GetParticipants(rides[i]) == [rides[i].userId]
    ensures Get(RideShares.KmByUser(rides, ids), u) == Get(OwnerKm(rides), u)
  {
    RideShares.KmByUserAt(rides, ids, u);
    OwnerKmAt(rides, u);
    SoloSharesAreOwnedKm(rides, u);
  }

  lemma {:induction false} SoloSharesAreOwnedKm(rides: seq<Ride>, u: UserId)
    requires forall i | 0 <= i < |rides| :: RideShares.GetParticipants(rides[i]) == [rides[i].userId]
    ensures RideShares.UserShare(rides, u) == OwnedKm(rides, u)
  {
    if rides != [] {
      var n := |rides| - 1;
      var r := rides[n];
      var ps := [r.userId];
      assert RideShares.GetParticipants(r) == ps;
      assert ps[..0] == [];
      assert Count(ps, u) == (if r.userId == u then 1 else 0);
      forall i | 0 <= i < n ensures RideShares.GetParticipants(rides[..n][i]) == [rides[..n][i].userId] {
        assert rides[..n][i] == rides[i];
      }
      SoloSharesAreOwnedKm(rides[..n], u);
      match ClosedDistance(r)
      case None =>
      case Some(d) =>
        assert d / 1.0 == d;
        assert RideShares.RideShareOf(r, u) == Times(Count(ps, u), d / 1.0);
    }
  }
}
