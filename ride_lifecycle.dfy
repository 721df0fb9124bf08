/** Starting and stopping a ride (apps/web/src/pages/RidePage.tsx): which ride
    is the latest, which ride of the user is open, and which store calls a
    submitted odometer reading turns into. */
module RideLifecycle {
  import opened Wrappers
  import opened Sums
  import opened Domain
  import opened FormInput

  datatype Mode = Start | Stop

  /** `(searchParams.get("mode") || "start")`, then `mode === "start"`: a
      missing or empty parameter means start, any other text but "start" means stop. */
  function ModeOf(param: Option<string>): (m: Mode)
    ensures m == Start <==> param.None? || param.value == "" || param.value == "start"
  {
    var text := if param.None? || param.value == "" then "start" else param.value;
    if text == "start" then Start else Stop
  }

  /** The initially selected user: the `userId` parameter when it is
      non-empty, otherwise the first roster user; a user is always selected. */
  function InitialUser(param: Option<string>): (u: Option<UserId>)
    ensures Selected(u)
    ensures param.Some? && param.value != "" ==> u == param
    ensures param.None? || param.value == "" ==> u == Some(USERS[0].id)
  {
    if param.Some? && param.value != "" then param else Some(USERS[0].id)
  }

  /** Index `i` is what sorting by `startedAt` descending and taking `[0]`
      yields: a greatest `startedAt`, and, the sort being stable, the first
      ride that has it. */
  predicate IsLatest(rides: seq<Ride>, i: int) {
    && 0 <= i < |rides|
    && (forall j | 0 <= j < |rides| :: rides[j].startedAt <= rides[i].startedAt)
    && (forall j | 0 <= j < i :: rides[j].startedAt < rides[i].startedAt)
  }

  function LatestIndex(rides: seq<Ride>): (i: nat)
    requires rides != []
    ensures IsLatest(rides, i)
  {
    if |rides| == 1 then 0
    else
      var k := LatestIndex(rides[..|rides| - 1]);
      if rides[|rides| - 1].startedAt > rides[k].startedAt then |rides| - 1 else k
  }

  /** The sort picks exactly one ride. */
  lemma LatestIsUnique(rides: seq<Ride>, i: int, j: int)
    requires IsLatest(rides, i) && IsLatest(rides, j)
    ensures i == j
  {
    assert rides[i].startedAt == rides[j].startedAt;
  }

  /** `lastRide`. */
  function LastRide(rides: seq<Ride>): (r: Option<Ride>)
    ensures r.None? <==> rides == []
    ensures r.Some? ==> rides[LatestIndex(rides)] == r.value
  {
    if rides == [] then None else Some(rides[LatestIndex(rides)])
  }

  /** `lastKnownKm`, the value the start form is prefilled with: where the
      latest ride ended, or where it started while it is still open; 0 when
      there is no ride. */
  function LastKnownKm(rides: seq<Ride>): (km: real)
    ensures rides == [] ==> km == 0.0
    ensures rides != [] && !rides[LatestIndex(rides)].IsOpen() ==> km == rides[LatestIndex(rides)].endKm.value
    ensures rides != [] && rides[LatestIndex(rides)].IsOpen() ==> km == rides[LatestIndex(rides)].startKm
  {
    match LastRide(rides)
    case None => 0.0
    case Some(last) => if last.endKm.Some? then last.endKm.value else last.startKm
  }

  predicate OpenFor(r: Ride, u: UserId) {
    r.userId == u && r.IsOpen()
  }

  /** `rides.filter((r) => r.userId === u && r.endKm == null)`. */
  function OpenRidesOf(rides: seq<Ride>, u: UserId): (open: seq<Ride>)
    ensures forall x :: x in open <==> x in rides && OpenFor(x, u)
  {
    if rides == [] then []
    else
      var n := |rides| - 1;
      assert rides == rides[..n] + [rides[n]];
      OpenRidesOf(rides[..n], u) + (if OpenFor(rides[n], u) then [rides[n]] else [])
  }

  /** Where the user's open rides sit in the list, in list order. */
  function OpenPositions(rides: seq<Ride>, u: UserId): (pos: seq<nat>)
    ensures forall p | 0 <= p < |pos| :: pos[p] < |rides|
  {
    if rides == [] then []
    else
      var n := |rides| - 1;
      OpenPositions(rides[..n], u) + (if OpenFor(rides[n], u) then [n] else [])
  }

  /** The filter picks exactly the rides at those positions. */
  lemma {:induction false} OpenPositionsPick(rides: seq<Ride>, u: UserId)
    ensures var pos := OpenPositions(rides, u);
            && |pos| == |OpenRidesOf(rides, u)|
            && forall p | 0 <= p < |pos| :: rides[pos[p]] == OpenRidesOf(rides, u)[p]
  {
    if rides != [] {
      var n := |rides| - 1;
      OpenPositionsPick(rides[..n], u);
      var prefix := OpenPositions(rides[..n], u);
      assert forall p | 0 <= p < |prefix| :: rides[..n][prefix[p]] == rides[prefix[p]];
    }
  }

  /** The positions increase: the filter keeps list order. */
  lemma {:induction false} OpenPositionsIncrease(rides: seq<Ride>, u: UserId)
    ensures forall p, q | 0 <= p < q < |OpenPositions(rides, u)| ::
              OpenPositions(rides, u)[p] < OpenPositions(rides, u)[q]
  {
    if rides != [] {
      var n := |rides| - 1;
      OpenPositionsIncrease(rides[..n], u);
      var prefix := OpenPositions(rides[..n], u);
      var pos := OpenPositions(rides, u);
      assert pos == prefix + (if OpenFor(rides[n], u) then [n] else []);
      forall p, q | 0 <= p < q < |pos| ensures pos[p] < pos[q] {
        if q < |prefix| {
          assert pos[p] == prefix[p] && pos[q] == prefix[q];
          assert prefix[p] < prefix[q];
        } else {
          assert pos[p] == prefix[p];
          assert prefix[p] < n;
          assert pos[q] == n;
        }
      }
    }
  }

  /** Every open ride of the user has its position listed. */
  lemma {:induction false} OpenPositionsCover(rides: seq<Ride>, u: UserId)
    ensures forall j | 0 <= j < |rides| && OpenFor(rides[j], u) :: j in OpenPositions(rides, u)
  {
    if rides != [] {
      var n := |rides| - 1;
      OpenPositionsCover(rides[..n], u);
      var pos := OpenPositions(rides, u);
      forall j | 0 <= j < |rides| && OpenFor(rides[j], u) ensures j in pos {
        if j < n {
          assert rides[..n][j] == rides[j];
          assert j in OpenPositions(rides[..n], u);
        } else {
          assert pos[|pos| - 1] == n;
        }
      }
    }
  }

  /** The stable sort keeps, among the open rides with the greatest
      `startedAt`, the first one in list order. */
  lemma OpenRideTieBreak(rides: seq<Ride>, u: UserId)
    requires OpenRidesOf(rides, u) != []
    ensures var open := OpenRidesOf(rides, u);
            var i := LatestIndex(open);
            exists j | 0 <= j < |rides| :: && rides[j] == open[i]
                                            && forall k | 0 <= k < j && OpenFor(rides[k], u) ::
                                                 rides[k].startedAt < open[i].startedAt
  {
    var open := OpenRidesOf(rides, u);
    var i := LatestIndex(open);
    var pos := OpenPositions(rides, u);
    OpenPositionsPick(rides, u);
    OpenPositionsIncrease(rides, u);
    OpenPositionsCover(rides, u);
    var j := pos[i];
    forall k | 0 <= k < j && OpenFor(rides[k], u)
      ensures rides[k].startedAt < open[i].startedAt
    {
      var q :| 0 <= q < |pos| && pos[q] == k;
      assert q < i;
      assert open[q] == rides[k];
    }
    assert rides[j] == open[i];
  }

  /** `openRideForUser`: the latest-started open ride of the selected user,
      the first in list order when several share that start. */
  function OpenRideForUser(rides: seq<Ride>, userId: Option<UserId>): (r: Option<Ride>)
    ensures r.Some? <==> Selected(userId) && exists j | 0 <= j < |rides| :: OpenFor(rides[j], userId.value)
    ensures r.Some? ==> && r.value in rides && OpenFor(r.value, userId.value)
                        && forall j | 0 <= j < |rides| && OpenFor(rides[j], userId.value) ::
                             rides[j].startedAt <= r.value.startedAt
    ensures r.Some? ==> exists j | 0 <= j < |rides| ::
                          && rides[j] == r.value
                          && forall k | 0 <= k < j && OpenFor(rides[k], userId.value) ::
                               rides[k].startedAt < r.value.startedAt
  {
    if !Selected(userId) then None
    else
      var open := OpenRidesOf(rides, userId.value);
      if open == [] then
        assert forall j | 0 <= j < |rides| :: !OpenFor(rides[j], userId.value) by {
          forall j | 0 <= j < |rides| ensures !OpenFor(rides[j], userId.value) {
            assert rides[j] in rides;
          }
        }
        None
      else
        var i := LatestIndex(open);
        assert open[i] in open;
        assert forall j | 0 <= j < |rides| && OpenFor(rides[j], userId.value) ::
                 rides[j].startedAt <= open[i].startedAt by {
          forall j | 0 <= j < |rides| && OpenFor(rides[j], userId.value)
            ensures rides[j].startedAt <= open[i].startedAt
          {
            assert rides[j] in open;
          }
        }
        OpenRideTieBreak(rides, userId.value);
        Some(open[i])
  }

  datatype RideError =
    | NoUser                                // "Select a user."
    | InvalidKm                             // "Enter a valid km value."
    | NotAfterOpenRideStart(startKm: real)  // "Current km must be greater than the open ride's start km (…)."
    | NoOpenRide                            // "No open ride found for this user."
    | NotAfterRideStart(startKm: real)      // "End km must be greater than the ride's start km (…)."

  datatype RideAction = UpdateRide(ride: Ride) | AddRide(ride: Ride)

  /** The store calls `handleSubmit` issues, in order, and for a stop the
      distance its notification reports. */
  datatype RidePlan = RidePlan(actions: seq<RideAction>, stoppedDistance: Option<real>)

  /** `{ ...r, endKm: km, endedAt: now }`. */
  function Closed(r: Ride, km: real, now: int): Ride {
    r.(endKm := Some(km), endedAt := Some(now))
  }

  /** The ride `store.addRide` is given; the fields it leaves out read back
      as an empty participant list and nulls. */
  function Started(id: string, u: UserId, km: real, now: int): Ride {
    Ride(id, u, [], km, None, now, None, None, None)
  }

  /** Start mode: close an open `lastRide` (whoever drove it) at `km`, then
      add a new ride starting at `km`. */
  function StartPlan(rides: seq<Ride>, u: UserId, km: real, newRideId: string, now: int)
    : (r: Result<RidePlan, RideError>)
    ensures var last := LastRide(rides);
            var closing := last.Some? && last.value.IsOpen();
            && (r.Err? <==> closing && km <= last.value.startKm)
            && (r.Err? ==> r.error == NotAfterOpenRideStart(last.value.startKm))
            && (r.Ok? ==> && r.value.stoppedDistance.None?
                          && |r.value.actions| == (if closing then 2 else 1)
                          && r.value.actions[|r.value.actions| - 1] == AddRide(Started(newRideId, u, km, now))
                          && (closing ==> && r.value.actions[0] == UpdateRide(Closed(last.value, km, now))
                                          && ClosedDistance(Closed(last.value, km, now)) == Some(km - last.value.startKm)))
  {
    var last := LastRide(rides);
    if last.Some? && last.value.IsOpen() then
      if km <= last.value.startKm then Err(NotAfterOpenRideStart(last.value.startKm))
      else Ok(RidePlan([UpdateRide(Closed(last.value, km, now)), AddRide(Started(newRideId, u, km, now))], None))
    else
      Ok(RidePlan([AddRide(Started(newRideId, u, km, now))], None))
  }

  /** Stop mode: close the user's open ride at `km` and report the distance. */
  function StopPlan(rides: seq<Ride>, u: UserId, km: real, now: int) : (r: Result<RidePlan, RideError>)
    ensures var open := OpenRideForUser(rides, Some(u));
            && (u != "" && open.None? ==> r == Err(NoOpenRide))
            && (open.Some? && km <= open.value.startKm ==> r == Err(NotAfterRideStart(open.value.startKm)))
            && (r.Ok? <==> open.Some? && km > open.value.startKm)
            && (r.Ok? ==> && r.value.actions == [UpdateRide(Closed(open.value, km, now))]
                          && r.value.stoppedDistance == Some(km - open.value.startKm)
                          && km - open.value.startKm > 0.0
                          && ClosedDistance(Closed(open.value, km, now)) == r.value.stoppedDistance)
  {
    match OpenRideForUser(rides, Some(u))
    case None => Err(NoOpenRide)
    case Some(open) =>
      if km <= open.startKm then Err(NotAfterRideStart(open.startKm))
      else Ok(RidePlan([UpdateRide(Closed(open, km, now))], Some(km - open.startKm)))
  }

  /** `handleSubmit`: the user and odometer checks common to both modes, then
      the mode's own plan. Any error means no store call at all. */
  function RideDecision(rides: seq<Ride>, mode: Mode, userId: Option<UserId>, kmText: string,
                        number: NumberParser, newRideId: string, now: int)
    : (r: Result<RidePlan, RideError>)
    ensures !Selected(userId) ==> r == Err(NoUser)
    ensures Selected(userId) && PositiveAmount(kmText, number).None? ==> r == Err(InvalidKm)
    ensures Selected(userId) && PositiveAmount(kmText, number).Some? ==>
              var km := PositiveAmount(kmText, number).value;
              r == if mode == Start then StartPlan(rides, userId.value, km, newRideId, now)
                   else StopPlan(rides, userId.value, km, now)
    ensures r.Ok? ==> |r.value.actions| > 0 && number(kmText).Some? && number(kmText).value > 0.0
  {
    if !Selected(userId) then Err(NoUser)
    else
      match PositiveAmount(kmText, number)
      case None => Err(InvalidKm)
      case Some(km) =>
        if mode == Start then StartPlan(rides, userId.value, km, newRideId, now)
        else StopPlan(rides, userId.value, km, now)
  }

  /** The ride form's state: the selected user, the typed reading, the error
      shown and the store calls issued so far, in order. */
  class RideForm {
    var userId: Option<UserId>
    var km: string
    var error: Option<RideError>
    var issued: seq<RideAction>

    constructor (userParam: Option<string>)
      ensures userId == InitialUser(userParam) && km == "" && error == None && issued == []
    {
      userId := InitialUser(userParam);
      km := "";
      error := None;
      issued := [];
    }

    /** `onChange` of the user picker. */
    method SetUserId(u: UserId)
      modifies this`userId
      ensures userId == Some(u)
    {
      userId := Some(u);
    }

    /** `onChange` of the km input, and the scanner's `setKm(String(value))`. */
    method SetKm(text: string)
      modifies this`km
      ensures km == text
    {
      km := text;
    }

    /** Closing the error notification. */
    method DismissError()
      modifies this`error
      ensures error == None
    {
      error := None;
    }

    /** The prefill effect: in start mode an empty field gets `String(lastKnownKm)`. */
    method Prefill(rides: seq<Ride>, mode: Mode, show: real -> string)
      modifies this`km
      ensures mode == Start && old(km) == "" ==> km == show(LastKnownKm(rides))
      ensures mode == Stop || old(km) != "" ==> km == old(km)
    {
      if mode == Start && km == "" {
        km := show(LastKnownKm(rides));
      }
    }

    method HandleSubmit(rides: seq<Ride>, mode: Mode, number: NumberParser, newRideId: string, now: int)
      modifies this`error, this`issued
      ensures var d := RideDecision(rides, mode, userId, km, number, newRideId, now);
              && (d.Err? ==> error == Some(d.error) && issued == old(issued))
              && (d.Ok? ==> error == None && issued == old(issued) + d.value.actions)
    {
      error := None;
      if userId.None? || userId.value == "" {
        error := Some(NoUser);
        return;
      }
      var kmValue := number(km);
      if km == "" || kmValue.None? || kmValue.value <= 0.0 {
        error := Some(InvalidKm);
        return;
      }
      var value := kmValue.value;
      if mode == Start {
        var lastRide := LastRide(rides);
        if lastRide.Some? && lastRide.value.endKm.None? {
          if value <= lastRide.value.startKm {
            error := Some(NotAfterOpenRideStart(lastRide.value.startKm));
            return;
          }
          issued := issued + [UpdateRide(lastRide.value.(endKm := Some(value), endedAt := Some(now)))];
        }
        issued := issued + [AddRide(Ride(newRideId, userId.value, [], value, None, now, None, None, None))];
      } else {
        var open := OpenRideForUser(rides, userId);
        if open.None? {
          error := Some(NoOpenRide);
          return;
        }
        if value <= open.value.startKm {
          error := Some(NotAfterRideStart(open.value.startKm));
          return;
        }
        issued := issued + [UpdateRide(open.value.(endKm := Some(value), endedAt := Some(now)))];
      }
    }
  }

  // ---- the effect of a plan on the ride list ----

  /** The columns `PUT /api/rides/:id` writes: `userId`, `startKm`, `endKm`,
      `startedAt` and `endedAt` come from the body; the stored row keeps its
      id, participants and end position. */
  function PutColumns(stored: Ride, body: Ride): Ride {
    stored.(userId := body.userId, startKm := body.startKm, endKm := body.endKm,
            startedAt := body.startedAt, endedAt := body.endedAt)
  }

  /** The worker's `UPDATE rides SET … WHERE id = ?`: every row with the id
      takes the body's five columns; no row is added, removed or moved. */
  function ReplaceRide(rides: seq<Ride>, r: Ride): (s: seq<Ride>)
    ensures |s| == |rides|
    ensures forall i | 0 <= i < |rides| :: s[i].id == rides[i].id
    ensures forall i | 0 <= i < |rides| && rides[i].id != r.id :: s[i] == rides[i]
    ensures forall i | 0 <= i < |rides| && rides[i].id == r.id ::
              && s[i].userId == r.userId && s[i].startKm == r.startKm && s[i].endKm == r.endKm
              && s[i].startedAt == r.startedAt && s[i].endedAt == r.endedAt
              && s[i].participantIds == rides[i].participantIds
              && s[i].endLat == rides[i].endLat && s[i].endLng == rides[i].endLng
  {
    seq(|rides|, i requires 0 <= i < |rides| => if rides[i].id == r.id then PutColumns(rides[i], r) else rides[i])
  }

  function ApplyAction(rides: seq<Ride>, a: RideAction): seq<Ride> {
    match a
    case UpdateRide(r) => ReplaceRide(rides, r)
    case AddRide(r) => rides + [r]
  }

  function ApplyActions(rides: seq<Ride>, actions: seq<RideAction>): seq<Ride>
    decreases |actions|
  {
    if actions == [] then rides else ApplyActions(ApplyAction(rides, actions[0]), actions[1..])
  }

  predicate UniqueIds(rides: seq<Ride>) {
    forall i, j | 0 <= i < j < |rides| :: rides[i].id != rides[j].id
  }

  /** What the form can rely on when it starts a ride: a new id, and a clock
      that is ahead of every recorded start. */
  predicate FreshStart(rides: seq<Ride>, newRideId: string, now: int) {
    forall j | 0 <= j < |rides| :: rides[j].id != newRideId && rides[j].startedAt < now
  }

  /** The ride-list invariant the two modes keep: only the latest-started ride
      may be open, so at most one ride is open at any time. */
  predicate OnlyLatestOpen(rides: seq<Ride>) {
    forall j | 0 <= j < |rides| && rides[j].IsOpen() :: IsLatest(rides, j)
  }

  lemma AtMostOneOpen(rides: seq<Ride>, i: int, j: int)
    requires OnlyLatestOpen(rides)
    requires 0 <= i < |rides| && 0 <= j < |rides| && rides[i].IsOpen() && rides[j].IsOpen()
    ensures i == j
  {
    LatestIsUnique(rides, i, j);
  }

  /** With unique ids, updating a listed ride touches that one entry; a body
      that keeps the row's participants and end position becomes the row. */
  lemma ReplaceRideAt(rides: seq<Ride>, k: int, r: Ride)
    requires UniqueIds(rides) && 0 <= k < |rides| && rides[k].id == r.id
    ensures ReplaceRide(rides, r) == rides[k := PutColumns(rides[k], r)]
    ensures (r.participantIds == rides[k].participantIds && r.endLat == rides[k].endLat && r.endLng == rides[k].endLng)
            ==> ReplaceRide(rides, r) == rides[k := r]
  {
  }

  /** Replacing one ride changes the total distance by the difference of the
      two rides' counted distances. */
  lemma {:induction false} TotalDistanceReplace(rides: seq<Ride>, k: int, r: Ride)
    requires 0 <= k < |rides|
    ensures TotalDistance(rides[k := r])
         == TotalDistance(rides) - ClosedDistance(rides[k]).GetOr(0.0) + ClosedDistance(r).GetOr(0.0)
  {
    var n := |rides| - 1;
    if k == n {
      assert rides[k := r][..n] == rides[..n];
    } else {
      assert rides[k := r][..n] == rides[..n][k := r];
      TotalDistanceReplace(rides[..n], k, r);
    }
  }

  /** When no ride is open, no user has an open ride. */
  lemma {:induction false} NoOpenRides(rides: seq<Ride>, u: UserId)
    requires forall j | 0 <= j < |rides| :: !rides[j].IsOpen()
    ensures OpenRidesOf(rides, u) == []
  {
    if rides != [] {
      var n := |rides| - 1;
      assert forall j | 0 <= j < n :: rides[..n][j] == rides[j];
      NoOpenRides(rides[..n], u);
    }
  }

  /** Under `OnlyLatestOpen`, an open ride can only be the latest one. */
  lemma OpenIsLatest(rides: seq<Ride>, j: int)
    requires OnlyLatestOpen(rides) && 0 <= j < |rides|
    ensures rides[j].IsOpen() ==> j == LatestIndex(rides)
  {
    if rides[j].IsOpen() {
      LatestIsUnique(rides, j, LatestIndex(rides));
    }
  }

  /** Appending a ride that starts after every closed ride of a list makes
      it the latest ride and the only open one. */
  lemma AppendStarted(closed: seq<Ride>, r: Ride)
    requires forall j | 0 <= j < |closed| :: !closed[j].IsOpen() && closed[j].startedAt < r.startedAt
    requires r.IsOpen()
    ensures var after := closed + [r];
            && OnlyLatestOpen(after)
            && LastRide(after) == Some(r)
            && LastKnownKm(after) == r.startKm
  {
    var after := closed + [r];
    assert IsLatest(after, |closed|);
    LatestIsUnique(after, |closed|, LatestIndex(after));
  }

  /** ... and the next stop of its driver finds it. */
  lemma AppendStartedIsOpenRide(closed: seq<Ride>, r: Ride)
    requires forall j | 0 <= j < |closed| :: !closed[j].IsOpen()
    requires r.IsOpen() && r.userId != ""
    ensures OpenRideForUser(closed + [r], Some(r.userId)) == Some(r)
  {
    NoOpenRides(closed, r.userId);
    assert (closed + [r])[..|closed|] == closed;
    assert OpenRidesOf(closed + [r], r.userId) == [r];
  }

  /** A successful start keeps `OnlyLatestOpen` and unique ids, adds exactly
      one ride, and leaves the new ride as the latest one, prefilled for the
      next start and found by the next stop of the same user. */
  lemma StartKeepsOnlyLatestOpen(rides: seq<Ride>, u: UserId, km: real, newRideId: string, now: int)
    requires u != "" && OnlyLatestOpen(rides) && UniqueIds(rides) && FreshStart(rides, newRideId, now)
    requires StartPlan(rides, u, km, newRideId, now).Ok?
    ensures var after := ApplyActions(rides, StartPlan(rides, u, km, newRideId, now).value.actions);
            && |after| == |rides| + 1
            && OnlyLatestOpen(after) && UniqueIds(after)
            && LastRide(after) == Some(Started(newRideId, u, km, now))
            && LastKnownKm(after) == km
            && OpenRideForUser(after, Some(u)) == Some(Started(newRideId, u, km, now))
  {
    var plan := StartPlan(rides, u, km, newRideId, now).value;
    var started := Started(newRideId, u, km, now);
    var mid: seq<Ride>;
    if LastRide(rides).Some? && LastRide(rides).value.IsOpen() {
      var k := LatestIndex(rides);
      var c := Closed(rides[k], km, now);
      ReplaceRideAt(rides, k, c);
      mid := rides[k := c];
      assert plan.actions == [UpdateRide(c), AddRide(started)];
      assert ApplyActions(rides, plan.actions) == ApplyActions(mid, [AddRide(started)]);
      assert ApplyActions(mid, [AddRide(started)]) == ApplyActions(mid + [started], []);
      forall j | 0 <= j < |mid| ensures !mid[j].IsOpen() {
        OpenIsLatest(rides, j);
      }
    } else {
      mid := rides;
      assert plan.actions == [AddRide(started)];
      assert ApplyActions(rides, plan.actions) == ApplyActions(mid + [started], []);
      forall j | 0 <= j < |rides| ensures !rides[j].IsOpen() {
        OpenIsLatest(rides, j);
      }
    }
    assert ApplyActions(rides, plan.actions) == mid + [started];
    AppendStarted(mid, started);
    AppendStartedIsOpenRide(mid, started);
  }

  /** A stop rewrites exactly the user's open ride, closed at `km`. */
  lemma StopRewritesOpenRide(rides: seq<Ride>, u: UserId, km: real, now: int)
    requires UniqueIds(rides)
    requires StopPlan(rides, u, km, now).Ok?
    ensures exists k | 0 <= k < |rides| ::
              && rides[k] == OpenRideForUser(rides, Some(u)).value
              && ApplyActions(rides, StopPlan(rides, u, km, now).value.actions) == rides[k := Closed(rides[k], km, now)]
  {
    var plan := StopPlan(rides, u, km, now).value;
    var open := OpenRideForUser(rides, Some(u)).value;
    var k :| 0 <= k < |rides| && rides[k] == open;
    ReplaceRideAt(rides, k, Closed(open, km, now));
    assert ApplyActions(rides, plan.actions) == ApplyActions(rides[k := Closed(open, km, now)], []);
  }

  /** A successful stop closes the user's open ride: no ride is open any
      more, so the user has none and `OnlyLatestOpen` is kept, and ids stay
      unique. */
  lemma StopClosesOpenRide(rides: seq<Ride>, u: UserId, km: real, now: int)
    requires OnlyLatestOpen(rides) && UniqueIds(rides)
    requires StopPlan(rides, u, km, now).Ok?
    ensures var after := ApplyActions(rides, StopPlan(rides, u, km, now).value.actions);
            && (forall j | 0 <= j < |after| :: !after[j].IsOpen())
            && OnlyLatestOpen(after) && UniqueIds(after)
            && OpenRideForUser(after, Some(u)).None?
  {
    StopRewritesOpenRide(rides, u, km, now);
    var k :| 0 <= k < |rides| && rides[k] == OpenRideForUser(rides, Some(u)).value
             && ApplyActions(rides, StopPlan(rides, u, km, now).value.actions) == rides[k := Closed(rides[k], km, now)];
    var after := rides[k := Closed(rides[k], km, now)];
    forall j | 0 <= j < |after| ensures !after[j].IsOpen() {
      if j != k && rides[j].IsOpen() {
        AtMostOneOpen(rides, j, k);
      }
    }
    NoOpenRides(after, u);
  }

  /** A successful stop keeps the number of rides, and the total counted
      distance grows by exactly the distance the stop reports. */
  lemma StopAddsReportedDistance(rides: seq<Ride>, u: UserId, km: real, now: int)
    requires UniqueIds(rides)
    requires StopPlan(rides, u, km, now).Ok?
    ensures var plan := StopPlan(rides, u, km, now).value;
            var after := ApplyActions(rides, plan.actions);
            && |after| == |rides|
            && TotalDistance(after) == TotalDistance(rides) + plan.stoppedDistance.value
  {
    StopRewritesOpenRide(rides, u, km, now);
    var k :| 0 <= k < |rides| && rides[k] == OpenRideForUser(rides, Some(u)).value
             && ApplyActions(rides, StopPlan(rides, u, km, now).value.actions) == rides[k := Closed(rides[k], km, now)];
    TotalDistanceReplace(rides, k, Closed(rides[k], km, now));
  }
}
