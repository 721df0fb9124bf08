/** Distance attribution (apps/web/src/utils/rideShares.ts): each counted
    ride's distance is split equally among its participants and accumulated
    into a per-user km map that starts at 0 for every known user. */
module RideShares {
  import opened Wrappers
  import opened Sums
  import opened Domain

  /** The ride's participants, falling back to the initiator for older rides
      that carry none. */
  function GetParticipants(ride: Ride): (ps: seq<UserId>)
    ensures |ps| > 0
    ensures |ride.participantIds| > 0 ==> ps == ride.participantIds
    ensures |ride.participantIds| == 0 ==> ps == [ride.userId]
  {
    if |ride.participantIds| > 0 then ride.participantIds else [ride.userId]
  }

  /** The effect of `for (const pid of ps) totals[pid] = (totals[pid] ?? 0) + share`
      after the whole loop. */
  function Credit(totals: map<UserId, real>, ps: seq<UserId>, share: real): map<UserId, real> {
    if ps == [] then totals
    else
      var m := Credit(totals, ps[..|ps| - 1], share);
      var pid := ps[|ps| - 1];
      m[pid := Get(m, pid) + share]
  }

  /** One more participant: the last one gains one share. */
  lemma CreditLast(totals: map<UserId, real>, ps: seq<UserId>, share: real)
    requires ps != []
    ensures var m := Credit(totals, ps[..|ps| - 1], share);
            Credit(totals, ps, share) == m[ps[|ps| - 1] := Get(m, ps[|ps| - 1]) + share]
  {
  }

  /** Closed form of `Credit`: every occurrence of a key in `ps` adds one
      share to it; keys outside `ps` keep their value. */
  lemma {:induction false} CreditAt(totals: map<UserId, real>, ps: seq<UserId>, share: real, k: UserId)
    ensures Get(Credit(totals, ps, share), k) == Get(totals, k) + Times(Count(ps, k), share)
    ensures k in Credit(totals, ps, share) <==> k in totals || k in ps
    decreases |ps|
  {
    if ps != [] {
      var n := |ps| - 1;
      var init := ps[..n];
      var m := Credit(totals, init, share);
      var c := Count(init, k);
      CreditAt(totals, init, share, k);
      CreditLast(totals, ps, share);
      assert Count(ps, k) == c + (if ps[n] == k then 1 else 0);
      if ps[n] == k {
        assert Get(Credit(totals, ps, share), k) == Get(m, k) + share;
      } else {
        assert Get(Credit(totals, ps, share), k) == Get(m, k);
      }
      assert ps == init + [ps[n]];
    }
  }

  /** Crediting `|ps|` shares adds exactly `|ps| * share` to the sum of all entries. */
  lemma {:induction false} CreditSum(totals: map<UserId, real>, ps: seq<UserId>, share: real)
    ensures MapSum(Credit(totals, ps, share)) == MapSum(totals) + Times(|ps|, share)
    decreases |ps|
  {
    if ps != [] {
      var n := |ps| - 1;
      var m := Credit(totals, ps[..n], share);
      CreditSum(totals, ps[..n], share);
      MapSumAdd(m, ps[n], share);
      CreditLast(totals, ps, share);
    }
  }

  /** The per-user map after `addRideKmShares(totals, ride)`. */
  function WithRideShares(totals: map<UserId, real>, ride: Ride): (r: map<UserId, real>)
    ensures ClosedDistance(ride).None? ==> r == totals
  {
    match ClosedDistance(ride)
    case None => totals
    case Some(d) =>
      var ps := GetParticipants(ride);
      Credit(totals, ps, d / (|ps| as real))
  }

  /** The amount one ride adds to key `k`: one equal share per occurrence of
      `k` among the participants, nothing for a ride that does not count. */
  function RideShareOf(ride: Ride, k: UserId): real {
    match ClosedDistance(ride)
    case None => 0.0
    case Some(d) =>
      var ps := GetParticipants(ride);
      Times(Count(ps, k), d / (|ps| as real))
  }

  /** One ride: participants gain their shares, every other key keeps its
      value, and no entry ever decreases. */
  lemma RideSharesAt(totals: map<UserId, real>, ride: Ride, k: UserId)
    ensures Get(WithRideShares(totals, ride), k) == Get(totals, k) + RideShareOf(ride, k)
    ensures k !in GetParticipants(ride) ==> Get(WithRideShares(totals, ride), k) == Get(totals, k)
    ensures Get(WithRideShares(totals, ride), k) >= Get(totals, k)
    ensures k in WithRideShares(totals, ride) <==>
              k in totals || (ClosedDistance(ride).Some? && k in GetParticipants(ride))
  {
    var ps := GetParticipants(ride);
    CountZero(ps, k);
    match ClosedDistance(ride)
    case None =>
    case Some(d) =>
      CreditAt(totals, ps, d / (|ps| as real), k);
  }

  /** One counted ride adds exactly its distance to the sum of all entries;
      a ride that does not count adds nothing. */
  lemma RideSharesConserve(totals: map<UserId, real>, ride: Ride)
    ensures MapSum(WithRideShares(totals, ride)) == MapSum(totals) + ClosedDistance(ride).GetOr(0.0)
  {
    match ClosedDistance(ride)
    case None =>
    case Some(d) =>
      var ps := GetParticipants(ride);
      var n := |ps| as real;
      CreditSum(totals, ps, d / n);
      TimesIsProduct(|ps|, d / n);
      assert n * (d / n) == d;
  }

  /** A ride 0 -> 90 km shared by three people gives each of them 30 km. */
  lemma ThreeWaySplit(a: UserId, b: UserId, c: UserId)
    requires a != b && b != c && a != c
    ensures var ride := Ride("r", a, [a, b, c], 0.0, Some(90.0), 0, Some(1), None, None);
            var m := WithRideShares(map[a := 0.0, b := 0.0, c := 0.0], ride);
            m == map[a := 30.0, b := 30.0, c := 30.0]
  {
    var ride := Ride("r", a, [a, b, c], 0.0, Some(90.0), 0, Some(1), None, None);
    var m0 := map[a := 0.0, b := 0.0, c := 0.0];
    var ps := [a, b, c];
    assert GetParticipants(ride) == ps;
    assert ClosedDistance(ride) == Some(90.0);
    assert 90.0 / (|ps| as real) == 30.0;
    assert ps[..2] == [a, b] && [a, b][..1] == [a] && [a][..0] == [];
    CreditLast(m0, [a], 30.0);
    CreditLast(m0, [a, b], 30.0);
    CreditLast(m0, ps, 30.0);
    assert Credit(m0, [a], 30.0) == m0[a := 30.0];
    assert Credit(m0, [a, b], 30.0) == m0[a := 30.0][b := 30.0];
    assert Credit(m0, ps, 30.0) == m0[a := 30.0][b := 30.0][c := 30.0];
  }

  /** `Object.fromEntries(allUserIds.map((id) => [id, 0]))` */
  function InitialTotals(ids: seq<UserId>): (m: map<UserId, real>)
    ensures forall k :: k in m <==> k in ids
    ensures forall k | k in m :: m[k] == 0.0
  {
    map k | k in ids :: 0.0
  }

  /** The map after feeding `rides` in order to `addRideKmShares`. */
  function FoldShares(totals: map<UserId, real>, rides: seq<Ride>): map<UserId, real> {
    if rides == [] then totals
    else WithRideShares(FoldShares(totals, rides[..|rides| - 1]), rides[|rides| - 1])
  }

  /** What `computeKmByUser(rides, allUserIds)` returns. */
  function KmByUser(rides: seq<Ride>, ids: seq<UserId>): map<UserId, real> {
    FoldShares(InitialTotals(ids), rides)
  }

  /** The km attributed to `k` across all rides, summed ride by ride. */
  function UserShare(rides: seq<Ride>, k: UserId): real {
    if rides == [] then 0.0
    else UserShare(rides[..|rides| - 1], k) + RideShareOf(rides[|rides| - 1], k)
  }

  /** `k` is a participant of some counted ride. */
  ghost predicate TakesPart(rides: seq<Ride>, k: UserId) {
    exists i | 0 <= i < |rides| :: ClosedDistance(rides[i]).Some? && k in GetParticipants(rides[i])
  }

  lemma {:induction false} FoldSharesAt(totals: map<UserId, real>, rides: seq<Ride>, k: UserId)
    ensures Get(FoldShares(totals, rides), k) == Get(totals, k) + UserShare(rides, k)
    ensures k in FoldShares(totals, rides) <==> k in totals || TakesPart(rides, k)
  {
    if rides != [] {
      var n := |rides| - 1;
      FoldSharesAt(totals, rides[..n], k);
      RideSharesAt(FoldShares(totals, rides[..n]), rides[n], k);
      assert forall i | 0 <= i < n :: rides[..n][i] == rides[i];
      if TakesPart(rides, k) && !TakesPart(rides[..n], k) {
        assert ClosedDistance(rides[n]).Some? && k in GetParticipants(rides[n]);
      }
    }
  }

  /** `computeKmByUser` has an entry for every known user and for every
      participant of a counted ride, and nothing else; each entry is the
      user's summed shares. */
  lemma KmByUserAt(rides: seq<Ride>, ids: seq<UserId>, k: UserId)
    ensures k in KmByUser(rides, ids) <==> k in ids || TakesPart(rides, k)
    ensures Get(KmByUser(rides, ids), k) == UserShare(rides, k)
  {
    FoldSharesAt(InitialTotals(ids), rides, k);
  }

  /** A user who takes part in no counted ride has 0 km. */
  lemma {:induction false} IdleUserHasNoKm(rides: seq<Ride>, k: UserId)
    requires !TakesPart(rides, k)
    ensures UserShare(rides, k) == 0.0
  {
    if rides != [] {
      var n := |rides| - 1;
      forall i | 0 <= i < n
        ensures !(ClosedDistance(rides[..n][i]).Some? && k in GetParticipants(rides[..n][i]))
      {
        assert rides[..n][i] == rides[i];
      }
      IdleUserHasNoKm(rides[..n], k);
      CountZero(GetParticipants(rides[n]), k);
    }
  }

  /** Conservation: every km of every counted ride is attributed to exactly
      one entry, so all entries sum to the total counted distance. */
  lemma {:induction false} FoldSharesConserve(totals: map<UserId, real>, rides: seq<Ride>)
    ensures MapSum(FoldShares(totals, rides)) == MapSum(totals) + TotalDistance(rides)
  {
    if rides != [] {
      var n := |rides| - 1;
      FoldSharesConserve(totals, rides[..n]);
      RideSharesConserve(FoldShares(totals, rides[..n]), rides[n]);
    }
  }

  lemma KmByUserConserves(rides: seq<Ride>, ids: seq<UserId>)
    ensures MapSum(KmByUser(rides, ids)) == TotalDistance(rides)
  {
    MapSumZero(InitialTotals(ids));
    FoldSharesConserve(InitialTotals(ids), rides);
  }

  /** The `totals` record that `addRideKmShares` mutates in place. */
  class KmTotals {
    var byUser: map<UserId, real>

    constructor (ids: seq<UserId>)
      ensures byUser == InitialTotals(ids)
    {
      byUser := map k | k in ids :: 0.0;
    }

    method AddRideKmShares(ride: Ride)
      modifies this
      ensures byUser == WithRideShares(old(byUser), ride)
    {
      if ride.endKm.None? {
        return;
      }
      var distance := ride.endKm.value - ride.startKm;
      if distance <= 0.0 {
        return;
      }
      var participants := GetParticipants(ride);
      var share := distance / (|participants| as real);
      for i := 0 to |participants|
        invariant byUser == Credit(old(byUser), participants[..i], share)
      {
        var pid := participants[i];
        byUser := byUser[pid := Get(byUser, pid) + share];
        assert participants[..i + 1][..i] == participants[..i];
      }
      assert participants[..|participants|] == participants;
    }
  }

  method ComputeKmByUser(rides: seq<Ride>, allUserIds: seq<UserId>) returns (totals: map<UserId, real>)
    ensures totals == KmByUser(rides, allUserIds)
  {
    var t := new KmTotals(allUserIds);
    for i := 0 to |rides|
      invariant t.byUser == FoldShares(InitialTotals(allUserIds), rides[..i])
    {
      t.AddRideKmShares(rides[i]);
      assert rides[..i + 1][..i] == rides[..i];
    }
    assert rides[..|rides|] == rides;
    totals := t.byUser;
  }
}
