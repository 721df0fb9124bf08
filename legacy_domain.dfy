/** The records of the earlier, local-only client (src/types.ts). Costs,
    wear payments and the configuration have the same shape as in the web
    client; rides carry no participants, and a ride without `endKm` is open. */
module LegacyDomain {
  import opened Wrappers
  import opened Sums
  import opened Domain
  import RideShares

  datatype LegacyRide = LegacyRide(
    id: string,
    userId: UserId,
    startKm: real,
    endKm: Option<real>,
    startedAt: int,
    endedAt: Option<int>)
  {
    predicate IsOpen() { endKm.None? }
  }

  datatype LegacyState = LegacyState(
    rides: seq<LegacyRide>,
    costs: seq<CostEvent>,
    wearPayments: seq<WearPayment>,
    config: AppConfig)

  const LEGACY_USERS: seq<User> := [
    User("alice", "Alice"),
    User("bob", "Bob"),
    User("charlie", "Charlie")
  ]

  lemma LegacyRosterWellFormed()
    ensures |LEGACY_USERS| == 3
    ensures Distinct(UserIds(LEGACY_USERS))
  {
  }

  /** A legacy ride read as a web-client ride: no participants, no end position. */
  function AsRide(r: LegacyRide): (ride: Ride) {
    Ride(r.id, r.userId, [], r.startKm, r.endKm, r.startedAt, r.endedAt, None, None)
  }

  /** Such a ride is open exactly when the legacy ride is, counts for the
      same distance, and its whole distance goes to the driver. */
  lemma LegacyRideCountsForDriver(r: LegacyRide, totals: map<UserId, real>)
    ensures AsRide(r).IsOpen() <==> r.IsOpen()
    ensures RideShares.GetParticipants(AsRide(r)) == [r.userId]
    ensures Get(RideShares.WithRideShares(totals, AsRide(r)), r.userId)
         == Get(totals, r.userId) + ClosedDistance(AsRide(r)).GetOr(0.0)
  {
    RideShares.RideSharesAt(totals, AsRide(r), r.userId);
    match ClosedDistance(AsRide(r))
    case None =>
    case Some(d) =>
      assert Count([r.userId], r.userId) == 1 by {
        assert [r.userId][..0] == [];
      }
      TimesIsProduct(1, d / 1.0);
  }
}
