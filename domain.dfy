/** The web client's records (apps/web/src/types.ts): rides with
    participants, variable costs, wear-reserve payments, the single
    configuration value, the snapshot that bundles them, and the fixed roster. */
module Domain {
  import opened Wrappers
  import opened Sums

  type UserId = string

  datatype User = User(id: UserId, name: string)

  /** A ride between two odometer readings. `endKm == None` (null) means the
      ride is still open. `participantIds` may be empty in legacy data.
      `endLat`/`endLng` are optional and nullable; both absent and null are `None`. */
  datatype Ride = Ride(
    id: string,
    userId: UserId,
    participantIds: seq<UserId>,
    startKm: real,
    endKm: Option<real>,
    startedAt: int,
    endedAt: Option<int>,
    endLat: Option<real>,
    endLng: Option<real>)
  {
    predicate IsOpen() { endKm.None? }
  }

  datatype CostType = Fuel | Insurance | Other

  datatype CostEvent = CostEvent(
    id: string,
    userId: UserId,
    amount: real,
    costType: CostType,
    description: Option<string>,
    createdAt: int)

  datatype WearPayment = WearPayment(id: string, userId: UserId, amount: real, createdAt: int)

  datatype AppConfig = AppConfig(wearRatePerKm: real)

  /** `Partial<AppConfig>`: the fields an `updateConfig` call sets. */
  datatype ConfigPatch = ConfigPatch(wearRatePerKm: Option<real>)

  /** `{ ...config, ...patch }`: a given field overrides, a missing one is kept. */
  function MergeConfig(config: AppConfig, patch: ConfigPatch): (r: AppConfig)
    ensures patch.wearRatePerKm.Some? ==> r.wearRatePerKm == patch.wearRatePerKm.value
    ensures patch.wearRatePerKm.None? ==> r == config
  {
    AppConfig(patch.wearRatePerKm.GetOr(config.wearRatePerKm))
  }

  /** Two merges in a row are one merge in which the later patch wins. */
  lemma MergeConfigTwice(config: AppConfig, p: ConfigPatch, q: ConfigPatch)
    ensures MergeConfig(MergeConfig(config, p), q)
         == MergeConfig(config, ConfigPatch(if q.wearRatePerKm.Some? then q.wearRatePerKm else p.wearRatePerKm))
  {
  }

  datatype State = State(
    rides: seq<Ride>,
    costs: seq<CostEvent>,
    wearPayments: seq<WearPayment>,
    config: AppConfig)

  /** The hard-coded roster; its order is the order of the settlement summaries. */
  const USERS: seq<User> := [
    User("jeroen", "Jeroen"),
    User("stijn", "Stijn"),
    User("silke", "Silke"),
    User("hanne", "Hanne"),
    User("hella", "Hella")
  ]

  function UserIds(users: seq<User>): (ids: seq<UserId>)
    ensures |ids| == |users|
    ensures forall i | 0 <= i < |users| :: ids[i] == users[i].id
  {
    seq(|users|, i requires 0 <= i < |users| => users[i].id)
  }

  lemma RosterWellFormed()
    ensures |USERS| == 5
    ensures Distinct(UserIds(USERS))
    ensures forall i | 0 <= i < |USERS| :: USERS[i].id != ""
  {
  }

  /** The distance a ride counts for in every total: only a closed ride whose
      end reading is strictly above its start reading counts; any other ride
      is skipped without error. */
  function ClosedDistance(r: Ride): (d: Option<real>)
    ensures d.Some? <==> !r.IsOpen() && r.endKm.value > r.startKm
    ensures d.Some? ==> d.value > 0.0 && r.startKm + d.value == r.endKm.value
  {
    match r.endKm
    case None => None
    case Some(e) => if e - r.startKm <= 0.0 then None else Some(e - r.startKm)
  }

  /** The summed distance of every counted ride, whoever drove it. */
  function TotalDistance(rides: seq<Ride>): real {
    if rides == [] then 0.0
    else TotalDistance(rides[..|rides| - 1]) + ClosedDistance(rides[|rides| - 1]).GetOr(0.0)
  }

  lemma {:induction false} TotalDistanceNonNegative(rides: seq<Ride>)
    ensures TotalDistance(rides) >= 0.0
    ensures TotalDistance(rides) == 0.0 <==> forall i | 0 <= i < |rides| :: ClosedDistance(rides[i]).None?
  {
    if rides != [] {
      var n := |rides| - 1;
      TotalDistanceNonNegative(rides[..n]);
      assert forall i | 0 <= i < n :: rides[..n][i] == rides[i];
    }
  }
}
