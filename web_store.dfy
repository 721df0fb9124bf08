/** The web client's server-backed store (apps/web/src/dataStore.ts): a
    snapshot, a loaded flag and a listener registry. The snapshot is replaced
    as a whole by each successful load; the mutating calls only send a
    request and reload. A load (`api.getState()`) is one atomic step whose
    outcome is a parameter: `None` when the request fails. */
module WebStore {
  import opened Wrappers
  import opened Domain
  import opened Listeners

  /** `participantIds` as the backend may send it: already a list, JSON text,
      or anything else (absent, null, a number, ...). */
  datatype RawIds = IdList(ids: seq<UserId>) | IdText(text: string) | OtherValue

  /** `JSON.parse` restricted to what `parseParticipantIds` keeps: `Some(a)`
      when the text parses to an array `a`, `None` when it throws or parses
      to anything else. */
  type JsonIdList = string -> Option<seq<UserId>>

  /** A ride row as it arrives from the backend. */
  datatype RawRide = RawRide(
    id: string,
    userId: UserId,
    participantIds: RawIds,
    startKm: real,
    endKm: Option<real>,
    startedAt: int,
    endedAt: Option<int>,
    endLat: Option<real>,
    endLng: Option<real>)

  /** The `/api/state` response; `rides` may be missing. */
  datatype BackendState = BackendState(
    rides: Option<seq<RawRide>>,
    costs: seq<CostEvent>,
    wearPayments: seq<WearPayment>,
    config: AppConfig)

  function ParseParticipantIds(value: RawIds, parse: JsonIdList): (ids: seq<UserId>)
    ensures value.IdList? ==> ids == value.ids
    ensures value.IdText? && parse(value.text).Some? ==> ids == parse(value.text).value
    ensures value.IdText? && parse(value.text).None? ==> ids == []
    ensures value.OtherValue? ==> ids == []
  {
    match value
    case IdList(ids) => ids
    case IdText(text) => parse(text).GetOr([])
    case OtherValue => []
  }

  /** `normalizeRide`: only the participants are rewritten; whether the
      ride is open is decided by `endKm` alone. */
  function NormalizeRide(r: RawRide, parse: JsonIdList): (ride: Ride)
    ensures ride.participantIds == ParseParticipantIds(r.participantIds, parse)
    ensures && ride.id == r.id && ride.userId == r.userId && ride.startKm == r.startKm
            && ride.endKm == r.endKm && ride.startedAt == r.startedAt && ride.endedAt == r.endedAt
            && ride.endLat == r.endLat && ride.endLng == r.endLng
    ensures ride.IsOpen() <==> r.endKm.None?
  {
    Ride(r.id, r.userId, ParseParticipantIds(r.participantIds, parse), r.startKm, r.endKm,
         r.startedAt, r.endedAt, r.endLat, r.endLng)
  }

  /** A ride as the backend would send it with its participants as a list. */
  function AsRaw(ride: Ride): RawRide {
    RawRide(ride.id, ride.userId, IdList(ride.participantIds), ride.startKm, ride.endKm,
            ride.startedAt, ride.endedAt, ride.endLat, ride.endLng)
  }

  /** Normalising keeps every field of a ride that already has the client's
      shape, open rides (null `endKm`) included, and keeps a null `endedAt`,
      `endLat` or `endLng` null. */
  lemma NormalizeRideKeepsRide(ride: Ride, parse: JsonIdList)
    ensures NormalizeRide(AsRaw(ride), parse) == ride
    ensures NormalizeRide(AsRaw(ride), parse).IsOpen() <==> ride.IsOpen()
  {
  }

  /** Participants sent as JSON text of a list come out as that list; text
      that does not parse to a list gives no participants, so the ride falls
      back to its initiator in every distance split. */
  lemma NormalizeRideParsesText(r: RawRide, parse: JsonIdList)
    requires r.participantIds.IdText?
    ensures var ride := NormalizeRide(r, parse);
            && (parse(r.participantIds.text).Some? ==> ride.participantIds == parse(r.participantIds.text).value)
            && (parse(r.participantIds.text).None? ==> ride.participantIds == [])
            && ride.id == r.id && ride.userId == r.userId && ride.startKm == r.startKm
            && ride.endKm == r.endKm && ride.startedAt == r.startedAt && ride.endedAt == r.endedAt
  {
  }

  /** `{ ...backendState, rides: (backendState.rides ?? []).map(normalizeRide) }`. */
  function Normalized(b: BackendState, parse: JsonIdList): (st: State)
    ensures |st.rides| == |b.rides.GetOr([])|
    ensures forall i | 0 <= i < |st.rides| :: st.rides[i] == NormalizeRide(b.rides.GetOr([])[i], parse)
    ensures st.costs == b.costs && st.wearPayments == b.wearPayments && st.config == b.config
  {
    var raw := b.rides.GetOr([]);
    State(seq(|raw|, i requires 0 <= i < |raw| => NormalizeRide(raw[i], parse)), b.costs, b.wearPayments, b.config)
  }

  /** `defaultState`: nothing recorded, wear rate 0.2 per km. */
  function DefaultState(): (st: State)
    ensures st.rides == [] && st.costs == [] && st.wearPayments == []
    ensures st.config.wearRatePerKm == 0.2
  {
    State([], [], [], AppConfig(0.2))
  }

  /** A request the store sends through `api`. */
  datatype ApiCall =
    | CreateRide(ride: Ride)
    | PutRide(ride: Ride)
    | CreateCost(cost: CostEvent)
    | CreateWearPayment(payment: WearPayment)

  class DataStore {
    var state: State
    var isLoaded: bool
    var listeners: seq<ListenerId>
    /** Every listener call made so far, in order. */
    var delivered: seq<Delivery<State>>
    /** Every request sent so far, in order. */
    var sent: seq<ApiCall>

    constructor ()
      ensures state == DefaultState() && !isLoaded
      ensures listeners == [] && delivered == [] && sent == []
    {
      state := DefaultState();
      isLoaded := false;
      listeners := [];
      delivered := [];
      sent := [];
    }

    /** `notify`: each registered listener, in order, gets the current snapshot. */
    method Notify()
      modifies this`delivered
      ensures delivered == old(delivered) + Deliveries(listeners, state)
    {
      var i := 0;
      while i < |listeners|
        invariant 0 <= i <= |listeners|
        invariant delivered == old(delivered) + Deliveries(listeners[..i], state)
      {
        assert listeners[..i + 1][..i] == listeners[..i];
        delivered := delivered + [Delivery(listeners[i], state)];
        i := i + 1;
      }
      assert listeners[..i] == listeners;
    }

    /** `loadFromBackend` as one step: a response replaces the whole snapshot
        (rides normalised), marks the store loaded and notifies; a failure
        changes nothing. */
    method LoadFromBackend(response: Option<BackendState>, parse: JsonIdList)
      modifies this`state, this`isLoaded, this`delivered
      ensures response.None? ==> state == old(state) && isLoaded == old(isLoaded) && delivered == old(delivered)
      ensures response.Some? ==> && state == Normalized(response.value, parse) && isLoaded
                                 && delivered == old(delivered) + Deliveries(listeners, state)
    {
      match response
      case None =>
      case Some(backendState) =>
        state := Normalized(backendState, parse);
        isLoaded := true;
        Notify();
    }

    /** `getState`: the current snapshot, and whether it starts a load. */
    method GetState() returns (s: State, startsLoad: bool)
      ensures s == state && startsLoad == !isLoaded
    {
      s := state;
      startsLoad := !isLoaded;
    }

    /** `subscribe`: register `l`, call it once with the current snapshot, and
        start a load unless one has succeeded. */
    method Subscribe(l: ListenerId) returns (startsLoad: bool)
      modifies this`listeners, this`delivered
      ensures listeners == old(listeners) + [l]
      ensures delivered == old(delivered) + [Delivery(l, state)]
      ensures startsLoad == !isLoaded
    {
      listeners := listeners + [l];
      delivered := delivered + [Delivery(l, state)];
      startsLoad := !isLoaded;
    }

    /** The function `subscribe` returns. */
    method Unsubscribe(l: ListenerId)
      modifies this`listeners
      ensures listeners == Unsubscribed(old(listeners), l)
    {
      var idx := IndexOf(listeners, l);
      if idx >= 0 {
        listeners := listeners[..idx] + listeners[idx + 1..];
      }
    }

    method Refresh(response: Option<BackendState>, parse: JsonIdList)
      modifies this`state, this`isLoaded, this`delivered
      ensures response.None? ==> state == old(state) && isLoaded == old(isLoaded) && delivered == old(delivered)
      ensures response.Some? ==> && state == Normalized(response.value, parse) && isLoaded
                                 && delivered == old(delivered) + Deliveries(listeners, state)
    {
      LoadFromBackend(response, parse);
    }

    /** The shape of `addRide`, `updateRide`, `addCost` and `addWearPayment`:
        send the request; if it succeeds, reload. The snapshot is never
        edited locally. */
    method SendThenReload(call: ApiCall, apiOk: bool, response: Option<BackendState>, parse: JsonIdList)
      modifies this`state, this`isLoaded, this`delivered, this`sent
      ensures sent == old(sent) + [call]
      ensures !apiOk || response.None? ==> state == old(state) && isLoaded == old(isLoaded) && delivered == old(delivered)
      ensures apiOk && response.Some? ==> && state == Normalized(response.value, parse) && isLoaded
                                          && delivered == old(delivered) + Deliveries(listeners, state)
    {
      sent := sent + [call];
      if apiOk {
        LoadFromBackend(response, parse);
      }
    }

    method AddRide(ride: Ride, apiOk: bool, response: Option<BackendState>, parse: JsonIdList)
      modifies this`state, this`isLoaded, this`delivered, this`sent
      ensures sent == old(sent) + [CreateRide(ride)]
      ensures !apiOk || response.None? ==> state == old(state) && isLoaded == old(isLoaded) && delivered == old(delivered)
      ensures apiOk && response.Some? ==> && state == Normalized(response.value, parse) && isLoaded
                                          && delivered == old(delivered) + Deliveries(listeners, state)
    {
      SendThenReload(CreateRide(ride), apiOk, response, parse);
    }

    method UpdateRide(ride: Ride, apiOk: bool, response: Option<BackendState>, parse: JsonIdList)
      modifies this`state, this`isLoaded, this`delivered, this`sent
      ensures sent == old(sent) + [PutRide(ride)]
      ensures !apiOk || response.None? ==> state == old(state) && isLoaded == old(isLoaded) && delivered == old(delivered)
      ensures apiOk && response.Some? ==> && state == Normalized(response.value, parse) && isLoaded
                                          && delivered == old(delivered) + Deliveries(listeners, state)
    {
      SendThenReload(PutRide(ride), apiOk, response, parse);
    }

    method AddCost(cost: CostEvent, apiOk: bool, response: Option<BackendState>, parse: JsonIdList)
      modifies this`state, this`isLoaded, this`delivered, this`sent
      ensures sent == old(sent) + [CreateCost(cost)]
      ensures !apiOk || response.None? ==> state == old(state) && isLoaded == old(isLoaded) && delivered == old(delivered)
      ensures apiOk && response.Some? ==> && state == Normalized(response.value, parse) && isLoaded
                                          && delivered == old(delivered) + Deliveries(listeners, state)
    {
      SendThenReload(CreateCost(cost), apiOk, response, parse);
    }

    method AddWearPayment(payment: WearPayment, apiOk: bool, response: Option<BackendState>, parse: JsonIdList)
      modifies this`state, this`isLoaded, this`delivered, this`sent
      ensures sent == old(sent) + [CreateWearPayment(payment)]
      ensures !apiOk || response.None? ==> state == old(state) && isLoaded == old(isLoaded) && delivered == old(delivered)
      ensures apiOk && response.Some? ==> && state == Normalized(response.value, parse) && isLoaded
                                          && delivered == old(delivered) + Deliveries(listeners, state)
    {
      SendThenReload(CreateWearPayment(payment), apiOk, response, parse);
    }

    /** `updateConfig`: merge the patch into the local config only, and notify. */
    method UpdateConfig(patch: ConfigPatch)
      modifies this`state, this`delivered
      ensures state.rides == old(state.rides) && state.costs == old(state.costs)
      ensures state.wearPayments == old(state.wearPayments)
      ensures state.config == MergeConfig(old(state.config), patch)
      ensures delivered == old(delivered) + Deliveries(listeners, state)
    {
      state := state.(config := MergeConfig(state.config, patch));
      Notify();
    }
  }
}
