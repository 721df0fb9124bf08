/** The local-only store of the earlier client (src/dataStore.ts): every
    mutation builds a new snapshot (append or replace-by-id), saves it, and
    notifies every listener once with the new snapshot. */
module LegacyStore {
  import opened Wrappers
  import opened Domain
  import opened Listeners
  import opened LegacyDomain

  function DefaultLegacyState(): (st: LegacyState)
    ensures st.rides == [] && st.costs == [] && st.wearPayments == []
    ensures st.config.wearRatePerKm == 0.2
  {
    LegacyState([], [], [], AppConfig(0.2))
  }

  /** `state.rides.map((r) => (r.id === updated.id ? updated : r))`. */
  function ReplaceById(rides: seq<LegacyRide>, updated: LegacyRide): (r: seq<LegacyRide>)
    ensures |r| == |rides|
    ensures forall i | 0 <= i < |rides| :: r[i] == (if rides[i].id == updated.id then updated else rides[i])
  {
    seq(|rides|, i requires 0 <= i < |rides| => if rides[i].id == updated.id then updated else rides[i])
  }

  /** An unknown id changes nothing; replacing with the same ride changes
      nothing; a second replacement by the same id overrides the first. */
  lemma ReplaceByIdProperties(rides: seq<LegacyRide>, updated: LegacyRide, later: LegacyRide)
    requires later.id == updated.id
    ensures (forall i | 0 <= i < |rides| :: rides[i].id != updated.id) ==> ReplaceById(rides, updated) == rides
    ensures updated in rides && (forall i | 0 <= i < |rides| && rides[i].id == updated.id :: rides[i] == updated)
            ==> ReplaceById(rides, updated) == rides
    ensures ReplaceById(ReplaceById(rides, updated), later) == ReplaceById(rides, later)
  {
  }

  /** A ride added and then updated by id is the updated ride, at the end. */
  lemma AddThenUpdate(rides: seq<LegacyRide>, ride: LegacyRide, updated: LegacyRide)
    requires updated.id == ride.id
    requires forall i | 0 <= i < |rides| :: rides[i].id != ride.id
    ensures ReplaceById(rides + [ride], updated) == rides + [updated]
  {
    var r := ReplaceById(rides + [ride], updated);
    assert forall i | 0 <= i < |rides| :: r[i] == rides[i];
  }

  class Store {
    var state: LegacyState
    var listeners: seq<ListenerId>
    /** Every listener call made so far, in order. */
    var delivered: seq<Delivery<LegacyState>>

    /** `let state = load()`: the saved snapshot when there is one that
        parses, else the default. */
    constructor (saved: Option<LegacyState>)
      ensures state == saved.GetOr(DefaultLegacyState())
      ensures listeners == [] && delivered == []
    {
      state := saved.GetOr(DefaultLegacyState());
      listeners := [];
      delivered := [];
    }

    method Notify()
      modifies this`delivered
      ensures delivered == old(delivered) + Deliveries(listeners, state)
    {
      var i := 0;
      while i < |listeners|
        invariant 0 <= i <= |listeners|
        invariant delivered == old(delivered) + Deliveries(listeners[..i], state)
      {
        assert listeners[..i + 1][..i] == listeners[..i];
        delivered := delivered + [Delivery(listeners[i], state)];
        i := i + 1;
      }
      assert listeners[..i] == listeners;
    }

    method GetState() returns (s: LegacyState)
      ensures s == state
    {
      s := state;
    }

    method Subscribe(l: ListenerId)
      modifies this`listeners, this`delivered
      ensures listeners == old(listeners) + [l]
      ensures delivered == old(delivered) + [Delivery(l, state)]
    {
      listeners := listeners + [l];
      delivered := delivered + [Delivery(l, state)];
    }

    method Unsubscribe(l: ListenerId)
      modifies this`listeners
      ensures listeners == Unsubscribed(old(listeners), l)
    {
      var idx := IndexOf(listeners, l);
      if idx >= 0 {
        listeners := listeners[..idx] + listeners[idx + 1..];
      }
    }

    method AddRide(ride: LegacyRide)
      modifies this`state, this`delivered
      ensures state == old(state).(rides := old(state.rides) + [ride])
      ensures delivered == old(delivered) + Deliveries(listeners, state)
    {
      state := state.(rides := state.rides + [ride]);
      Notify();
    }

    method UpdateRide(updated: LegacyRide)
      modifies this`state, this`delivered
      ensures state == old(state).(rides := ReplaceById(old(state.rides), updated))
      ensures delivered == old(delivered) + Deliveries(listeners, state)
    {
      state := state.(rides := ReplaceById(state.rides, updated));
      Notify();
    }

    method AddCost(cost: CostEvent)
      modifies this`state, this`delivered
      ensures state == old(state).(costs := old(state.costs) + [cost])
      ensures delivered == old(delivered) + Deliveries(listeners, state)
    {
      state := state.(costs := state.costs + [cost]);
      Notify();
    }

    method AddWearPayment(payment: WearPayment)
      modifies this`state, this`delivered
      ensures state == old(state).(wearPayments := old(state.wearPayments) + [payment])
      ensures delivered == old(delivered) + Deliveries(listeners, state)
    {
      state := state.(wearPayments := state.wearPayments + [payment]);
      Notify();
    }

    method UpdateConfig(patch: ConfigPatch)
      modifies this`state, this`delivered
      ensures state == old(state).(config := MergeConfig(old(state.config), patch))
      ensures delivered == old(delivered) + Deliveries(listeners, state)
    {
      state := state.(config := MergeConfig(state.config, patch));
      Notify();
    }
  }
}
