/** The engine as the indicator object runs it: a mutable position state per
    computation, order maps updated in place and shared between a replay's
    cache and the online adapters, the instrument registry that supplies
    pips, the batch replay and the online adapter. Each method is proved
    against the value-level model in Positions and OrderFlow. */
module AveragePrice {
  import opened Events
  import opened Positions
  import opened OrderFlow

  /** `CurrentState`: the position of one computation, updated in place. */
  class CurrentState {
    const pips: Pips
    /** The average entry price; None is NaN. */
    var avgPrice: Option<real>
    /** The signed net position (`positon` in the source). */
    var position: Int32

    /** The position this state holds, as a value. */
    function Current(): Position
      reads this
    {
      Position(position, avgPrice)
    }

    /** `getLineY`. */
    function LineY(): Option<real>
      reads this
    {
      Positions.LineY(Current(), pips)
    }

    constructor(pips: Pips)
      ensures this.pips == pips && Current() == Flat
    {
      this.pips := pips;
      avgPrice := Some(0.0);
      position := 0;
    }
  }

  /** `updateState(state, executionInfo, orderIdToIsBuy)`: applies an
      execution to the state in place; an order with no recorded side is only
      logged. */
  method UpdateState(state: CurrentState, e: ExecutionInfo, orderIdToIsBuy: map<string, bool>)
    modifies state
    ensures state.Current() == Execute(old(state.Current()), e, orderIdToIsBuy)
  {
    if e.orderId in orderIdToIsBuy {
      var isBuy := orderIdToIsBuy[e.orderId];
      var positionDelta: int := e.size;
      if !isBuy {
        positionDelta := -positionDelta;
      }
      var newPosition := Wrap32(state.position + positionDelta);
      if !IsChangeSign(state.position, newPosition) {
        if (state.position >= 0 && isBuy) || (state.position <= 0 && !isBuy) {
          state.avgPrice := WeightedMean(state.position, state.avgPrice, e.price, positionDelta, newPosition);
          state.position := newPosition;
        } else {
          state.position := newPosition;
        }
      } else {
        state.avgPrice := Some(e.price);
        state.position := newPosition;
      }
    }
  }

  /** The two order maps of one instrument, updated in place; a replay caches
      the object and online adapters keep a reference to it. */
  class OrderRegistry {
    var orderIdToIsBuy: map<string, bool>
    var orderIdToAlias: map<string, string>

    /** The maps this registry holds, as a value. */
    function Orders(): OrderMaps
      reads this
    {
      OrderMaps(orderIdToIsBuy, orderIdToAlias)
    }

    constructor()
      ensures Orders() == NoOrders
    {
      orderIdToIsBuy := map[];
      orderIdToAlias := map[];
    }

    /** The two `put`s of an order update. */
    method Put(u: OrderInfoUpdate)
      modifies this
      ensures Orders() == Record(old(Orders()), u)
    {
      orderIdToIsBuy := orderIdToIsBuy[u.orderId := u.isBuy];
      orderIdToAlias := orderIdToAlias[u.orderId := u.instrumentAlias];
    }
  }

  /** `updateState(alias, state, aggregationEvent, ...)`: dispatches one
      bucket in order; false where the source throws on an unknown event,
      with the effects of the events before it kept. */
  method UpdateStateFromBucket(alias: string, state: CurrentState, bucket: seq<OrderEvent>, registry: OrderRegistry)
    returns (ok: bool)
    modifies state, registry
    ensures Outcome(Snapshot(registry.Orders(), state.Current()), ok)
      == Run(alias, Snapshot(old(registry.Orders()), old(state.Current())), bucket)
  {
    ghost var start := Snapshot(registry.Orders(), state.Current());
    var i := 0;
    while i < |bucket|
      invariant 0 <= i <= |bucket|
      invariant Run(alias, start, bucket) == Run(alias, Snapshot(registry.Orders(), state.Current()), bucket[i..])
    {
      ghost var here := Snapshot(registry.Orders(), state.Current());
      assert bucket[i..][0] == bucket[i] && bucket[i..][1..] == bucket[i + 1..];
      match bucket[i] {
        case OrderUpdated(u) =>
          registry.Put(u);
        case OrderExecuted(e) =>
          if e.orderId in registry.orderIdToAlias && registry.orderIdToAlias[e.orderId] == alias {
            UpdateState(state, e, registry.orderIdToIsBuy);
          }
        case Unrecognized =>
          return false;
      }
      assert Step(alias, here, bucket[i]) == Some(Snapshot(registry.Orders(), state.Current()));
      i := i + 1;
    }
    return true;
  }

  /** An online adapter: it closes over its instrument, the shared order maps
      and its own state, and `emitted` is what its listener has received. */
  class OnlineCalculator {
    const alias: string
    const registry: OrderRegistry
    const state: CurrentState
    var emitted: seq<Option<real>>

    constructor(alias: string, registry: OrderRegistry, state: CurrentState)
      ensures this.alias == alias && this.registry == registry && this.state == state
      ensures emitted == []
    {
      this.alias := alias;
      this.registry := registry;
      this.state := state;
      emitted := [];
    }

    /** `onOrderUpdated`: records the update in the shared maps, emits nothing
      and leaves the state alone. */
    method OnOrderUpdated(u: OrderInfoUpdate)
      modifies registry
      ensures Step(alias, Snapshot(old(registry.Orders()), state.Current()), OrderUpdated(u))
        == Some(Snapshot(registry.Orders(), state.Current()))
    {
      registry.Put(u);
    }

    /** `onOrderExecuted`: an execution of an order of this instrument updates
      the state and pushes exactly one display value; any other is ignored. */
    method OnOrderExecuted(e: ExecutionInfo)
      modifies this, state
      ensures Step(alias, Snapshot(registry.Orders(), old(state.Current())), OrderExecuted(e))
        == Some(Snapshot(registry.Orders(), state.Current()))
      ensures emitted == if Owns(registry.Orders(), alias, e.orderId) then old(emitted) + [state.LineY()] else old(emitted)
    {
      if e.orderId in registry.orderIdToAlias && registry.orderIdToAlias[e.orderId] == alias {
        UpdateState(state, e, registry.orderIdToIsBuy);
        emitted := emitted + [state.LineY()];
      }
    }
  }

  /** The body of `calculateValuesInRange` once the pips are known: fresh
      maps and a fresh state, bucket 0 dispatched silently, then each bucket
      1..n dispatched and followed by the display value pushed to the
      listener; it stops at the first unknown event. */
  method ReplayRange(alias: string, pips: Pips, intervalsNumber: nat, buckets: seq<seq<OrderEvent>>)
    returns (values: seq<Option<real>>, ok: bool, registry: OrderRegistry)
    requires |buckets| == intervalsNumber + 1
    ensures fresh(registry)
    ensures var r := Replay(alias, pips, buckets);
      values == r.values && ok == r.ok && registry.Orders() == r.snap.orders
  {
    registry := new OrderRegistry();
    var state := new CurrentState(pips);
    ok := UpdateStateFromBucket(alias, state, buckets[0], registry);
    values := [];
    if !ok {
      return;
    }
    var i := 1;
    while i <= intervalsNumber
      invariant 1 <= i <= intervalsNumber + 1
      invariant fresh(registry) && fresh(state) && state.pips == pips
      invariant Replay(alias, pips, buckets)
        == Continued(values, EmitAll(alias, pips, Snapshot(registry.Orders(), state.Current()), buckets[i..]))
    {
      ghost var here := Snapshot(registry.Orders(), state.Current());
      assert buckets[i..][0] == buckets[i] && buckets[i..][1..] == buckets[i + 1..];
      ok := UpdateStateFromBucket(alias, state, buckets[i], registry);
      EmitAllStep(alias, pips, here, buckets[i..], Outcome(Snapshot(registry.Orders(), state.Current()), ok), values);
      if !ok {
        return;
      }
      values := values + [state.LineY()];
      i := i + 1;
    }
    assert buckets[i..] == [];
    assert values + [] == values;
  }

  /** The tail of `createOnlineValueCalculator`: a fresh state seeded from
      one bucket with the given maps, and an adapter over those maps and that
      state; null where the bucket holds an unknown event. */
  method SeedAdapter(alias: string, pips: Pips, registry: OrderRegistry, bucket: seq<OrderEvent>)
    returns (adapter: OnlineCalculator?)
    modifies registry
    ensures var seed := Run(alias, Snapshot(old(registry.Orders()), Flat), bucket);
      && registry.Orders() == seed.snap.orders
      && (adapter != null <==> seed.ok)
      && (adapter != null ==>
            && fresh(adapter) && fresh(adapter.state)
            && adapter.alias == alias && adapter.registry == registry
            && adapter.state.pips == pips && adapter.state.Current() == seed.snap.position
            && adapter.emitted == [])
  {
    var state := new CurrentState(pips);
    var ok := UpdateStateFromBucket(alias, state, bucket, registry);
    if !ok {
      return null;
    }
    adapter := new OnlineCalculator(alias, registry, state);
  }

  /** The indicator: the instrument registry's pips and the order maps cached
      per instrument by the last completed replay. */
  class AveragePositionPriceDemo {
    var pipsMap: map<string, Pips>
    var aliasToOrders: map<string, OrderRegistry>

    /** Every instrument owns its order maps: no two instruments share one
        registry, since each cache entry is a map created for that instrument. */
    predicate Valid()
      reads this
    {
      forall x, y :: x in aliasToOrders && y in aliasToOrders && x != y ==> aliasToOrders[x] != aliasToOrders[y]
    }

    constructor()
      ensures Valid()
      ensures pipsMap == map[] && aliasToOrders == map[]
    {
      pipsMap := map[];
      aliasToOrders := map[];
    }

    /** `onInstrumentAdded`: records the instrument's pips. */
    method OnInstrumentAdded(alias: string, pips: Pips)
      requires Valid()
      modifies this
      ensures Valid()
      ensures pipsMap == old(pipsMap)[alias := pips] && aliasToOrders == old(aliasToOrders)
    {
      pipsMap := pipsMap[alias := pips];
    }

    /** `onInstrumentRemoved`: forgets the pips only; the cached maps stay. */
    method OnInstrumentRemoved(alias: string)
      requires Valid()
      modifies this
      ensures Valid()
      ensures pipsMap == old(pipsMap) - {alias} && aliasToOrders == old(aliasToOrders)
    {
      pipsMap := pipsMap - {alias};
    }

    /** `calculateValuesInRange` over the host's `intervalsNumber + 1` buckets:
      fails with no output when the pips are unknown; otherwise its output is
      the replay's, and only a completed replay caches its fresh maps. */
    method CalculateValuesInRange(alias: string, intervalsNumber: nat, buckets: seq<seq<OrderEvent>>)
      returns (values: seq<Option<real>>, completed: bool)
      requires |buckets| == intervalsNumber + 1
      requires Valid()
      modifies this
      ensures Valid()
      ensures pipsMap == old(pipsMap)
      ensures alias !in pipsMap ==> values == [] && !completed
      ensures alias in pipsMap ==>
        var r := Replay(alias, pipsMap[alias], buckets);
        values == r.values && completed == r.ok
      ensures completed ==> |values| == intervalsNumber
      ensures completed ==>
        && alias in aliasToOrders && fresh(aliasToOrders[alias])
        && aliasToOrders == old(aliasToOrders)[alias := aliasToOrders[alias]]
        && aliasToOrders[alias].Orders() == Replay(alias, pipsMap[alias], buckets).snap.orders
      ensures !completed ==> aliasToOrders == old(aliasToOrders)
    {
      if alias !in pipsMap {
        return [], false;
      }
      var registry;
      values, completed, registry := ReplayRange(alias, pipsMap[alias], intervalsNumber, buckets);
      if completed {
        aliasToOrders := aliasToOrders[alias := registry];
      }
    }

    /** The order maps cached for an instrument, with empty ones created and
        cached first when there are none. */
    method CachedRegistry(alias: string) returns (registry: OrderRegistry)
      requires Valid()
      modifies this
      ensures Valid() && pipsMap == old(pipsMap)
      ensures alias in aliasToOrders && registry == aliasToOrders[alias]
      ensures alias in old(aliasToOrders) ==> aliasToOrders == old(aliasToOrders)
      ensures alias !in old(aliasToOrders) ==>
        && fresh(registry) && registry.Orders() == NoOrders
        && aliasToOrders == old(aliasToOrders)[alias := registry]
    {
      if alias !in aliasToOrders {
        var created := new OrderRegistry();
        aliasToOrders := aliasToOrders[alias := created];
      }
      registry := aliasToOrders[alias];
    }

    /** `createOnlineValueCalculator`: fails when the pips are unknown;
      otherwise takes the maps cached for the instrument (caching empty ones
      first if there are none), seeds a fresh state from one bucket with them,
      and returns an adapter over the same maps, or fails where the seeding
      bucket holds an unknown event (the maps keep what it recorded). */
    method CreateOnlineValueCalculator(alias: string, bucket: seq<OrderEvent>) returns (adapter: OnlineCalculator?)
      requires Valid()
      modifies this, if alias in aliasToOrders then {aliasToOrders[alias]} else {}
      ensures Valid()
      ensures forall b :: b in old(aliasToOrders) && b != alias ==>
        b in aliasToOrders && aliasToOrders[b] == old(aliasToOrders[b]) && aliasToOrders[b].Orders() == old(aliasToOrders[b].Orders())
      ensures pipsMap == old(pipsMap)
      ensures alias !in pipsMap ==> adapter == null && aliasToOrders == old(aliasToOrders)
      ensures alias !in pipsMap && alias in old(aliasToOrders) ==>
        aliasToOrders[alias].Orders() == old(aliasToOrders[alias].Orders())
      ensures alias in pipsMap ==>
        && alias in aliasToOrders
        && (alias in old(aliasToOrders) ==> aliasToOrders == old(aliasToOrders))
        && (alias !in old(aliasToOrders) ==>
              fresh(aliasToOrders[alias]) && aliasToOrders == old(aliasToOrders)[alias := aliasToOrders[alias]])
        && var seed := Run(alias, Snapshot(if alias in old(aliasToOrders) then old(aliasToOrders[alias].Orders()) else NoOrders, Flat), bucket);
          && aliasToOrders[alias].Orders() == seed.snap.orders
          && (adapter != null <==> seed.ok)
          && (adapter != null ==>
                && fresh(adapter) && fresh(adapter.state)
                && adapter.alias == alias && adapter.registry == aliasToOrders[alias]
                && adapter.state.pips == pipsMap[alias] && adapter.state.Current() == seed.snap.position
                && adapter.emitted == [])
    {
      if alias !in pipsMap {
        return null;
      }
      var pips := pipsMap[alias];
      var registry := CachedRegistry(alias);
      assert forall b :: b in aliasToOrders && b != alias ==> aliasToOrders[b] != registry;
      adapter := SeedAdapter(alias, pips, registry, bucket);
    }
  }
}
