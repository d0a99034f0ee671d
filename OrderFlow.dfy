/** The event dispatcher and the batch replay, on values: the per-instrument
    order maps, how one bucket of order events drives a position, and the
    display values a replay over a range of buckets produces. */
module OrderFlow {
  import opened Events
  import opened Positions

  /** The two per-instrument maps: the side of every order seen so far, and
      the instrument each order belongs to. */
  datatype OrderMaps = OrderMaps(orderIdToIsBuy: map<string, bool>, orderIdToAlias: map<string, string>)

  /** The maps a replay starts from: nothing recorded yet. */
  const NoOrders := OrderMaps(map[], map[])

  /** An order update upserts the side and the owning instrument of its order. */
  function Record(m: OrderMaps, u: OrderInfoUpdate): (r: OrderMaps)
    ensures r.orderIdToIsBuy.Keys == m.orderIdToIsBuy.Keys + {u.orderId}
    ensures r.orderIdToAlias.Keys == m.orderIdToAlias.Keys + {u.orderId}
    ensures r.orderIdToIsBuy[u.orderId] == u.isBuy && r.orderIdToAlias[u.orderId] == u.instrumentAlias
    ensures forall id :: id in m.orderIdToIsBuy && id != u.orderId ==> r.orderIdToIsBuy[id] == m.orderIdToIsBuy[id]
    ensures forall id :: id in m.orderIdToAlias && id != u.orderId ==> r.orderIdToAlias[id] == m.orderIdToAlias[id]
  {
    OrderMaps(m.orderIdToIsBuy[u.orderId := u.isBuy], m.orderIdToAlias[u.orderId := u.instrumentAlias])
  }

  /** The latest update of an order wins: recording a second update of the
      same order forgets the first. */
  lemma LatestUpdateWins(m: OrderMaps, u: OrderInfoUpdate, v: OrderInfoUpdate)
    requires u.orderId == v.orderId
    ensures Record(Record(m, u), v) == Record(m, v)
  {
    var sides, owners := m.orderIdToIsBuy, m.orderIdToAlias;
    assert sides[u.orderId := u.isBuy][v.orderId := v.isBuy] == sides[v.orderId := v.isBuy];
    assert owners[u.orderId := u.instrumentAlias][v.orderId := v.instrumentAlias] == owners[v.orderId := v.instrumentAlias];
  }

  /** Updates of different orders commute. */
  lemma UpdatesOfDistinctOrdersCommute(m: OrderMaps, u: OrderInfoUpdate, v: OrderInfoUpdate)
    requires u.orderId != v.orderId
    ensures Record(Record(m, u), v) == Record(Record(m, v), u)
  {
    var sides, owners := m.orderIdToIsBuy, m.orderIdToAlias;
    assert sides[u.orderId := u.isBuy][v.orderId := v.isBuy] == sides[v.orderId := v.isBuy][u.orderId := u.isBuy];
    assert owners[u.orderId := u.instrumentAlias][v.orderId := v.instrumentAlias]
      == owners[v.orderId := v.instrumentAlias][u.orderId := u.instrumentAlias];
  }

  /** An order belongs to `alias` when the alias recorded for it equals
      `alias`; an order with no recorded alias belongs to no instrument. */
  predicate Owns(m: OrderMaps, alias: string, orderId: string)
  {
    orderId in m.orderIdToAlias && m.orderIdToAlias[orderId] == alias
  }

  /** Both maps know the same orders: the dispatcher always writes them together. */
  predicate Consistent(m: OrderMaps)
  {
    m.orderIdToIsBuy.Keys == m.orderIdToAlias.Keys
  }

  /** What the dispatcher works on: the order maps and the position. */
  datatype Snapshot = Snapshot(orders: OrderMaps, position: Position)

  /** One order event of a bucket, for the instrument `alias`; None when the
      event is of a kind the dispatcher does not know (it throws). */
  function Step(alias: string, s: Snapshot, ev: OrderEvent): (r: Option<Snapshot>)
    ensures r.None? <==> ev.Unrecognized?
    ensures ev.OrderUpdated? ==> r == Some(Snapshot(Record(s.orders, ev.update), s.position))
    ensures ev.OrderExecuted? ==> r.Some? && r.value.orders == s.orders
    ensures ev.OrderExecuted? && !Owns(s.orders, alias, ev.execution.orderId) ==> r.value.position == s.position
  {
    match ev
    case OrderUpdated(u) => Some(Snapshot(Record(s.orders, u), s.position))
    case OrderExecuted(e) =>
      if Owns(s.orders, alias, e.orderId) then Some(Snapshot(s.orders, Execute(s.position, e, s.orders.orderIdToIsBuy)))
      else Some(s)
    case Unrecognized => None
  }

  /** With maps built by the dispatcher, an execution of an order that belongs
      to the instrument always has a recorded side, so it always trades. */
  lemma OwnedExecutionTrades(alias: string, s: Snapshot, e: ExecutionInfo)
    requires Consistent(s.orders) && Owns(s.orders, alias, e.orderId)
    ensures e.orderId in s.orders.orderIdToIsBuy
    ensures Step(alias, s, OrderExecuted(e))
      == Some(Snapshot(s.orders, Trade(s.position, s.orders.orderIdToIsBuy[e.orderId], e.price, e.size)))
  {
  }

  /** The result of dispatching a bucket: the snapshot reached, and whether
      every event was recognised. On failure the snapshot is the one reached
      just before the unknown event: the maps and the state are updated in
      place, so the effects of earlier events persist. */
  datatype Outcome = Outcome(snap: Snapshot, ok: bool)

  /** The dispatcher over one bucket, in order, stopping at the first event it
      does not recognise. */
  function Run(alias: string, s: Snapshot, events: seq<OrderEvent>): (r: Outcome)
    ensures r.ok <==> forall i :: 0 <= i < |events| ==> !events[i].Unrecognized?
    ensures Consistent(s.orders) ==> Consistent(r.snap.orders)
    ensures s.orders.orderIdToAlias.Keys <= r.snap.orders.orderIdToAlias.Keys
    decreases |events|
  {
    if events == [] then Outcome(s, true)
    else match Step(alias, s, events[0])
      case None => Outcome(s, false)
      case Some(t) => Run(alias, t, events[1..])
  }

  /** Dispatching two buckets one after the other is dispatching their
      concatenation, up to the first failure. */
  lemma {:induction false} RunAppend(alias: string, s: Snapshot, a: seq<OrderEvent>, b: seq<OrderEvent>)
    ensures Run(alias, s, a + b)
      == (var o := Run(alias, s, a); if o.ok then Run(alias, o.snap, b) else o)
    decreases |a|
  {
    if a == [] {
      assert a + b == b;
    } else {
      assert (a + b)[0] == a[0];
      assert (a + b)[1..] == a[1..] + b;
      match Step(alias, s, a[0])
      case None =>
      case Some(t) => RunAppend(alias, t, a[1..], b);
    }
  }

  /** A bucket of order updates only is always recognised and never moves the
      position. */
  lemma {:induction false} UpdatesOnlyKeepPosition(alias: string, s: Snapshot, events: seq<OrderEvent>)
    requires forall i :: 0 <= i < |events| ==> events[i].OrderUpdated?
    ensures Run(alias, s, events).ok && Run(alias, s, events).snap.position == s.position
    decreases |events|
  {
    if events != [] {
      UpdatesOnlyKeepPosition(alias, Step(alias, s, events[0]).value, events[1..]);
    }
  }

  /** Executions of orders that do not belong to the instrument are ignored. */
  lemma {:induction false} ForeignExecutionsIgnored(alias: string, s: Snapshot, events: seq<OrderEvent>)
    requires forall i :: 0 <= i < |events| ==>
      events[i].OrderExecuted? && !Owns(s.orders, alias, events[i].execution.orderId)
    ensures Run(alias, s, events) == Outcome(s, true)
    decreases |events|
  {
    if events != [] {
      ForeignExecutionsIgnored(alias, s, events[1..]);
    }
  }

  /** All the buckets of a range, one after the other. */
  function Concat(buckets: seq<seq<OrderEvent>>): seq<OrderEvent>
    decreases |buckets|
  {
    if buckets == [] then [] else buckets[0] + Concat(buckets[1..])
  }

  /** The first k + 1 buckets, concatenated, are bucket 0 followed by the
      next k. */
  lemma ConcatPrefix(buckets: seq<seq<OrderEvent>>, k: nat)
    requires k < |buckets|
    ensures Concat(buckets[..k + 1]) == buckets[0] + Concat(buckets[1..][..k])
  {
    assert buckets[..k + 1][0] == buckets[0];
    assert buckets[..k + 1][1..] == buckets[1..][..k];
  }

  /** What a replay delivers: the values pushed to the listener, the snapshot
      reached, and whether it completed. */
  datatype Replayed = Replayed(values: seq<Option<real>>, snap: Snapshot, ok: bool)

  /** The emitting part of a replay: each bucket is dispatched and then the
      display value is pushed; an unknown event stops the replay, after the
      values of the buckets before it: a failed replay pushed one value for
      each bucket before the first one that fails. */
  function EmitAll(alias: string, pips: Pips, s: Snapshot, buckets: seq<seq<OrderEvent>>): (r: Replayed)
    ensures |r.values| <= |buckets|
    ensures r.ok <==> |r.values| == |buckets| && Run(alias, s, Concat(buckets)).ok
    decreases |buckets|
  {
    if buckets == [] then Replayed([], s, true)
    else
      var o := Run(alias, s, buckets[0]);
      if !o.ok then Replayed([], o.snap, false)
      else
        var rest := EmitAll(alias, pips, o.snap, buckets[1..]);
        RunAppend(alias, s, buckets[0], Concat(buckets[1..]));
        Replayed([LineY(o.snap.position, pips)] + rest.values, rest.snap, rest.ok)
  }

  /** A failed emitting part pushed one value for each bucket before the
      first one that fails: dispatching the buckets up to the one after its
      last value fails. */
  lemma {:induction false} EmitAllStopsAtFailure(alias: string, pips: Pips, s: Snapshot, buckets: seq<seq<OrderEvent>>)
    ensures var r := EmitAll(alias, pips, s, buckets);
      !r.ok ==> |r.values| < |buckets| && !Run(alias, s, Concat(buckets[..|r.values| + 1])).ok
    decreases |buckets|
  {
    if buckets != [] {
      var o := Run(alias, s, buckets[0]);
      if o.ok {
        EmitAllStopsAtFailure(alias, pips, o.snap, buckets[1..]);
        StopsAfterFirst(alias, pips, s, buckets);
      } else {
        RunFirst(alias, s, buckets);
      }
    }
  }

  /** The step of EmitAllStopsAtFailure past a bucket 0 that succeeds. */
  lemma StopsAfterFirst(alias: string, pips: Pips, s: Snapshot, buckets: seq<seq<OrderEvent>>)
    requires buckets != [] && Run(alias, s, buckets[0]).ok
    requires var rest := EmitAll(alias, pips, Run(alias, s, buckets[0]).snap, buckets[1..]);
      !rest.ok ==>
        && |rest.values| < |buckets[1..]|
        && !Run(alias, Run(alias, s, buckets[0]).snap, Concat(buckets[1..][..|rest.values| + 1])).ok
    ensures var r := EmitAll(alias, pips, s, buckets);
      !r.ok ==> |r.values| < |buckets| && !Run(alias, s, Concat(buckets[..|r.values| + 1])).ok
  {
    var r := EmitAll(alias, pips, s, buckets);
    if !r.ok {
      var o := Run(alias, s, buckets[0]);
      var rest := EmitAll(alias, pips, o.snap, buckets[1..]);
      EmitAllCons(alias, pips, s, buckets);
      assert !rest.ok && |r.values| == |rest.values| + 1;
      RunPastFirst(alias, s, buckets, |rest.values| + 1);
    }
  }

  /** Dispatching buckets 0..k, after a bucket 0 that succeeds, is
      dispatching buckets 1..k from where bucket 0 ended. */
  lemma RunPastFirst(alias: string, s: Snapshot, buckets: seq<seq<OrderEvent>>, k: nat)
    requires k < |buckets| && Run(alias, s, buckets[0]).ok
    ensures Run(alias, s, Concat(buckets[..k + 1]))
      == Run(alias, Run(alias, s, buckets[0]).snap, Concat(buckets[1..][..k]))
  {
    ConcatPrefix(buckets, k);
    RunAppend(alias, s, buckets[0], Concat(buckets[1..][..k]));
  }

  /** Dispatching bucket 0 alone. */
  lemma RunFirst(alias: string, s: Snapshot, buckets: seq<seq<OrderEvent>>)
    requires buckets != []
    ensures Run(alias, s, Concat(buckets[..1])) == Run(alias, s, buckets[0])
  {
    ConcatPrefix(buckets, 0);
    assert buckets[0] + [] == buckets[0];
  }

  /** A replay that has already pushed `pushed` and goes on as `r`. */
  function Continued(pushed: seq<Option<real>>, r: Replayed): Replayed
  {
    Replayed(pushed + r.values, r.snap, r.ok)
  }

  /** One more bucket of the emitting part, given how dispatching it ended:
      it either stops the replay, or pushes one value and the replay goes on
      from the snapshot it reached. */
  lemma EmitAllStep(alias: string, pips: Pips, s: Snapshot, buckets: seq<seq<OrderEvent>>,
                    o: Outcome, pushed: seq<Option<real>>)
    requires buckets != [] && o == Run(alias, s, buckets[0])
    ensures Continued(pushed, EmitAll(alias, pips, s, buckets))
      == if !o.ok then Replayed(pushed, o.snap, false)
         else Continued(pushed + [LineY(o.snap.position, pips)], EmitAll(alias, pips, o.snap, buckets[1..]))
  {
    if o.ok {
      var rest := EmitAll(alias, pips, o.snap, buckets[1..]);
      assert pushed + ([LineY(o.snap.position, pips)] + rest.values)
        == pushed + [LineY(o.snap.position, pips)] + rest.values;
    } else {
      assert pushed + [] == pushed;
    }
  }

  /** The emitting part ends where dispatching all its buckets at once ends. */
  lemma {:induction false} EmitAllIsRun(alias: string, pips: Pips, s: Snapshot, buckets: seq<seq<OrderEvent>>)
    ensures var r := EmitAll(alias, pips, s, buckets);
      Outcome(r.snap, r.ok) == Run(alias, s, Concat(buckets))
    decreases |buckets|
  {
    if buckets != [] {
      var o := Run(alias, s, buckets[0]);
      RunAppend(alias, s, buckets[0], Concat(buckets[1..]));
      if o.ok {
        EmitAllIsRun(alias, pips, o.snap, buckets[1..]);
      }
    }
  }

  /** A replay step that pushed anything pushed the value of its first
      bucket, after that bucket succeeded, and then the rest. */
  lemma EmitAllCons(alias: string, pips: Pips, s: Snapshot, buckets: seq<seq<OrderEvent>>)
    requires EmitAll(alias, pips, s, buckets).values != []
    ensures var o := Run(alias, s, buckets[0]);
      && o.ok
      && EmitAll(alias, pips, s, buckets).values
        == [LineY(o.snap.position, pips)] + EmitAll(alias, pips, o.snap, buckets[1..]).values
      && EmitAll(alias, pips, s, buckets).ok == EmitAll(alias, pips, o.snap, buckets[1..]).ok
  {
  }

  /** The k-th value pushed is the display value after dispatching buckets
      0..k, and those buckets were all recognised. */
  lemma {:induction false} EmitAllValueAt(alias: string, pips: Pips, s: Snapshot, buckets: seq<seq<OrderEvent>>, k: nat)
    requires k < |EmitAll(alias, pips, s, buckets).values|
    ensures var o := Run(alias, s, Concat(buckets[..k + 1]));
      o.ok && EmitAll(alias, pips, s, buckets).values[k] == LineY(o.snap.position, pips)
    decreases k
  {
    var o := Run(alias, s, buckets[0]);
    EmitAllCons(alias, pips, s, buckets);
    ConcatPrefix(buckets, k);
    var later := Concat(buckets[1..][..k]);
    RunAppend(alias, s, buckets[0], later);
    var v, w := EmitAll(alias, pips, s, buckets).values, EmitAll(alias, pips, o.snap, buckets[1..]).values;
    assert v[k] == ([LineY(o.snap.position, pips)] + w)[k];
    if k == 0 {
      assert later == [];
    } else {
      EmitAllValueAt(alias, pips, o.snap, buckets[1..], k - 1);
      assert v[k] == w[k - 1];
    }
  }

  /** Batch replay over buckets 0..n: bucket 0 warms the state up silently
      from empty maps and a flat position, then one value follows each of the
      buckets 1..n. */
  function Replay(alias: string, pips: Pips, buckets: seq<seq<OrderEvent>>): (r: Replayed)
    requires |buckets| >= 1
    ensures |r.values| <= |buckets| - 1
    ensures r.ok <==> |r.values| == |buckets| - 1 && Run(alias, Snapshot(NoOrders, Flat), Concat(buckets)).ok
  {
    var warm := Run(alias, Snapshot(NoOrders, Flat), buckets[0]);
    assert Concat(buckets) == buckets[0] + Concat(buckets[1..]);
    RunAppend(alias, Snapshot(NoOrders, Flat), buckets[0], Concat(buckets[1..]));
    if !warm.ok then Replayed([], warm.snap, false)
    else EmitAll(alias, pips, warm.snap, buckets[1..])
  }

  /** A replay ends where dispatching every bucket of the range ends, with
      consistent maps. */
  lemma ReplayIsRun(alias: string, pips: Pips, buckets: seq<seq<OrderEvent>>)
    requires |buckets| >= 1
    ensures var r := Replay(alias, pips, buckets);
      && Outcome(r.snap, r.ok) == Run(alias, Snapshot(NoOrders, Flat), Concat(buckets))
      && Consistent(r.snap.orders)
  {
    var s := Snapshot(NoOrders, Flat);
    var warm := Run(alias, s, buckets[0]);
    assert Concat(buckets) == buckets[0] + Concat(buckets[1..]);
    RunAppend(alias, s, buckets[0], Concat(buckets[1..]));
    if warm.ok {
      EmitAllIsRun(alias, pips, warm.snap, buckets[1..]);
    }
  }

  /** A failed replay pushed one value for each bucket 1..n before the first
      one that fails: none when bucket 0 fails, otherwise dispatching the
      buckets up to the one after its last value fails. */
  lemma ReplayStopsAtFailure(alias: string, pips: Pips, buckets: seq<seq<OrderEvent>>)
    requires |buckets| >= 1
    ensures var start, r := Snapshot(NoOrders, Flat), Replay(alias, pips, buckets);
      && (!Run(alias, start, buckets[0]).ok ==> !r.ok && r.values == [])
      && (Run(alias, start, buckets[0]).ok && !r.ok ==>
            |r.values| + 2 <= |buckets| && !Run(alias, start, Concat(buckets[..|r.values| + 2])).ok)
  {
    var start, r := Snapshot(NoOrders, Flat), Replay(alias, pips, buckets);
    var warm := Run(alias, start, buckets[0]);
    if warm.ok && !r.ok {
      assert r == EmitAll(alias, pips, warm.snap, buckets[1..]);
      EmitAllStopsAtFailure(alias, pips, warm.snap, buckets[1..]);
      RunPastFirst(alias, start, buckets, |r.values| + 1);
    }
  }

  /** The i-th value of a replay (1 <= i <= n, pushed as value i - 1) is the
      display value after dispatching buckets 0..i. */
  lemma ReplayValueAt(alias: string, pips: Pips, buckets: seq<seq<OrderEvent>>, i: nat)
    requires |buckets| >= 1 && 1 <= i <= |Replay(alias, pips, buckets).values|
    ensures var o := Run(alias, Snapshot(NoOrders, Flat), Concat(buckets[..i + 1]));
      o.ok && Replay(alias, pips, buckets).values[i - 1] == LineY(o.snap.position, pips)
  {
    var s := Snapshot(NoOrders, Flat);
    var warm := Run(alias, s, buckets[0]);
    var rest := buckets[1..];
    EmitAllValueAt(alias, pips, warm.snap, rest, i - 1);
    assert buckets[..i + 1] == [buckets[0]] + rest[..i];
    assert Concat(buckets[..i + 1]) == buckets[0] + Concat(rest[..i]);
    RunAppend(alias, s, buckets[0], Concat(rest[..i]));
  }
}
