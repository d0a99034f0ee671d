# Average position price, modelled in Dafny

The "Average Price" indicator of the DemoStrategies repository rebuilds one
instrument's trading position from its order events. Order updates record
each order's side and owning instrument. Executions carry a price and a size.
From these the indicator keeps the signed net position and its
volume-weighted average entry price, and it draws that average, expressed in
pips, as a line on the chart. It runs in two modes:

- a batch replay over a range of time buckets;
- an online adapter that follows live order events.

Both modes share the per-instrument order maps.

The project has four modules:

- `Events` (Events.dfy) holds the values the engine receives and the Java
  numeric types they carry. A Java `int` is `Int32`, and `Wrap32` is
  Java's wrapping `int` addition. A price is a `real`, and a `double`
  NaN is `None`.
- `Positions` (Positions.dfy) is the execution transition rule of
  `updateState(state, executionInfo, orderIdToIsBuy)` and `getLineY`, on
  values. It also proves what the three branches promise:
  - a flip resets the average;
  - a trade in the position's direction takes the weighted mean;
  - a reduction keeps the average.

  A run of positive-size same-side fills, started flat with a defined
  average and whose signed total stays inside the `int` range, averages to
  the size-weighted mean of their prices.
- `OrderFlow` (OrderFlow.dfy) holds the event dispatcher
  `updateState(alias, state, aggregationEvent, ...)` and the batch replay,
  on values. These are the specification functions `Step`, `Run`,
  `EmitAll` and `Replay`, with lemmas on how they compose.
- `AveragePrice` (AveragePrice.dfy) is the indicator as the source runs
  it: classes whose methods update fields in place.
  - `CurrentState` holds the position and average.
  - `OrderRegistry` holds the two order maps. They are always created,
    cached and written together, so a replay's cache and the online
    adapters built from it share one object.
  - `OnlineCalculator` is the anonymous adapter, and `emitted` is what
    its listener received.
  - `AveragePositionPriceDemo` holds the pips registry and the map cache,
    with the replay and the adapter factory.

  Every method is proved against the value-level functions.

The host's event store is an input. A range query is a sequence of buckets,
and each bucket is the sequence of its order events. Where the source throws
(unknown pips, an unknown event kind), the model returns `false` or
`null`. Values already pushed and map updates already made are kept,
because the source makes them before it throws.

The position is a Java `int`, and the model keeps its wrap-around. A buy that
carries the position past 2147483647 wraps it to a negative number, and a
sell past -2147483648 wraps it to a positive one: the result always lands
on the other side of zero. `isChangeSign` then sees a flip and resets the
average to the trade price (`Positions.OverflowFlips` shows both extremes).
Every trade whose exact result stays inside the `int` range moves the
position by exactly +size or -size.

## Model

| member | source | states |
|---|---|---|
| Events.Wrap32 | Strategies/src/velox/api/layer1/simpledemo/averagepositionprice/Layer1ApiAveragePositionPriceDemo.java:103 | Java `int` addition: the one `int` congruent to the exact sum modulo 2^32 (its low-order 32 bits), which is the exact sum whenever that fits |
| Positions.IsChangeSign | Strategies/src/velox/api/layer1/simpledemo/averagepositionprice/Layer1ApiAveragePositionPriceDemo.java:126-128 | `isChangeSign(a, b)` holds exactly when a and b are both nonzero and on opposite sides of zero; landing on or leaving zero is never a flip |
| Positions.ChangeSignIsNegativeProduct | Strategies/src/velox/api/layer1/simpledemo/averagepositionprice/Layer1ApiAveragePositionPriceDemo.java:126-128 | a sign change is exactly a negative product a * b < 0 |
| Positions.Trade | Strategies/src/velox/api/layer1/simpledemo/averagepositionprice/Layer1ApiAveragePositionPriceDemo.java:98-119 | for an order of known side, the new position is the old one plus size for a buy or minus size for a sell, in `int` arithmetic; it equals the exact sum unless the move flips the sign |
| Positions.FlipResetsAverage | Strategies/src/velox/api/layer1/simpledemo/averagepositionprice/Layer1ApiAveragePositionPriceDemo.java:103-118 | when old and new position have strictly opposite signs, the average becomes exactly the execution price |
| Positions.ReductionKeepsAverage | Strategies/src/velox/api/layer1/simpledemo/averagepositionprice/Layer1ApiAveragePositionPriceDemo.java:111-113 | a trade against the position that does not flip, one landing exactly on zero included, keeps the average and moves the position exactly |
| Positions.GrowthAddsCost | Strategies/src/velox/api/layer1/simpledemo/averagepositionprice/Layer1ApiAveragePositionPriceDemo.java:105-110 | a trade in the position's direction (or from flat) that does not flip never wraps. Its divisor is zero only for a zero-size fill on a flat position, which gives NaN. A NaN average stays NaN. Otherwise position * average grows by exactly price * delta, which is the weighted-mean update |
| Positions.MeanTimesDivisor | Strategies/src/velox/api/layer1/simpledemo/averagepositionprice/Layer1ApiAveragePositionPriceDemo.java:106-109 | the average `(oldValue + addValue) / newPosition` times its nonzero divisor is the dividend |
| Positions.Execute | Strategies/src/velox/api/layer1/simpledemo/averagepositionprice/Layer1ApiAveragePositionPriceDemo.java:94-124 | an execution whose order id has no recorded side leaves position and average unchanged (it is only logged); otherwise it trades with the recorded side |
| Positions.LineY | Strategies/src/velox/api/layer1/simpledemo/averagepositionprice/Layer1ApiAveragePositionPriceDemo.java:52-54 | the display value is NaN exactly when the position is zero or the average is NaN; otherwise, multiplied by pips, it gives back the average |
| Positions.SameSideRunPosition | Strategies/src/velox/api/layer1/simpledemo/averagepositionprice/Layer1ApiAveragePositionPriceDemo.java:105-110 | a run of positive same-side fills in the position's direction, started with a defined average and staying inside the `int` range, never flips, and its average stays defined: the position moves by the signed total size and is nonzero after the first fill |
| Positions.SameSideRunCost | Strategies/src/velox/api/layer1/simpledemo/averagepositionprice/Layer1ApiAveragePositionPriceDemo.java:105-110 | along such a run, position * average accumulates exactly the signed price * size of every fill |
| Positions.SameSideRunIsWeightedMean | Strategies/src/velox/api/layer1/simpledemo/averagepositionprice/Layer1ApiAveragePositionPriceDemo.java:105-110 | starting flat with a defined average, a run of positive same-side fills whose signed total stays inside the `int` range ends at the signed total size with the size-weighted mean of the fill prices as average |
| Positions.SellRunReachesMinInt | Strategies/src/velox/api/layer1/simpledemo/averagepositionprice/Layer1ApiAveragePositionPriceDemo.java:105-110 | from flat, selling 2147483647 at p and then 1 at q lands exactly on -2147483648 without wrapping, with the weighted mean (p * 2147483647 + q) / 2147483648 as average |
| Positions.OverflowFlips | Strategies/src/velox/api/layer1/simpledemo/averagepositionprice/Layer1ApiAveragePositionPriceDemo.java:103-118 | a buy of 1 on the largest `int` position (or a sell of 1 on the smallest) wraps to the opposite extreme, and the average is reset as for a flip |
| Positions.Scenario | Strategies/src/velox/api/layer1/simpledemo/averagepositionprice/Layer1ApiAveragePositionPriceDemo.java:94-124 | buy 10@100 gives 10@100. Then buy 5@110 gives 15@1550/15, and sell 20@90 gives -5@90. From +10@100, sell 4 gives +6@100 and sell 10 gives 0@100, whose display value is NaN. An empty fill on a flat position gives a NaN average (0.0 / 0), which a later buy of 10 keeps |
| OrderFlow.Record | Strategies/src/velox/api/layer1/simpledemo/averagepositionprice/Layer1ApiAveragePositionPriceDemo.java:133-136 | an order update upserts the side and the owning instrument of its order id and leaves every other order's entries as they were |
| OrderFlow.LatestUpdateWins | Strategies/src/velox/api/layer1/simpledemo/averagepositionprice/Layer1ApiAveragePositionPriceDemo.java:135-136 | a second update of the same order overrides the first completely |
| OrderFlow.UpdatesOfDistinctOrdersCommute | Strategies/src/velox/api/layer1/simpledemo/averagepositionprice/Layer1ApiAveragePositionPriceDemo.java:135-136 | updates of different orders can be recorded in either order |
| OrderFlow.Step | Strategies/src/velox/api/layer1/simpledemo/averagepositionprice/Layer1ApiAveragePositionPriceDemo.java:132-145 | an unknown event kind is an error, and it is the only one. An update records the order and keeps the position. An execution never changes the maps, and it moves the position only if the recorded alias of its order is the alias being computed |
| OrderFlow.OwnedExecutionTrades | Strategies/src/velox/api/layer1/simpledemo/averagepositionprice/Layer1ApiAveragePositionPriceDemo.java:137-142 | with maps the dispatcher built, an execution of an order owned by the instrument always finds a recorded side and trades |
| OrderFlow.Run | Strategies/src/velox/api/layer1/simpledemo/averagepositionprice/Layer1ApiAveragePositionPriceDemo.java:130-149 | a bucket is dispatched without error exactly when none of its events is of an unknown kind. The dispatcher keeps both maps over the same order ids, and it never forgets an order |
| OrderFlow.RunAppend | Strategies/src/velox/api/layer1/simpledemo/averagepositionprice/Layer1ApiAveragePositionPriceDemo.java:132-146 | dispatching two buckets in turn is dispatching their concatenation, stopping at the first error |
| OrderFlow.UpdatesOnlyKeepPosition | Strategies/src/velox/api/layer1/simpledemo/averagepositionprice/Layer1ApiAveragePositionPriceDemo.java:133-136 | a bucket of order updates only always succeeds and leaves the position alone |
| OrderFlow.ForeignExecutionsIgnored | Strategies/src/velox/api/layer1/simpledemo/averagepositionprice/Layer1ApiAveragePositionPriceDemo.java:137-142 | executions of orders not owned by the instrument change nothing |
| OrderFlow.EmitAll | Strategies/src/velox/api/layer1/simpledemo/averagepositionprice/Layer1ApiAveragePositionPriceDemo.java:169-173 | the emitting loop pushes at most one value per bucket. It completes exactly when it pushed one value for every bucket and dispatching all of them succeeds |
| OrderFlow.EmitAllStopsAtFailure | Strategies/src/velox/api/layer1/simpledemo/averagepositionprice/Layer1ApiAveragePositionPriceDemo.java:169-173 | a failed emitting loop pushed exactly the values of the buckets before the first one that fails: dispatching the buckets up to the one after its last value fails (with EmitAllValueAt, all shorter prefixes succeed) |
| OrderFlow.EmitAllStep | Strategies/src/velox/api/layer1/simpledemo/averagepositionprice/Layer1ApiAveragePositionPriceDemo.java:169-173 | one iteration of the emitting loop either stops on an error or pushes the display value of the state it reached and goes on from there |
| OrderFlow.EmitAllIsRun | Strategies/src/velox/api/layer1/simpledemo/averagepositionprice/Layer1ApiAveragePositionPriceDemo.java:169-173 | the emitting loop ends in the state, and with the success, of dispatching all its buckets at once |
| OrderFlow.EmitAllValueAt | Strategies/src/velox/api/layer1/simpledemo/averagepositionprice/Layer1ApiAveragePositionPriceDemo.java:169-173 | the k-th value pushed is the display value after dispatching buckets 0..k, all of which succeeded |
| OrderFlow.Replay | Strategies/src/velox/api/layer1/simpledemo/averagepositionprice/Layer1ApiAveragePositionPriceDemo.java:163-173 | a replay over buckets 0..n pushes at most n values. It completes exactly when it pushed n values and dispatching all buckets from empty maps and a flat position succeeds |
| OrderFlow.ReplayIsRun | Strategies/src/velox/api/layer1/simpledemo/averagepositionprice/Layer1ApiAveragePositionPriceDemo.java:163-176 | a replay ends where dispatching every bucket of the range from empty maps ends, with both maps over the same order ids |
| OrderFlow.ReplayStopsAtFailure | Strategies/src/velox/api/layer1/simpledemo/averagepositionprice/Layer1ApiAveragePositionPriceDemo.java:167-173 | a replay whose bucket 0 fails pushes nothing. Otherwise a failed replay pushed exactly the values of buckets 1..n before the first one that fails: dispatching the buckets up to the one after its last value fails |
| OrderFlow.ReplayValueAt | Strategies/src/velox/api/layer1/simpledemo/averagepositionprice/Layer1ApiAveragePositionPriceDemo.java:166-173 | bucket 0 is silent: the i-th value pushed (1 <= i <= n) is the display value after buckets 0..i |
| AveragePrice.CurrentState.constructor | Strategies/src/velox/api/layer1/simpledemo/averagepositionprice/Layer1ApiAveragePositionPriceDemo.java:43-50 | a new state holds its pips, a zero position and an average of 0 |
| AveragePrice.UpdateState | Strategies/src/velox/api/layer1/simpledemo/averagepositionprice/Layer1ApiAveragePositionPriceDemo.java:94-124 | the in-place update leaves the state holding exactly `Execute` of the old state |
| AveragePrice.OrderRegistry.constructor | Strategies/src/velox/api/layer1/simpledemo/averagepositionprice/Layer1ApiAveragePositionPriceDemo.java:163-164 | fresh order maps are empty |
| AveragePrice.OrderRegistry.Put | Strategies/src/velox/api/layer1/simpledemo/averagepositionprice/Layer1ApiAveragePositionPriceDemo.java:135-136 | the two `put`s leave the maps holding exactly `Record` of the old maps |
| AveragePrice.UpdateStateFromBucket | Strategies/src/velox/api/layer1/simpledemo/averagepositionprice/Layer1ApiAveragePositionPriceDemo.java:130-149 | the loop over a bucket updates the maps and the state in place to exactly what `Run` computes, and reports whether every event was recognised |
| AveragePrice.OnlineCalculator.constructor | Strategies/src/velox/api/layer1/simpledemo/averagepositionprice/Layer1ApiAveragePositionPriceDemo.java:207-222 | an adapter closes over its instrument, the shared maps and its state, and has emitted nothing |
| AveragePrice.OnlineCalculator.OnOrderUpdated | Strategies/src/velox/api/layer1/simpledemo/averagepositionprice/Layer1ApiAveragePositionPriceDemo.java:209-212 | an update only records the order in the shared maps (a dispatcher step); the state and the emitted values are untouched |
| AveragePrice.OnlineCalculator.OnOrderExecuted | Strategies/src/velox/api/layer1/simpledemo/averagepositionprice/Layer1ApiAveragePositionPriceDemo.java:215-221 | an execution is a dispatcher step on the adapter's state. Exactly one value, the new display value, is emitted if and only if the order's recorded alias is the adapter's instrument |
| AveragePrice.ReplayRange | Strategies/src/velox/api/layer1/simpledemo/averagepositionprice/Layer1ApiAveragePositionPriceDemo.java:163-173 | the replay loop with fresh maps and a fresh state yields exactly `Replay`'s values, completion and final maps |
| AveragePrice.SeedAdapter | Strategies/src/velox/api/layer1/simpledemo/averagepositionprice/Layer1ApiAveragePositionPriceDemo.java:204-222 | a fresh state seeded from one bucket updates the given maps in place to what `Run` from a flat position computes; the adapter exists exactly when the bucket was recognised, and then shares those maps, starts from the position reached and has emitted nothing |
| AveragePrice.AveragePositionPriceDemo.constructor | Strategies/src/velox/api/layer1/simpledemo/averagepositionprice/Layer1ApiAveragePositionPriceDemo.java:66-69 | the pips registry and the map cache start empty, and every method keeps each instrument owning maps no other instrument shares (`Valid`) |
| AveragePrice.AveragePositionPriceDemo.OnInstrumentAdded | Strategies/src/velox/api/layer1/simpledemo/averagepositionprice/Layer1ApiAveragePositionPriceDemo.java:226-228 | records the instrument's pips and leaves the cache alone |
| AveragePrice.AveragePositionPriceDemo.OnInstrumentRemoved | Strategies/src/velox/api/layer1/simpledemo/averagepositionprice/Layer1ApiAveragePositionPriceDemo.java:231-233 | forgets the instrument's pips and leaves its cached maps in place |
| AveragePrice.AveragePositionPriceDemo.CalculateValuesInRange | Strategies/src/velox/api/layer1/simpledemo/averagepositionprice/Layer1ApiAveragePositionPriceDemo.java:152-180 | an instrument without pips (never added, or removed) gets no output and no completion. Otherwise the output is exactly `Replay`'s, with n values when it completes. Only a completed replay caches its fresh maps for the instrument, and the other instruments' cache entries are untouched |
| AveragePrice.AveragePositionPriceDemo.CachedRegistry | Strategies/src/velox/api/layer1/simpledemo/averagepositionprice/Layer1ApiAveragePositionPriceDemo.java:193-202 | the maps cached for the instrument are returned unchanged, or, when there are none, fresh empty maps are cached for it and returned; every instrument keeps its own maps |
| AveragePrice.AveragePositionPriceDemo.CreateOnlineValueCalculator | Strategies/src/velox/api/layer1/simpledemo/averagepositionprice/Layer1ApiAveragePositionPriceDemo.java:183-223 | an instrument without pips gets no adapter, and the cache and the cached maps are left as they were. The maps of every other instrument are never touched. Otherwise the maps cached by an earlier replay are reused, or empty ones are cached, and one bucket is dispatched into them from a flat state. If that succeeds, the adapter shares those maps, starts from the state reached and has emitted nothing |

## Left out

- The `DataStructureInterface` queries (lines 155-156, 186) are not modelled: the buckets they return are inputs.
- `getOrderEvent` returning null for a bucket without order events (a `NullPointerException` in the source) is not modelled: every bucket is a sequence of events, possibly empty.
- AveragePrice.AveragePositionPriceDemo.CalculateValuesInRange requires exactly `intervalsNumber + 1` buckets. This is what the host's query returns; with fewer, the source fails with an index error, which the model does not represent.
- AveragePrice.ReplayRange carries the same requirement on the number of buckets.
- Positions.Trade is defined for sizes from 0 to 2^31 - 1 only. A negative execution size, which the host does not produce, could divide a nonzero dividend by zero and yield an infinity.
- Events.Pips: pips are assumed positive, as the host supplies them; the source stores any `double` (line 227), and a zero pips would make the display value infinite, a negative one would negate it.
- IEEE `double` behaviour is not modelled: prices are exact reals, with no rounding, infinities or signed zeros, and NaN is `None`.
- `ConcurrentHashMap` thread safety and concurrent calls are not modelled: the maps are single-threaded.
- The listener is not modelled as a callback: `calculateValuesInRange`'s listener is the returned values and the `completed` flag, and the adapter's listener is its `emitted` field.
- Exceptions are not modelled as exceptions: they are `false` or `null` results.
- `Log.warn` for an unknown order id is not modelled: it has no effect on the state.
- Host messaging and rendering are not modelled: `onUserMessage`, `finish`, `getUserMessageAdd` and its colour scheme.
- `onInstrumentNotFound` and `onInstrumentAlreadySubscribed` have empty bodies and are not modelled.
- The cached order maps of a removed instrument are kept, because the source only removes the pips (line 232).
- The `PowerIndicator*` files are not part of this model.
