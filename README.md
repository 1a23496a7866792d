# iyes_progress: the progress-aggregation core, in Dafny

iyes_progress is a Bevy plugin for loading screens. Systems, background tasks
and asset loads report how much of their work is `done` out of a `total`.
The plugin adds these reports into one global progress. Once everything is
ready, it moves the application from a loading state to the state configured
after it.

This project models the bookkeeping behind that, and proves properties of it.
It has one module per source file:

- `ProgressValue` (src/progress.rs): the `Progress` pair of `u32` counters.
  - Field-wise `+` and `-`, which panic on overflow or underflow in builds
    with overflow checks (debug builds).
  - `From<bool>` and `is_ready`.
  - The `HiddenProgress` wrapper and its conversions.
- `Tracker` (src/tracker.rs): the `ProgressTracker` class.
  - It maps entry ids to a (visible, hidden) pair and keeps a running
    accumulator.
  - Every setter and adder moves the accumulator by exactly the change it
    makes to one entry.
  - Its `Valid()` invariant states that the accumulator equals the
    field-wise sum of all entries. Every mutating method preserves it.
  - As a consequence, none of the `-=` branches in the setters can underflow.
    This is checked at each subtraction, because the counters are `u32`
    values.
  - Each mutating method's new entry map is given by a specification
    function of the old one (`SetProgressSpec`, …).
  - Also here: the `NEXT_ID` counter behind `ProgressEntryId::new`, and
    `ApplyProgress` for `Progress`, `HiddenProgress` and pairs.
- `Send` (src/send.rs): the cross-thread channel.
  - The channel is a bounded FIFO queue. A send on a full queue is dropped.
  - `ProgressSender` values are bound to one id.
  - Each of the twelve `ProgressMessage` variants maps to the tracker method
    of the same name.
  - `recv_progress_msgs` drains the queue. It is proved equal to folding that
    map over the queued messages in sending order.
- `Loading` (src/lib.rs, the older design): the per-frame `ProgressCounter`.
  - Its atomic counters wrap modulo 2^32.
  - `manually_track` clamps `done` to `total`.
  - `persist_progress`, `next_frame`, and the decision `check_progress` makes.
- `StateRules` (src/state.rs): the `from -> to` transition configuration,
  its run condition, `transition_if_ready` and `clear_global_progress`.
- `Assets` (src/assets.rs): the pending and done asset sets.
  - The load-state decision table.
  - The `retain` that moves ready assets to `done`.
  - The progress computed from the set sizes.
- `LegacyAssets` (src/asset.rs): the older handle set with its `add` counter,
  and its two-loop `assets_progress`. Which load states finish a handle is a
  parameter: the code's test (`Loaded` or `Failed`), or the documented one,
  under which every state but `Loading` does (see "## Findings").
- `Dummy` (src/utils.rs): the frame-counting dummy systems, each with its
  persistent local counter.

The asset server and the current application state are inputs. The server is
given as maps from asset id to load state. An id it does not know reads as
`NotLoaded`. A `u32` that would overflow with `+` or `+=`, or underflow with
`-` or `-=`, panics in a build with overflow checks (a debug build); here that
becomes a precondition. A release build wraps silently instead, which the
model does not cover. `AtomicU32::fetch_add` wraps; here it is
computed modulo 2^32.

The tracker in src/tracker.rs does not declare the `chan` field that
src/send.rs:118 and src/send.rs:124 read. So the channel is a separate queue
object. It is passed next to the tracker, and `null` stands for "no channel".

After `persist_progress` of a value with `done > total`, `persisted` holds it
unclamped (src/lib.rs:293). So the counters after the next `next_frame` can
show `done > total`, unlike a frame's `manually_track` calls. The model keeps
this behaviour as written.

## Model

| member | source | states |
|---|---|---|
| ProgressValue.FromBool | src/progress.rs:21-28 | total is 1, done is 1 exactly when the flag holds, so the value is ready iff the flag holds |
| ProgressValue.Add | src/progress.rs:12-13 | the derived field-wise `+` (defined only without `u32` overflow); the sum can have either operand subtracted again, and two ready values add to a ready value |
| ProgressValue.Sub | src/progress.rs:12-13 | the derived field-wise `-`, defined only when neither field underflows; adding the subtrahend back cannot overflow and the result is no larger than the minuend |
| ProgressValue.AddSubInverse | src/progress.rs:13 | `+` and `-` act on `done` and `total` independently and undo each other |
| ProgressValue.ZeroIdentity | src/progress.rs:12 | the default `(0, 0)` is the identity of `+` and is ready |
| ProgressValue.IsReady | src/progress.rs:42-47 | `is_ready`: a zero total is always ready, a value with `done < total` never is, and a ready value that does not over-report has `done == total` |
| ProgressValue.ReadinessBoundary | src/progress.rs:42-47 | `is_ready` is `done >= total`: `n/n` is ready, `(n-1)/n` is not |
| ProgressValue.Hide | src/progress.rs:59-63 | wrapping a progress as hidden keeps the value |
| ProgressValue.HideUnhideRoundTrip | src/progress.rs:59-69 | the two conversions between `Progress` and `HiddenProgress` are inverse to each other |
| ProgressValue.HiddenFromBool | src/progress.rs:71-75 | `HiddenProgress::from(b)` wraps `Progress::from(b)`, ready iff `b` |
| Tracker.IdAllocator.constructor | src/tracker.rs:14 | `NEXT_ID` starts at zero with no id handed out |
| Tracker.IdAllocator.New | src/tracker.rs:34-37 | fetch-and-increment: the id is the old counter, fresh, larger than every id handed out before |
| Tracker.SumRemove | src/tracker.rs:68-72 | the sum of a counter over the entries is one entry's value plus the sum over the others |
| Tracker.SumUpdate | src/tracker.rs:68-72 | replacing one entry changes the sum by exactly the difference, and an entry never exceeds the sum |
| Tracker.ReplaceEntry | src/tracker.rs:68-72 | the per-field form of the above for all four counters |
| Tracker.ProgressTracker.constructor | src/tracker.rs:59-72 | `default()`: no entries, zero accumulator, invariant established |
| Tracker.ProgressTracker.Clear | src/tracker.rs:76-79 | no entries and a zero accumulator whatever the state was, so clearing twice is clearing once |
| Tracker.ProgressTracker.ContainsId | src/tracker.rs:96-98 | true iff the id holds an entry; then the getters return that entry, and otherwise they return zero (every setter and adder makes it true) |
| Tracker.ProgressTracker.GetGlobalProgress | src/tracker.rs:123-126 | the visible accumulator equals the sum of the visible parts of all entries |
| Tracker.ProgressTracker.GetGlobalHiddenProgress | src/tracker.rs:129-132 | the hidden accumulator equals the sum of the hidden parts of all entries |
| Tracker.ProgressTracker.GetGlobalCombinedProgress | src/tracker.rs:137-140 | visible plus hidden accumulator equals the sums over all entries of both parts |
| Tracker.ProgressTracker.IsReady | src/tracker.rs:103-105 | ready iff the summed done of both parts reaches the summed total of both parts |
| Tracker.ProgressTracker.IsIdReady | src/tracker.rs:110-117 | an unknown id is never ready; a known one is ready iff its visible plus hidden done reaches its visible plus hidden total |
| Tracker.ProgressTracker.GetProgress | src/tracker.rs:143-146 | the stored visible pair, zero for an unknown id |
| Tracker.ProgressTracker.GetHiddenProgress | src/tracker.rs:149-152 | the stored hidden pair, zero for an unknown id |
| Tracker.ProgressTracker.GetCombinedProgress | src/tracker.rs:155-162 | visible plus hidden of the id, zero for an unknown id |
| Tracker.ProgressTracker.GetTotal | src/tracker.rs:165-174 | the stored visible total, 0 for an unknown id |
| Tracker.ProgressTracker.GetDone | src/tracker.rs:177-180 | the stored visible done, 0 for an unknown id |
| Tracker.ProgressTracker.GetHiddenTotal | src/tracker.rs:183-192 | the stored hidden total, 0 for an unknown id |
| Tracker.ProgressTracker.GetHiddenDone | src/tracker.rs:195-198 | the stored hidden done, 0 for an unknown id |
| Tracker.ProgressTracker.SetProgress | src/tracker.rs:203-231 | keeps the accumulator equal to the sum (no `-=` underflows); afterwards the id is present with visible `(done, total)`, its hidden part kept (or zero when new), and the hidden accumulator unchanged |
| Tracker.ProgressTracker.SetHiddenProgress | src/tracker.rs:236-269 | the mirror image on the hidden part, the visible part and accumulator unchanged |
| Tracker.ProgressTracker.SetTotal | src/tracker.rs:272-291 | keeps the invariant; only the entry's visible total and the accumulator's visible total change |
| Tracker.ProgressTracker.SetDone | src/tracker.rs:294-313 | keeps the invariant; only the entry's visible done and the accumulator's visible done change |
| Tracker.ProgressTracker.SetHiddenTotal | src/tracker.rs:316-335 | keeps the invariant; only the hidden total of the entry and of the accumulator change |
| Tracker.ProgressTracker.SetHiddenDone | src/tracker.rs:338-357 | keeps the invariant; only the hidden done of the entry and of the accumulator change |
| Tracker.ProgressTracker.AddProgress | src/tracker.rs:363-376 | keeps the invariant; the entry's visible done/total and the visible accumulator grow by exactly `done`/`total`, whether or not the entry existed |
| Tracker.ProgressTracker.AddTotal | src/tracker.rs:380-391 | keeps the invariant; only the visible total of the entry and of the accumulator grow, by `total` |
| Tracker.ProgressTracker.AddDone | src/tracker.rs:395-406 | keeps the invariant; only the visible done of the entry and of the accumulator grow, by `done` |
| Tracker.ProgressTracker.AddHiddenProgress | src/tracker.rs:412-430 | keeps the invariant; the hidden pair of the entry and of the accumulator grow by exactly `done`/`total` |
| Tracker.ProgressTracker.AddHiddenTotal | src/tracker.rs:434-445 | keeps the invariant; only the hidden total of the entry and of the accumulator grow |
| Tracker.ProgressTracker.AddHiddenDone | src/tracker.rs:449-460 | keeps the invariant; only the hidden done of the entry and of the accumulator grow |
| Tracker.UnknownIdDefaults | src/tracker.rs:96-198 | for an id never written every getter gives zero, and it is neither contained nor ready |
| Tracker.EmptyTrackerReady | src/tracker.rs:103-105 | a tracker without entries has zero combined progress and is ready |
| Tracker.ApplyProgress | src/tracker.rs:642-670 | `Progress` sets the visible pair, `HiddenProgress` the hidden pair, a pair applies its first component and then its second; the invariant is kept |
| Tracker.ApplyPairStoresBoth | src/tracker.rs:662-670 | applying `(Progress, HiddenProgress)` leaves the entry holding exactly both parts and no other entry changed |
| Send.Channel.TrySend | src/send.rs:35-37 | succeeds iff the queue has room; then the item is appended, otherwise the queue is unchanged |
| Send.Channel.TryRecv | src/send.rs:127 | yields the oldest item and removes it, or nothing on an empty queue |
| Send.ProgressSender.Id | src/send.rs:31-33 | the sender's id |
| Send.ProgressSender.Clone | src/send.rs:23-27 | a clone shares the id and the channel |
| Send.ProgressSender.Msg | src/send.rs:35-37 | sends `(id, msg)` best-effort: a dropped send leaves the queue as it was |
| Send.ProgressSender.SetProgress | src/send.rs:40-42 | queues `SetProgress(done, total)` for the sender's id |
| Send.ProgressSender.SetHiddenProgress | src/send.rs:45-47 | queues `SetHiddenProgress(done, total)` for the sender's id |
| Send.ProgressSender.SetTotal | src/send.rs:50-52 | queues `SetTotal(total)` for the sender's id |
| Send.ProgressSender.SetDone | src/send.rs:55-57 | queues `SetDone(done)` for the sender's id |
| Send.ProgressSender.SetHiddenTotal | src/send.rs:60-62 | queues `SetHiddenTotal(total)` for the sender's id |
| Send.ProgressSender.SetHiddenDone | src/send.rs:65-67 | queues `SetHiddenDone(done)` for the sender's id |
| Send.ProgressSender.AddProgress | src/send.rs:70-72 | queues `AddProgress(done, total)` for the sender's id |
| Send.ProgressSender.AddHiddenProgress | src/send.rs:75-77 | queues `AddHiddenProgress(done, total)` for the sender's id |
| Send.ProgressSender.AddTotal | src/send.rs:80-82 | queues `AddTotal(total)` for the sender's id |
| Send.ProgressSender.AddDone | src/send.rs:85-87 | queues `AddDone(done)` for the sender's id |
| Send.ProgressSender.AddHiddenTotal | src/send.rs:90-92 | queues `AddHiddenTotal(total)` for the sender's id |
| Send.ProgressSender.AddHiddenDone | src/send.rs:95-97 | queues `AddHiddenDone(done)` for the sender's id |
| Send.ApplyMessage | src/send.rs:127-164 | each variant runs the same-named tracker method with the message's id and arguments and nothing else; the invariant is kept |
| Send.RcRecvProgressMsgs | src/send.rs:115-119 | the receive condition holds iff there is a channel |
| Send.RecvProgressMsgs | src/send.rs:121-165 | without a channel nothing changes; otherwise the entries become the fold of all queued messages in FIFO order and the queue is empty |
| Send.DispatchTouchesOnlyItsId | src/send.rs:127-164 | a message creates or changes the entry of its own id and no other |
| Send.FoldOtherIdUnchanged | src/send.rs:127-164 | draining messages none of which names an id leaves that id's entry as it was |
| Send.FoldConcat | src/send.rs:127 | draining a queue is draining its first part and then the rest |
| Send.FoldStep | src/send.rs:127 | draining a non-empty queue applies its first message, then drains the rest |
| Send.DispatchIsLocal | src/send.rs:127-164 | a message replaces its id's entry by a value computed from that entry alone |
| Send.DispatchCommutes | src/send.rs:127-164 | two messages for different ids, each applicable to its entry, leave the same entries in either order; whether the drain panics can depend on the order (see `Send.SetTotalOrderDecidesPanic`) |
| Send.SwapAdjacent | src/send.rs:121-165 | swapping two adjacent messages for different ids anywhere in the queue leaves the drained entries unchanged, when neither order panics |
| Send.SetTotalOrderDecidesPanic | src/send.rs:121-165 | two `SetTotal` messages for different ids can drain in one order and overflow the accumulator's visible total in the other, so the order of senders decides whether `recv_progress_msgs` panics |
| Send.DrainOrderMatters | src/send.rs:121-165 | the concrete case: entry 0 has total `u32::MAX`; `SetTotal(0)` for 0 then `SetTotal(u32::MAX)` for a new id 1 drains, the reverse order overflows |
| Send.DispatchAddDone | src/send.rs:155-157 | an `AddDone` message runs `add_done`, raising the entry's visible done by its amount |
| Send.AddDoneTwice | src/send.rs:155-157 | two `AddDone` messages for one id raise its visible done by their sum (so `AddDone(1)` twice raises it by 2) and touch nothing else of the entry |
| Send.SentKeepsQueue | src/send.rs:35-37 | on a queue shared by several senders, a send keeps the earlier messages in place and in order and adds at most one, at the end, carrying the sender's id and message; it adds one iff the queue had room |
| Loading.WrappingAdd | src/lib.rs:284-287 | `fetch_add` wraps: the exact sum below 2^32, the sum minus 2^32 above |
| Loading.Min | src/lib.rs:287 | `u32::min` is at most both operands and equals one of them |
| Loading.Tracked | src/lib.rs:283-288 | `manually_track` adds `p.total` to total and `min(p.done, p.total)` to done; without wrap-around `done <= total` is preserved |
| Loading.TrackedClampsOverreport | src/lib.rs:285-287 | a report with `done > total` contributes only its total to done |
| Loading.TrackedWrapsTotal | src/lib.rs:284 | a total pushed past `u32::MAX` wraps to a smaller value |
| Loading.ProgressCounter.constructor | src/lib.rs:255-263 | `ProgressCounter::default()` (inserted at `loadstate_enter`): every counter and `persisted` start at zero |
| Loading.ProgressCounter.CurrentProgress | src/lib.rs:272-277 | reads the two counters as one `Progress` |
| Loading.ProgressCounter.ManuallyTrack | src/lib.rs:283-288 | the counters become `Tracked(old counters, p)`; `persisted` unchanged |
| Loading.ProgressCounter.PersistProgress | src/lib.rs:291-294 | tracks `p` for the frame and adds the unclamped `p` to `persisted` |
| Loading.ProgressCounter.NextFrame | src/lib.rs:319-328 | the counters are set to exactly `persisted`, so `progress()` then equals `persisted` |
| Loading.CheckProgressDecision | src/lib.rs:310-315 | a state is requested iff the counters are ready and a next state is configured, and then it is that state |
| Loading.CheckProgress | src/lib.rs:305-317 | `check_progress` issues exactly the request the decision names, and none otherwise |
| Loading.ZeroCounterTransitions | src/lib.rs:297-317 | a counter at zero is ready, so `check_progress` asks for the configured next state at once |
| StateRules.DefaultConfig | src/state.rs:14-20 | the default configuration maps no state |
| StateRules.RcConfiguredState | src/state.rs:38-44 | false without a current state; otherwise true iff the current state is a key of `map_from_to` |
| StateRules.DefaultConfigNeverRuns | src/state.rs:14-20 | under the default configuration the run condition never holds |
| StateRules.TransitionTarget | src/state.rs:46-59 | the next state becomes `map_from_to[current]` when the current state is configured and the tracker ready; otherwise it is left unchanged |
| StateRules.TransitionOnlyToTarget | src/state.rs:52-58 | if the next state changes at all, the tracker was ready in a configured state and the new value is that state's target |
| StateRules.TransitionIfReady | src/state.rs:46-59 | `transition_if_ready` leaves `NextState` as `TransitionTarget` of the tracker's readiness and the old value |
| StateRules.ClearGlobalProgress | src/state.rs:30-36 | the tracker is left with no entries and zero global visible and hidden progress |
| Assets.IsAssetReady | src/assets.rs:82-99 | the decision table: not loaded is finished; loading is not; loaded is finished if dependencies are untracked, and otherwise iff they loaded or failed with failures allowed; failed is finished iff failures are allowed |
| Assets.ReadinessMonotone | src/assets.rs:82-99 | allowing failures or not tracking dependencies only lets more assets through, and a loading asset never does |
| Assets.ReadyIn | src/assets.rs:80-105 | the pending assets that the decision table accepts, and only those |
| Assets.AddPending | src/assets.rs:60-65 | `a` joins `pending` unless it is already done |
| Assets.AddPendingProperties | src/assets.rs:60-65 | `add` keeps `pending` and `done` apart, leaves `a` tracked, and adding twice is adding once |
| Assets.AsU32 | src/assets.rs:112-113 | `as u32` is exact below 2^32 |
| Assets.SetsProgress | src/assets.rs:111-114 | done is the size of `done`, total is the size of `done` plus that of `pending`, so done never exceeds total and it is ready iff nothing is pending |
| Assets.MoveKeepsSize | src/assets.rs:80-105 | moving pending assets to done keeps the sets apart, keeps their union and keeps their combined size |
| Assets.RetainStep | src/assets.rs:80-105 | one step of the `retain` moves the visited asset exactly when it is ready |
| Assets.AssetsLoading.constructor | src/assets.rs:46-55 | `default()`: both sets empty, failures allowed, dependencies tracked |
| Assets.AssetsLoading.Add | src/assets.rs:60-65 | `pending` becomes `AddPending(pending, done, a)`; `done` and the settings are unchanged; the sets stay apart |
| Assets.AssetsLoading.IsReady | src/assets.rs:68-70 | ready iff no asset is pending |
| Assets.RetainPending | src/assets.rs:80-105 | exactly the ready pending assets leave `pending` and join `done`; the change flag holds iff one moved |
| Assets.AssetsProgress | src/assets.rs:73-115 | moves exactly the ready assets, preserves the union and disjointness, sets the change flag iff something moved, and returns the progress of the new sizes |
| Assets.AssetsLoadingReset | src/assets.rs:125-129 | back to the default: empty sets, failures allowed, dependencies tracked |
| LegacyAssets.IsFinished | src/asset.rs:47 | `Loaded` and `Failed` finish a handle and `Loading` never does, under either rule; as written `Unloaded` and `NotLoaded` do not, as documented every state but `Loading` does |
| LegacyAssets.FinishedIn | src/asset.rs:45-50 | the handles whose state finishes under the rule (as written `Loaded` or `Failed`; as documented all but `Loading`), and only those |
| LegacyAssets.Remaining | src/asset.rs:45-53 | the handles a frame leaves: exactly the tracked ones not finished under the rule |
| LegacyAssets.UnloadedStuckAsWritten | src/asset.rs:47 | as written, a handle reported `Unloaded` or `NotLoaded` survives every frame, and further frames against the same server change nothing, so the set never empties |
| LegacyAssets.AsDocumentedWaitsOnlyForLoading | src/asset.rs:13-14 | as documented, a frame keeps exactly the handles still `Loading`, so one with nothing loading empties the set; it finishes every handle the written test finishes |
| LegacyAssets.SubsetSize | src/asset.rs:51-56 | removing handles never makes the set larger |
| LegacyAssets.AssetsLoading.constructor | src/asset.rs:20-24 | `default()`: no handles and a zero total |
| LegacyAssets.AssetsLoading.Add | src/asset.rs:28-31 | the handle is inserted and `total` grows by one even for a duplicate, so there are never more handles than `total` |
| LegacyAssets.AssetsLoading.IsReady | src/asset.rs:34-36 | ready iff no handle is left |
| LegacyAssets.CollectFinished | src/asset.rs:44-50 | the first loop collects exactly the handles finished under the rule |
| LegacyAssets.AssetsProgress | src/asset.rs:39-59 | leaves exactly `Remaining` (with the code's rule: removes exactly the loaded or failed handles) and returns `total` minus the number of handles left, of `total`, which cannot underflow; ready iff no handle is left |
| LegacyAssets.AssetsLoadingReset | src/asset.rs:61-63 | empty handles and zero total |
| Dummy.WaitFramesSystem.constructor | src/utils.rs:14 | the `Local<u32>` counter starts at its default, zero, with no call made |
| Dummy.WaitFramesAsWritten | src/utils.rs:13-18 | the `k`-th call returns a `0/1` or `1/1` value |
| Dummy.WaitFramesAsWrittenReadyAtOnce | src/utils.rs:13-18 | as written, the first call is ready, and the `k`-th call is ready iff `k <= N + 1` |
| Dummy.WaitFrames | src/utils.rs:8-12 | the corrected wait returns a `0/1` or `1/1` value |
| Dummy.WaitFramesWaits | src/utils.rs:8-12 | the corrected wait is ready iff more than `N` calls were made, and stays ready |
| Dummy.WaitFramesSystem.RunAsWritten | src/utils.rs:13-18 | one call increments the counter and returns `WaitFramesAsWritten(N, calls)` |
| Dummy.WaitFramesSystem.Run | src/utils.rs:8-18 | one call of the corrected system returns `WaitFrames(N, calls)` |
| Dummy.CountStep | src/utils.rs:29-31 | one call raises the counter by at most one, keeps it at most `N + 1` once it is, and leaves it unchanged only when it already exceeds `N` |
| Dummy.CountAfterSaturates | src/utils.rs:29-31 | the counter after `k` calls is `min(k, N + 1)` |
| Dummy.CountFrames | src/utils.rs:26-36 | the `k`-th call returns `min(k - 1, N)` of `N`, never more done than total, ready iff `k > N` |
| Dummy.CountFramesSystem.constructor | src/utils.rs:27 | the `Local<u32>` counter starts at its default, zero, with no call made |
| Dummy.CountFramesSystem.Run | src/utils.rs:26-36 | one call keeps the counter at most `N + 1`, `count - 1` does not underflow, and the result is `CountFrames(N, calls)` |

## Left out

- The float conversions `From<Progress> for f32/f64` (src/progress.rs:30-40, src/progress.rs:77-87, src/lib.rs:86-96): floating point, and a zero total divides by zero.
- The mutex of the tracker and the atomics of `NEXT_ID` and `ProgressCounter`, with their memory orderings: every method is one sequential step.
- Tracker.IdAllocator.New: `NEXT_ID` is a `usize` that would wrap after 2^`usize::BITS` ids (2^32 or 2^64, by target); the model counts with an unbounded natural number.
- The crossbeam channel's internals and disconnection: the channel is a bounded FIFO queue whose capacity is a parameter.
- Plugin wiring and scheduling: src/plugin.rs, src/loopless.rs, src/legacy.rs, src/system.rs, `LoadingPlugin::build` and `track` in src/lib.rs.
- src/entity.rs: it only copies component values into `set_progress`/`set_hidden_progress`, and `ProgressEntryId::from_entity` is not part of this model.
- `foreach_entry` (src/tracker.rs:85-93): its closure may change entries without updating the accumulator, so it does not keep the invariant.
- The `ProgressEntry` system-parameter wrappers (src/tracker.rs:473-632): one-line delegations to the tracker methods above.
- The asset server's own queries: they are inputs (maps from id to load state). The error carried by `LoadState::Failed` is dropped.
- `State<S>::set` in src/lib.rs: the model records the requests `check_progress` makes. What the state does with them, including the errors `.ok()` discards, is not modelled.
- `loading.set_changed()` in src/assets.rs: change detection is Bevy's; the model returns the `any_changed` flag instead.
- `dummy_system_wait_millis` (src/utils.rs:41-48): it depends on the wall clock.
- src/debug.rs and the example programs.
- Assets.AssetsProgress: requires fewer than 2^32 tracked assets in total. Beyond that, the `as u32` truncation of the set sizes (and the possible overflow of their sum) is not modelled.
- Tracker.ProgressTracker.SetProgress and the other eleven setters and adders require that no accumulator field passes `u32::MAX` (`Fits`). The adders also require that no entry field does. The source panics in those cases.
- Wrap-around of `+`, `+=`, `-` and `-=` on `u32` in release builds, where overflow checks are off: the model's preconditions (`CanAdd`, `CanSub`, `Fits`, `total + 1 < U32_LIMIT`, `count + 1 < U32_LIMIT`) exclude the overflow that a debug build panics on. What a release build computes in those cases is not modelled. `AtomicU32::fetch_add` in src/lib.rs is the exception: it always wraps, and the model computes that.
- Send.RecvProgressMsgs: requires that no queued message would panic when applied in order (`Drainable`).

## Findings

| source | as written | input that shows it | evidently intended | confidence | as-written member | corrected member |
|---|---|---|---|---|---|---|
| src/utils.rs:17 | `dummy_system_wait_frames::<N>` returns ready while `count - 1 <= N`, i.e. for the first `N + 1` calls, and not ready from call `N + 2` on | `N = 50`, first call: `count = 1`, `0 <= 50`, so `1/1` (ready) immediately | "wait for a number of frames": not ready for the first `N` calls, ready from then on (`count - 1 >= N`) | not executed; high, from the doc comment and from the dummy example, which uses it to wait 50 frames | Dummy.WaitFramesAsWrittenReadyAtOnce | Dummy.WaitFramesWaits |
| src/asset.rs:47 | `assets_progress` removes a handle only when its state is `Loaded` or `Failed`. So a handle in `Unloaded` (or `NotLoaded`) stays forever, and `is_ready` stays false | a handle whose asset the server reports as `Unloaded`: after every frame the handle is still in `handles` | the doc comment of `AssetsLoading` (src/asset.rs:13-14): failed, errored and unloaded assets count as completed, so the loading screen cannot get stuck; only `Loading` keeps a handle | not executed; medium, from the doc comment; the newer src/assets.rs counts `NotLoaded` as finished | LegacyAssets.UnloadedStuckAsWritten | LegacyAssets.AsDocumentedWaitsOnlyForLoading |
