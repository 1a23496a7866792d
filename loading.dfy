/**
 * The per-frame progress counter of the older design in src/lib.rs.
 *
 * `ProgressCounter` keeps two atomic `u32` counters that tracked systems add
 * to during a frame, and a `persisted` progress that survives into later
 * frames. `next_frame` resets the counters to `persisted`; `check_progress`
 * asks for the next state once the counters are ready. The `Progress` type of
 * that file has the fields, conversion, readiness test and addition of
 * `Progress`, which is used for it here.
 *
 * `AtomicU32::fetch_add` wraps around on overflow (unlike `+=`, which panics
 * in builds with overflow checks, that is debug builds), so the counters are
 * updated modulo 2^32; `persisted += progress` uses the derived `AddAssign`,
 * so it carries a precondition that excludes the overflow instead.
 */
module Loading {
  import opened OptionType
  import opened ProgressValue

  /** `AtomicU32::fetch_add`'s new value: the sum modulo 2^32. */
  function WrappingAdd(a: U32, b: U32): (r: U32)
    ensures a + b < U32_LIMIT ==> r == a + b
    ensures a + b >= U32_LIMIT ==> r == a + b - U32_LIMIT
  {
    (a + b) % U32_LIMIT
  }

  /** `u32::min`. */
  function Min(a: U32, b: U32): (r: U32)
    ensures r <= a && r <= b
    ensures r == a || r == b
  {
    if a <= b then a else b
  }

  /**
   * The counters (as one progress value) after `manually_track(p)`: `total`
   * grows by `p.total`, `done` by `p.done` clamped to `p.total`. Without a
   * wrap-around, a counter with `done <= total` keeps `done <= total`.
   */
  function Tracked(c: Progress, p: Progress): (r: Progress)
    ensures c.total + p.total < U32_LIMIT ==> r.total == c.total + p.total
    ensures c.done + Min(p.done, p.total) < U32_LIMIT ==> r.done == c.done + Min(p.done, p.total)
    ensures c.done <= c.total && c.total + p.total < U32_LIMIT ==> r.done <= r.total
  {
    Progress(WrappingAdd(c.done, Min(p.done, p.total)), WrappingAdd(c.total, p.total))
  }

  /** Tracking a value that claims more work done than exists counts only its total as done. */
  lemma TrackedClampsOverreport(c: Progress, p: Progress)
    requires p.done > p.total
    requires c.total + p.total < U32_LIMIT && c.done + p.total < U32_LIMIT
    ensures Tracked(c, p).done == c.done + p.total
    ensures Tracked(c, p).total == c.total + p.total
  {
  }

  /** The counters wrap around silently: a total pushed past `u32::MAX` starts again from zero. */
  lemma TrackedWrapsTotal(c: Progress, p: Progress)
    requires c.total + p.total >= U32_LIMIT
    ensures Tracked(c, p).total == c.total + p.total - U32_LIMIT
    ensures Tracked(c, p).total < c.total
  {
  }

  /** `ProgressCounter`: the two atomic counters of the current frame and the persisted progress. */
  class ProgressCounter {
    var done: U32
    var total: U32
    var persisted: Progress

    /** `ProgressCounter::default()`, inserted by `loadstate_enter`: everything at zero. */
    constructor ()
      ensures CurrentProgress() == Zero && persisted == Zero
    {
      done := 0;
      total := 0;
      persisted := Zero;
    }

    /** `progress`: the two counters read together. */
    function CurrentProgress(): (r: Progress)
      reads this
      ensures r.done == done && r.total == total
    {
      Progress(done, total)
    }

    /** `manually_track`: add `p.total` to `total` and the clamped `p.done` to `done`. */
    method ManuallyTrack(p: Progress)
      modifies this
      ensures CurrentProgress() == Tracked(old(CurrentProgress()), p)
      ensures persisted == old(persisted)
    {
      total := WrappingAdd(total, p.total);
      done := WrappingAdd(done, Min(p.done, p.total));
    }

    /** `persist_progress`: track `p` for this frame and add it, unclamped, to `persisted`. */
    method PersistProgress(p: Progress)
      requires CanAdd(persisted, p)
      modifies this
      ensures CurrentProgress() == Tracked(old(CurrentProgress()), p)
      ensures persisted == Add(old(persisted), p)
    {
      ManuallyTrack(p);
      persisted := Add(persisted, p);
    }

    /** `next_frame`: the counters start the frame at the persisted progress. */
    method NextFrame()
      modifies this
      ensures CurrentProgress() == persisted
      ensures persisted == old(persisted)
    {
      done := persisted.done;
      total := persisted.total;
    }
  }

  /**
   * The decision inside `check_progress`: the state to ask for, if any. It is
   * `next_state` exactly when the counters are ready and a next state is
   * configured, and nothing otherwise.
   */
  function CheckProgressDecision<S>(progress: Progress, nextState: Option<S>): (r: Option<S>)
    ensures r.Some? <==> IsReady(progress) && nextState.Some?
    ensures r.Some? ==> r == nextState
  {
    if IsReady(progress) then nextState else None
  }

  /** The `State<S>::set` requests made so far; what `State` does with them is not modelled. */
  class StateRequests<S> {
    var requested: seq<S>

    constructor ()
      ensures requested == []
    {
      requested := [];
    }
  }

  /** `check_progress`: request `next_state` from the state once the counter is ready. */
  method CheckProgress<S>(counter: ProgressCounter, nextState: Option<S>, state: StateRequests<S>)
    modifies state
    ensures CheckProgressDecision(counter.CurrentProgress(), nextState).Some? ==>
      state.requested == old(state.requested) + [nextState.value]
    ensures CheckProgressDecision(counter.CurrentProgress(), nextState).None? ==>
      state.requested == old(state.requested)
  {
    var progress := counter.CurrentProgress();
    if IsReady(progress) {
      if nextState.Some? {
        state.requested := state.requested + [nextState.value];
      }
    }
  }

  /** A counter at zero is ready: with nothing tracked, `check_progress` asks for the next state at once. */
  lemma ZeroCounterTransitions<S>(nextState: Option<S>)
    ensures CheckProgressDecision(Zero, nextState) == nextState
  {
  }
}
