/**
 * The state-transition rule of src/state.rs: a configuration maps each
 * progress-tracked state to the state that follows it, and once the tracker
 * is ready in a configured state the following state is queued as the next
 * state. `State<S>` is the current state (absent before the state exists),
 * `NextState<S>` the queued transition, written only by `transition_if_ready`.
 */
module StateRules {
  import opened OptionType
  import opened Tracker

  /** `StateTransitionConfig<S>`: the `from -> to` map. */
  datatype StateTransitionConfig<S(==)> = StateTransitionConfig(mapFromTo: map<S, S>)

  /** `StateTransitionConfig::default()`: no state is configured. */
  function DefaultConfig<S(==)>(): (c: StateTransitionConfig<S>)
    ensures forall s: S :: s !in c.mapFromTo
  {
    StateTransitionConfig(map[])
  }

  /** `rc_configured_state`: there is a current state and it is a key of the map. */
  predicate RcConfiguredState<S(==)>(config: StateTransitionConfig<S>, state: Option<S>)
    ensures RcConfiguredState(config, state) <==> state.Some? && state.value in config.mapFromTo
  {
    match state
    case None => false
    case Some(s) => s in config.mapFromTo
  }

  /** Under the default configuration the run condition never holds. */
  lemma DefaultConfigNeverRuns<S>(state: Option<S>)
    ensures !RcConfiguredState(DefaultConfig(), state)
  {
  }

  /** `NextState<S>`: the transition queued for the next frame, if any. */
  class NextState<S> {
    var pending: Option<S>

    /** `NextState::default()`: nothing queued. */
    constructor ()
      ensures pending == None
    {
      pending := None;
    }
  }

  /**
   * The queued transition after `transition_if_ready`: the configured target
   * of the current state when the tracker is ready, and the old queued value
   * when the state is not configured or the tracker is not ready.
   */
  function TransitionTarget<S(==)>(config: StateTransitionConfig<S>, current: S, ready: bool, pending: Option<S>): (r: Option<S>)
    ensures RcConfiguredState(config, Some(current)) && ready ==> r == Some(config.mapFromTo[current])
    ensures !(RcConfiguredState(config, Some(current)) && ready) ==> r == pending
  {
    if current in config.mapFromTo && ready then Some(config.mapFromTo[current]) else pending
  }

  /** The queued value only changes to the configured target of the current state. */
  lemma TransitionOnlyToTarget<S>(config: StateTransitionConfig<S>, current: S, ready: bool, pending: Option<S>)
    requires TransitionTarget(config, current, ready, pending) != pending
    ensures ready && current in config.mapFromTo
    ensures TransitionTarget(config, current, ready, pending) == Some(config.mapFromTo[current])
  {
  }

  /** `transition_if_ready`: queue the configured target once the whole tracker is ready. */
  method TransitionIfReady<S(==)>(tracker: ProgressTracker, config: StateTransitionConfig<S>, current: S, next: NextState<S>)
    requires tracker.Valid()
    requires ProgressValue.CanAdd(tracker.accum.0, tracker.accum.1.inner)
    modifies next
    ensures next.pending == TransitionTarget(config, current, tracker.IsReady(), old(next.pending))
  {
    if current in config.mapFromTo {
      var to := config.mapFromTo[current];
      if tracker.IsReady() {
        next.pending := Some(to);
      }
    }
  }

  /** `clear_global_progress`: the tracker is left with no entries and zero global progress. */
  method ClearGlobalProgress(tracker: ProgressTracker)
    modifies tracker
    ensures tracker.Valid() && tracker.entries == map[]
    ensures tracker.GetGlobalProgress() == ProgressValue.Zero
    ensures tracker.GetGlobalHiddenProgress() == ProgressValue.HiddenZero
  {
    tracker.Clear();
  }
}
