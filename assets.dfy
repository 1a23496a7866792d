/**
 * Asset tracking of src/assets.rs: a set of pending asset ids and a set of
 * done ones. Every frame, `assets_progress` asks the asset server for the load
 * state of each pending asset, moves the ready ones to `done`, and reports
 * the progress `|done| / (|done| + |pending|)`.
 *
 * The asset server is an input: a map from asset id to its own load state
 * and a map from asset id to the load state of its dependencies, an id it
 * does not know being `NotLoaded`.
 */
module Assets {
  import opened ProgressValue

  /** `UntypedAssetId`. */
  type AssetId = nat

  /** `LoadState` of the asset itself (the error carried by `Failed` is left out). */
  datatype LoadState = NotLoaded | Loading | Loaded | Failed

  /** `RecursiveDependencyLoadState`: the combined state of an asset's dependencies. */
  datatype DependencyLoadState = DepNotLoaded | DepLoading | DepLoaded | DepFailed
  {
    predicate IsLoaded() { this == DepLoaded }
    predicate IsFailed() { this == DepFailed }
  }

  /** What the `AssetServer` answers about the assets. */
  datatype AssetServer = AssetServer(states: map<AssetId, LoadState>, dependencies: map<AssetId, DependencyLoadState>)

  /** `load_state`. */
  function LoadStateOf(server: AssetServer, a: AssetId): LoadState
  {
    if a in server.states then server.states[a] else NotLoaded
  }

  /** `recursive_dependency_load_state`. */
  function DependencyStateOf(server: AssetServer, a: AssetId): DependencyLoadState
  {
    if a in server.dependencies then server.dependencies[a] else DepNotLoaded
  }

  /**
   * The `match` in `assets_progress` that decides whether a pending asset is
   * finished. An asset the server does not know counts as finished, a loading
   * one never does, a failed one does only when failures are allowed, and a
   * loaded one does when dependencies are not tracked, or when they have
   * loaded, or when they have failed and failures are allowed.
   */
  predicate IsAssetReady(state: LoadState, deps: DependencyLoadState, allowFailures: bool, trackDependencies: bool)
    ensures state == NotLoaded ==> IsAssetReady(state, deps, allowFailures, trackDependencies)
    ensures state == Loading ==> !IsAssetReady(state, deps, allowFailures, trackDependencies)
    ensures state == Loaded && trackDependencies ==>
      (IsAssetReady(state, deps, allowFailures, trackDependencies) <==> (allowFailures && deps == DepFailed) || deps == DepLoaded)
    ensures state == Loaded && !trackDependencies ==> IsAssetReady(state, deps, allowFailures, trackDependencies)
    ensures state == Failed ==> (IsAssetReady(state, deps, allowFailures, trackDependencies) <==> allowFailures)
  {
    match state
    case NotLoaded => true
    case Loading => false
    case Loaded =>
      if trackDependencies then
        if allowFailures && deps.IsFailed() then true else deps.IsLoaded()
      else true
    case Failed => allowFailures
  }

  /** Allowing failures and not tracking dependencies can only let more assets through. */
  lemma ReadinessMonotone(state: LoadState, deps: DependencyLoadState, allowFailures: bool, trackDependencies: bool)
    ensures IsAssetReady(state, deps, false, trackDependencies) ==> IsAssetReady(state, deps, allowFailures, trackDependencies)
    ensures IsAssetReady(state, deps, allowFailures, true) ==> IsAssetReady(state, deps, allowFailures, false)
    ensures IsAssetReady(state, deps, allowFailures, trackDependencies) ==> state != Loading
  {
  }

  /** The pending assets that are finished under the given settings. */
  function ReadyIn(server: AssetServer, pending: set<AssetId>, allowFailures: bool, trackDependencies: bool): (r: set<AssetId>)
    ensures r <= pending
    ensures forall a :: a in pending ==>
      (a in r <==> IsAssetReady(LoadStateOf(server, a), DependencyStateOf(server, a), allowFailures, trackDependencies))
  {
    set a | a in pending && IsAssetReady(LoadStateOf(server, a), DependencyStateOf(server, a), allowFailures, trackDependencies)
  }

  /** The pending set after `add(a)`: `a` joins it unless it is done already. */
  function AddPending(pending: set<AssetId>, done: set<AssetId>, a: AssetId): (r: set<AssetId>)
    ensures a in done ==> r == pending
    ensures a !in done ==> r == pending + {a}
  {
    if a !in done then pending + {a} else pending
  }

  /** `add` keeps the two sets apart, always leaves `a` tracked, and adding twice is adding once. */
  lemma AddPendingProperties(pending: set<AssetId>, done: set<AssetId>, a: AssetId)
    ensures pending !! done ==> AddPending(pending, done, a) !! done
    ensures a in AddPending(pending, done, a) + done
    ensures AddPending(AddPending(pending, done, a), done, a) == AddPending(pending, done, a)
  {
  }

  /** `as u32`: truncation to the low 32 bits. */
  function AsU32(n: nat): (r: U32)
    ensures n < U32_LIMIT ==> r == n
  {
    n % U32_LIMIT
  }

  /**
   * The progress `assets_progress` returns from the sizes of the two sets:
   * `done` over `done + pending`, so never more done than total, and ready
   * exactly when nothing is pending.
   */
  function SetsProgress(doneCount: nat, pendingCount: nat): (r: Progress)
    requires doneCount + pendingCount < U32_LIMIT
    ensures r.done == doneCount && r.total == doneCount + pendingCount
    ensures r.done <= r.total
    ensures IsReady(r) <==> pendingCount == 0
  {
    Progress(AsU32(doneCount), AsU32(doneCount) + AsU32(pendingCount))
  }

  /** Moving part of the pending set to the done set keeps the two apart and keeps their total size. */
  lemma MoveKeepsSize<T>(pending: set<T>, done: set<T>, moved: set<T>)
    requires pending !! done && moved <= pending
    ensures (pending - moved) !! (done + moved)
    ensures (pending - moved) + (done + moved) == pending + done
    ensures |pending - moved| + |done + moved| == |pending| + |done|
  {
    assert done !! moved;
  }

  /** One step of the `retain`: visiting `a` moves it exactly when it is ready. */
  lemma RetainStep<T>(pending: set<T>, done: set<T>, ready: set<T>, todo: set<T>, a: T)
    requires a in todo && todo <= pending && ready <= pending
    ensures a in ready ==>
      && pending - (ready - (todo - {a})) == (pending - (ready - todo)) - {a}
      && done + (ready - (todo - {a})) == (done + (ready - todo)) + {a}
      && ready - (todo - {a}) != {}
    ensures a !in ready ==> ready - (todo - {a}) == ready - todo
  {
    if a in ready {
      assert a in ready - (todo - {a});
    }
  }

  /** `AssetsLoading<S>`: the tracked asset ids and the two settings. */
  class AssetsLoading {
    var pending: set<AssetId>
    var done: set<AssetId>
    /** Whether a failed asset (or dependency) counts as finished. */
    var allowFailures: bool
    /** Whether a loaded asset also waits for its dependencies. */
    var trackDependencies: bool

    /** No asset is pending and done at once. */
    ghost predicate Valid()
      reads this
    {
      pending !! done
    }

    /** `AssetsLoading::default()`: nothing tracked; failures allowed and dependencies tracked. */
    constructor ()
      ensures Valid() && pending == {} && done == {}
      ensures allowFailures && trackDependencies
    {
      pending := {};
      done := {};
      allowFailures := true;
      trackDependencies := true;
    }

    /** `add`: track an asset, unless it has finished already. */
    method Add(a: AssetId)
      requires Valid()
      modifies this
      ensures Valid()
      ensures pending == AddPending(old(pending), old(done), a) && done == old(done)
      ensures allowFailures == old(allowFailures) && trackDependencies == old(trackDependencies)
    {
      AddPendingProperties(pending, done, a);
      if a !in done {
        pending := pending + {a};
      }
    }

    /** `is_ready`: no asset is pending. */
    predicate IsReady()
      reads this
      ensures IsReady() <==> forall a :: a !in pending
    {
      assert pending != {} ==> exists a :: a in pending;
      pending == {}
    }
  }

  /**
   * The `retain` of `assets_progress` over `pending`: each ready asset leaves
   * `pending` and is inserted into `done`, every other asset stays, and
   * `anyChanged` records whether any asset moved.
   */
  method RetainPending(server: AssetServer, pending: set<AssetId>, done: set<AssetId>, allowFailures: bool, trackDependencies: bool)
    returns (pending': set<AssetId>, done': set<AssetId>, anyChanged: bool)
    ensures pending' == pending - ReadyIn(server, pending, allowFailures, trackDependencies)
    ensures done' == done + ReadyIn(server, pending, allowFailures, trackDependencies)
    ensures anyChanged <==> ReadyIn(server, pending, allowFailures, trackDependencies) != {}
  {
    ghost var ready := ReadyIn(server, pending, allowFailures, trackDependencies);
    pending', done' := pending, done;
    anyChanged := false;
    var todo := pending;
    while todo != {}
      invariant todo <= pending
      invariant pending' == pending - (ready - todo)
      invariant done' == done + (ready - todo)
      invariant anyChanged <==> ready - todo != {}
      decreases |todo|
    {
      var a :| a in todo;
      RetainStep(pending, done, ready, todo, a);
      if IsAssetReady(LoadStateOf(server, a), DependencyStateOf(server, a), allowFailures, trackDependencies) {
        done' := done' + {a};
        anyChanged := true;
        pending' := pending' - {a};
      }
      todo := todo - {a};
    }
    assert ready - todo == ready;
  }

  /**
   * `assets_progress`: the ready pending assets move to `done`, and the result
   * is the progress of the new set sizes; `anyChanged` stands for the
   * `set_changed` call.
   */
  method AssetsProgress(loading: AssetsLoading, server: AssetServer) returns (p: Progress, anyChanged: bool)
    requires loading.Valid()
    requires |loading.pending| + |loading.done| < U32_LIMIT
    modifies loading
    ensures loading.Valid()
    ensures loading.pending == old(loading.pending) - ReadyIn(server, old(loading.pending), loading.allowFailures, loading.trackDependencies)
    ensures loading.done == old(loading.done) + ReadyIn(server, old(loading.pending), loading.allowFailures, loading.trackDependencies)
    ensures loading.pending + loading.done == old(loading.pending) + old(loading.done)
    ensures anyChanged <==> ReadyIn(server, old(loading.pending), loading.allowFailures, loading.trackDependencies) != {}
    ensures loading.allowFailures == old(loading.allowFailures) && loading.trackDependencies == old(loading.trackDependencies)
    ensures |loading.pending| + |loading.done| < U32_LIMIT
    ensures p == SetsProgress(|loading.done|, |loading.pending|)
  {
    ghost var ready := ReadyIn(server, loading.pending, loading.allowFailures, loading.trackDependencies);
    MoveKeepsSize(loading.pending, loading.done, ready);
    var pending, done, changed := RetainPending(server, loading.pending, loading.done, loading.allowFailures, loading.trackDependencies);
    loading.pending, loading.done := pending, done;
    anyChanged := changed;
    p := Progress(AsU32(|done|), AsU32(|done|) + AsU32(|pending|));
  }

  /** `assets_loading_reset`: back to `AssetsLoading::default()`. */
  method AssetsLoadingReset(loading: AssetsLoading)
    modifies loading
    ensures loading.Valid() && loading.pending == {} && loading.done == {}
    ensures loading.allowFailures && loading.trackDependencies
  {
    loading.pending := {};
    loading.done := {};
    loading.allowFailures := true;
    loading.trackDependencies := true;
  }
}
