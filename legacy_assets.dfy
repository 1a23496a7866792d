/**
 * Asset tracking of the older design in src/asset.rs: a set of handles that
 * have not finished loading and a `u32` count of every `add` call. Each frame,
 * `assets_progress` collects the finished handles into a list, removes them,
 * and reports `total - |handles|` of `total` as done.
 *
 * Which handles count as finished is a parameter: the code counts only
 * `Loaded` and `Failed`, while the documentation of `AssetsLoading` promises
 * that unloaded assets count as completed too, so that a loading screen cannot
 * get stuck on them.
 *
 * The asset server is an input: a map from handle to load state, a handle it
 * does not know being `NotLoaded`.
 */
module LegacyAssets {
  import opened ProgressValue

  /** `HandleId`. */
  type HandleId = nat

  /** The `LoadState` of the Bevy version this file was written against. */
  datatype LoadState = NotLoaded | Loading | Loaded | Failed | Unloaded

  /** What the `AssetServer` answers about the handles. */
  datatype AssetServer = AssetServer(states: map<HandleId, LoadState>)

  /** `get_load_state`. */
  function GetLoadState(server: AssetServer, h: HandleId): LoadState
  {
    if h in server.states then server.states[h] else NotLoaded
  }

  /** Which load states end the wait for a handle. */
  datatype FinishRule =
    | AsWritten     // the test in `assets_progress`: loaded or failed
    | AsDocumented  // every state but `Loading`: failed, errored and unloaded assets count as completed

  /** The test of the first loop of `assets_progress`, under the given rule. */
  predicate IsFinished(state: LoadState, rule: FinishRule)
    ensures state == Loaded || state == Failed ==> IsFinished(state, rule)
    ensures state == Loading ==> !IsFinished(state, rule)
    ensures rule == AsDocumented ==> (IsFinished(state, rule) <==> state != Loading)
    ensures rule == AsWritten && (state == Unloaded || state == NotLoaded) ==> !IsFinished(state, rule)
  {
    match rule
    case AsWritten => state == Loaded || state == Failed
    case AsDocumented => state != Loading
  }

  /** The handles of `handles` whose load state is finished. */
  function FinishedIn(server: AssetServer, handles: set<HandleId>, rule: FinishRule): (r: set<HandleId>)
    ensures r <= handles
    ensures forall h :: h in handles ==> (h in r <==> IsFinished(GetLoadState(server, h), rule))
  {
    set h | h in handles && IsFinished(GetLoadState(server, h), rule)
  }

  /** The handles left after one frame of `assets_progress`. */
  function Remaining(server: AssetServer, handles: set<HandleId>, rule: FinishRule): (r: set<HandleId>)
    ensures r <= handles
    ensures forall h :: h in handles ==> (h in r <==> !IsFinished(GetLoadState(server, h), rule))
  {
    handles - FinishedIn(server, handles, rule)
  }

  /**
   * As written, a handle the server reports as `Unloaded` (or does not know,
   * `NotLoaded`) is never removed: it survives the frame, and every further
   * frame against the same server leaves the handles as they are, so
   * `is_ready` stays false.
   */
  lemma {:induction false} UnloadedStuckAsWritten(server: AssetServer, handles: set<HandleId>, h: HandleId)
    requires h in handles
    requires GetLoadState(server, h) == Unloaded || GetLoadState(server, h) == NotLoaded
    ensures h in Remaining(server, handles, AsWritten)
    ensures Remaining(server, handles, AsWritten) != {}
    ensures Remaining(server, Remaining(server, handles, AsWritten), AsWritten) == Remaining(server, handles, AsWritten)
  {
    var r := Remaining(server, handles, AsWritten);
    assert !IsFinished(GetLoadState(server, h), AsWritten);
    assert h in r;
    assert Remaining(server, r, AsWritten) == r by {
      forall x | x in r
        ensures x in Remaining(server, r, AsWritten)
      {
        assert !IsFinished(GetLoadState(server, x), AsWritten);
      }
    }
  }

  /**
   * As documented, only a handle that is still loading is kept, so a frame in
   * which nothing is loading empties the set; and the documented rule
   * finishes every handle the written rule finishes.
   */
  lemma {:induction false} AsDocumentedWaitsOnlyForLoading(server: AssetServer, handles: set<HandleId>)
    ensures Remaining(server, handles, AsDocumented) == set h | h in handles && GetLoadState(server, h) == Loading
    ensures (forall h :: h in handles ==> GetLoadState(server, h) != Loading) ==> Remaining(server, handles, AsDocumented) == {}
    ensures FinishedIn(server, handles, AsWritten) <= FinishedIn(server, handles, AsDocumented)
  {
    var loading := set h | h in handles && GetLoadState(server, h) == Loading;
    forall h | h in handles
      ensures h in Remaining(server, handles, AsDocumented) <==> h in loading
    {
      assert IsFinished(GetLoadState(server, h), AsDocumented) <==> GetLoadState(server, h) != Loading;
    }
  }

  /** The elements of a list. */
  ghost function Elements(s: seq<HandleId>): set<HandleId>
  {
    set x | x in s
  }

  /** A subset is no larger than its superset. */
  lemma {:induction false} SubsetSize<T>(a: set<T>, b: set<T>)
    requires a <= b
    ensures |a| <= |b|
    decreases |b|
  {
    if a != {} {
      var x :| x in a;
      SubsetSize(a - {x}, b - {x});
    }
  }

  /** `AssetsLoading`: the unfinished handles and the number of `add` calls. */
  class AssetsLoading {
    var handles: set<HandleId>
    var total: U32

    /** Every handle was counted when it was added, so there are never more handles than `total`. */
    ghost predicate Valid()
      reads this
    {
      |handles| <= total
    }

    /** `AssetsLoading::default()`: no handles, zero total. */
    constructor ()
      ensures Valid() && handles == {} && total == 0
    {
      handles := {};
      total := 0;
    }

    /** `add`: insert the handle and count it, even when it is already tracked (`+= 1` panics at `u32::MAX`). */
    method Add(h: HandleId)
      requires Valid()
      requires total + 1 < U32_LIMIT
      modifies this
      ensures Valid()
      ensures handles == old(handles) + {h} && total == old(total) + 1
    {
      assert |handles + {h}| <= |handles| + 1;
      handles := handles + {h};
      total := total + 1;
    }

    /** `is_ready`: no handle is left. */
    predicate IsReady()
      reads this
      ensures IsReady() <==> forall h :: h !in handles
    {
      assert handles != {} ==> exists h :: h in handles;
      handles == {}
    }
  }

  /**
   * The first loop of `assets_progress`: the finished handles, collected into
   * a list in iteration order.
   */
  method CollectFinished(server: AssetServer, handles: set<HandleId>, rule: FinishRule) returns (done: seq<HandleId>)
    ensures Elements(done) == FinishedIn(server, handles, rule)
  {
    done := [];
    var todo := handles;
    while todo != {}
      invariant todo <= handles
      invariant Elements(done) == FinishedIn(server, handles - todo, rule)
      decreases |todo|
    {
      var h :| h in todo;
      ghost var seen := handles - todo;
      assert handles - (todo - {h}) == seen + {h};
      if IsFinished(GetLoadState(server, h), rule) {
        assert Elements(done + [h]) == Elements(done) + {h};
        done := done + [h];
      }
      todo := todo - {h};
    }
    assert handles - todo == handles;
  }

  /**
   * `assets_progress`: exactly the handles finished under the rule (as
   * written: loaded or failed) are removed, all others stay; the result has `total` as its total and the removed count,
   * `total - |handles|`, as done, which cannot underflow because the handles
   * never outnumber `total`.
   */
  method AssetsProgress(loading: AssetsLoading, server: AssetServer, rule: FinishRule) returns (p: Progress)
    requires loading.Valid()
    modifies loading
    ensures loading.Valid()
    ensures loading.handles == Remaining(server, old(loading.handles), rule)
    ensures loading.total == old(loading.total)
    ensures p.total == loading.total && p.done == loading.total - |loading.handles|
    ensures p.done <= p.total
    ensures IsReady(p) <==> loading.handles == {}
  {
    var done := CollectFinished(server, loading.handles, rule);
    for i := 0 to |done|
      invariant loading.handles == old(loading.handles) - Elements(done[..i])
      invariant loading.total == old(loading.total)
    {
      assert Elements(done[..i + 1]) == Elements(done[..i]) + {done[i]} by {
        assert done[..i + 1] == done[..i] + [done[i]];
      }
      loading.handles := loading.handles - {done[i]};
    }
    assert done[..|done|] == done;
    SubsetSize(loading.handles, old(loading.handles));
    p := Progress(loading.total - |loading.handles|, loading.total);
  }

  /** `assets_loading_reset`: back to `AssetsLoading::default()`. */
  method AssetsLoadingReset(loading: AssetsLoading)
    modifies loading
    ensures loading.Valid() && loading.handles == {} && loading.total == 0
  {
    loading.handles := {};
    loading.total := 0;
  }
}
