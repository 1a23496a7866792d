/**
 * The frame-counting dummy systems of src/utils.rs. Each system owns a
 * `Local<u32>` counter that persists between its calls; a system value here
 * is an object with that counter, the const generic `N` as a constant, and a
 * ghost count of the calls made so far, so that each call's result can be
 * stated as a function of how many calls there have been.
 */
module Dummy {
  import opened ProgressValue

  /**
   * The result of the `k`-th call of `dummy_system_wait_frames::<N>` as the
   * source computes it: the counter is `k` after the increment, and the result
   * is `(k - 1 <= N).into()`.
   */
  function WaitFramesAsWritten(n: U32, k: nat): (r: Progress)
    requires k >= 1
    ensures r.total == 1 && r.done <= 1
  {
    FromBool(k - 1 <= n)
  }

  /**
   * As written, the system is ready on its very first call and on each of the
   * first `N + 1` calls, and never ready again from call `N + 2` on: the
   * opposite of waiting for `N` frames.
   */
  lemma WaitFramesAsWrittenReadyAtOnce(n: U32, k: nat)
    requires k >= 1
    ensures IsReady(WaitFramesAsWritten(n, 1))
    ensures IsReady(WaitFramesAsWritten(n, k)) <==> k <= n + 1
  {
  }

  /** The wait as its documentation describes it: not ready for the first `N` calls, ready from then on. */
  function WaitFrames(n: U32, k: nat): (r: Progress)
    requires k >= 1
    ensures r.total == 1 && r.done <= 1
  {
    FromBool(k - 1 >= n)
  }

  /** The corrected wait is not ready during the first `N` calls, ready from call `N + 1`, and stays ready. */
  lemma WaitFramesWaits(n: U32, k: nat, j: nat)
    requires k >= 1
    ensures IsReady(WaitFrames(n, k)) <==> k > n
    ensures k <= j && IsReady(WaitFrames(n, k)) ==> IsReady(WaitFrames(n, j))
  {
  }

  /** A `dummy_system_wait_frames::<N>` system with its local counter. */
  class WaitFramesSystem {
    const n: U32
    var count: U32
    ghost var calls: nat

    ghost predicate Valid()
      reads this
    {
      count == calls
    }

    /** The local counter starts at `u32::default()`, zero. */
    constructor (n: U32)
      ensures Valid() && this.n == n && calls == 0
    {
      this.n := n;
      count := 0;
      calls := 0;
    }

    /** One call of the system as written: `*count += 1` (which panics at `u32::MAX`), then the comparison. */
    method RunAsWritten() returns (p: Progress)
      requires Valid()
      requires count + 1 < U32_LIMIT
      modifies this
      ensures Valid() && calls == old(calls) + 1
      ensures p == WaitFramesAsWritten(n, calls)
    {
      count := count + 1;
      calls := calls + 1;
      p := FromBool(count - 1 <= n);
    }

    /** One call of the corrected system. */
    method Run() returns (p: Progress)
      requires Valid()
      requires count + 1 < U32_LIMIT
      modifies this
      ensures Valid() && calls == old(calls) + 1
      ensures p == WaitFrames(n, calls)
    {
      count := count + 1;
      calls := calls + 1;
      p := FromBool(count - 1 >= n);
    }
  }

  /** One call's update of the `dummy_system_count_frames::<N>` counter: it grows only while it is at most `N`. */
  function CountStep(n: U32, c: nat): (r: nat)
    ensures c <= r <= c + 1
    ensures c <= n + 1 ==> r <= n + 1
    ensures r == c ==> c > n
  {
    if c <= n then c + 1 else c
  }

  /** The counter after `k` calls. */
  function CountAfter(n: U32, k: nat): nat
  {
    if k == 0 then 0 else CountStep(n, CountAfter(n, k - 1))
  }

  /** The counter counts the calls up to `N + 1` and then stays there. */
  lemma {:induction false} CountAfterSaturates(n: U32, k: nat)
    ensures CountAfter(n, k) == if k <= n + 1 then k else n + 1
  {
    if k > 0 {
      CountAfterSaturates(n, k - 1);
    }
  }

  /**
   * The result of the `k`-th call of `dummy_system_count_frames::<N>`:
   * `done` is the number of earlier calls, capped at `N`, and `total` is `N`,
   * so it never reports more done than total and is ready from call `N + 1` on.
   */
  function CountFrames(n: U32, k: nat): (r: Progress)
    requires k >= 1
    ensures r.done == (if k - 1 <= n then k - 1 else n)
    ensures r.total == n
    ensures r.done <= r.total
    ensures IsReady(r) <==> k > n
  {
    CountAfterSaturates(n, k);
    Progress(CountAfter(n, k) - 1, n)
  }

  /** A `dummy_system_count_frames::<N>` system with its local counter. */
  class CountFramesSystem {
    const n: U32
    var count: U32
    ghost var calls: nat

    ghost predicate Valid()
      reads this
    {
      count == CountAfter(n, calls)
    }

    /** The local counter starts at `u32::default()`, zero. */
    constructor (n: U32)
      ensures Valid() && this.n == n && calls == 0
    {
      this.n := n;
      count := 0;
      calls := 0;
    }

    /**
     * One call: the counter is incremented only while it is at most `N`, so it
     * never exceeds `N + 1` and `count - 1` never underflows. The increment can
     * only overflow when `N` is `u32::MAX`.
     */
    method Run() returns (p: Progress)
      requires Valid()
      requires count <= n ==> count + 1 < U32_LIMIT
      modifies this
      ensures Valid() && calls == old(calls) + 1
      ensures count <= n + 1
      ensures p == CountFrames(n, calls)
    {
      if count <= n {
        count := count + 1;
      }
      calls := calls + 1;
      CountAfterSaturates(n, calls);
      p := Progress(count - 1, n);
    }
  }
}
