/**
 * The progress value: a pair of unsigned 32-bit counters `done` and `total`,
 * their field-wise arithmetic, the conversion from `bool`, the readiness test
 * and the `HiddenProgress` wrapper (src/progress.rs; the older `Progress` of
 * src/lib.rs has the same fields, conversion, readiness and addition).
 */
module ProgressValue {

  /** One more than the largest `u32`. */
  const U32_LIMIT: int := 0x1_0000_0000

  /** The source's `u32`. */
  type U32 = x: int | 0 <= x < U32_LIMIT

  datatype Progress = Progress(done: U32, total: U32)

  /** `Progress::default()`. */
  const Zero: Progress := Progress(0, 0)

  /** `is_ready`: the work is complete once `done` has reached `total`. */
  predicate IsReady(p: Progress)
    ensures p.total == 0 ==> IsReady(p)
    ensures p.done < p.total ==> !IsReady(p)
    ensures IsReady(p) && p.done <= p.total ==> p.done == p.total
  {
    p.done >= p.total
  }

  /** `From<bool>`: one unit of work, done exactly when `b` holds. */
  function FromBool(b: bool): (r: Progress)
    ensures r.total == 1
    ensures r.done == 1 <==> b
    ensures r.done <= r.total
    ensures IsReady(r) <==> b
  {
    Progress(if b then 1 else 0, 1)
  }

  /** The derived `+` does not panic: neither field sum leaves the `u32` range. */
  predicate CanAdd(a: Progress, b: Progress) {
    a.done + b.done < U32_LIMIT && a.total + b.total < U32_LIMIT
  }

  /** The derived `-` does not panic: neither field of `b` exceeds that of `a`. */
  predicate CanSub(a: Progress, b: Progress) {
    b.done <= a.done && b.total <= a.total
  }

  /** The derived `Add` (and `AddAssign`): field-wise sum, panicking on overflow. */
  function Add(a: Progress, b: Progress): (r: Progress)
    requires CanAdd(a, b)
    ensures CanSub(r, b) && CanSub(r, a)
    ensures IsReady(a) && IsReady(b) ==> IsReady(r)
  {
    Progress(a.done + b.done, a.total + b.total)
  }

  /** The derived `Sub` (and `SubAssign`): field-wise difference, panicking on underflow. */
  function Sub(a: Progress, b: Progress): (r: Progress)
    requires CanSub(a, b)
    ensures CanAdd(r, b)
    ensures r.done <= a.done && r.total <= a.total
  {
    Progress(a.done - b.done, a.total - b.total)
  }

  /** `+` and `-` act on `done` and `total` independently and undo each other. */
  lemma AddSubInverse(a: Progress, b: Progress)
    ensures CanAdd(a, b) ==> Sub(Add(a, b), b) == a
    ensures CanSub(a, b) ==> Add(Sub(a, b), b) == a
  {
  }

  /** `Progress::default()` is the identity of `+` and is ready. */
  lemma ZeroIdentity(a: Progress)
    ensures CanAdd(a, Zero) && Add(a, Zero) == a && Add(Zero, a) == a
    ensures IsReady(Zero)
  {
  }

  /** The readiness boundary: equal counters are ready, one short is not. */
  lemma ReadinessBoundary(n: U32)
    requires n > 0
    ensures IsReady(Progress(n, n))
    ensures !IsReady(Progress(n - 1, n))
  {
  }

  /** Progress that counts toward completion but is not shown to the user. */
  datatype HiddenProgress = HiddenProgress(inner: Progress)

  /** `HiddenProgress::default()`. */
  const HiddenZero: HiddenProgress := HiddenProgress(Zero)

  /** `From<Progress> for HiddenProgress`. */
  function Hide(p: Progress): (h: HiddenProgress)
    ensures Unhide(h) == p
  {
    HiddenProgress(p)
  }

  /** `From<HiddenProgress> for Progress`. */
  function Unhide(h: HiddenProgress): (p: Progress)
  {
    h.inner
  }

  /** The two conversions are inverse to each other. */
  lemma HideUnhideRoundTrip(p: Progress, h: HiddenProgress)
    ensures Unhide(Hide(p)) == p
    ensures Hide(Unhide(h)) == h
  {
  }

  /** `From<bool> for HiddenProgress` wraps the visible conversion. */
  function HiddenFromBool(b: bool): (h: HiddenProgress)
    ensures Unhide(h) == FromBool(b)
    ensures IsReady(Unhide(h)) <==> b
  {
    Hide(FromBool(b))
  }
}
