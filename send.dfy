/**
 * The cross-thread reporting channel of src/send.rs: a `ProgressSender` bound to
 * one entry id pushes `(id, message)` pairs onto a bounded FIFO queue without
 * ever blocking (a send on a full queue is dropped), and `recv_progress_msgs`
 * drains the queue once per frame, applying every message to the tracker
 * method of the same name, in the order the messages were sent.
 */
module Send {
  import opened OptionType
  import opened ProgressValue
  import opened Tracker

  /** `ProgressMessage`: one tracker update, named after the tracker method it calls. */
  datatype ProgressMessage =
    | SetProgress(done: U32, total: U32)
    | SetHiddenProgress(done: U32, total: U32)
    | SetTotal(total: U32)
    | SetDone(done: U32)
    | SetHiddenTotal(total: U32)
    | SetHiddenDone(done: U32)
    | AddProgress(done: U32, total: U32)
    | AddHiddenProgress(done: U32, total: U32)
    | AddTotal(total: U32)
    | AddDone(done: U32)
    | AddHiddenTotal(total: U32)
    | AddHiddenDone(done: U32)

  /** What travels through the channel: the target id and the update. */
  type Item = (ProgressEntryId, ProgressMessage)

  /** The queue after a best-effort send: appended when there is room, unchanged otherwise. */
  function Sent(queue: seq<Item>, capacity: nat, item: Item): seq<Item>
  {
    if |queue| < capacity then queue + [item] else queue
  }

  /** The crossbeam channel, as a bounded FIFO queue. */
  class Channel {
    const capacity: nat
    var queue: seq<Item>

    constructor (capacity: nat)
      ensures this.capacity == capacity && queue == []
    {
      this.capacity := capacity;
      queue := [];
    }

    /** `try_send`: fails instead of blocking when the queue is full. */
    method TrySend(item: Item) returns (ok: bool)
      modifies this
      ensures ok <==> |old(queue)| < capacity
      ensures queue == Sent(old(queue), capacity, item)
    {
      ok := |queue| < capacity;
      if ok {
        queue := queue + [item];
      }
    }

    /** One step of `try_iter`: the oldest queued item, if any. */
    method TryRecv() returns (r: Option<Item>)
      modifies this
      ensures old(queue) == [] ==> r == None && queue == []
      ensures old(queue) != [] ==> r == Some(old(queue)[0]) && queue == old(queue)[1..]
    {
      if queue == [] {
        r := None;
      } else {
        r := Some(queue[0]);
        queue := queue[1..];
      }
    }
  }

  /** `ProgressSender`: a cloneable handle that reports updates for one id. */
  class ProgressSender {
    const id: ProgressEntryId
    const sender: Channel

    constructor (id: ProgressEntryId, sender: Channel)
      ensures this.id == id && this.sender == sender
    {
      this.id := id;
      this.sender := sender;
    }

    /** `id`. */
    function Id(): (r: ProgressEntryId)
      ensures r == id
    {
      id
    }

    /** The derived `Clone`: another handle for the same id and the same channel. */
    method Clone() returns (c: ProgressSender)
      ensures fresh(c) && c.id == id && c.sender == sender
    {
      c := new ProgressSender(id, sender);
    }

    /** `msg`: send `(id, msg)`; a failed send is ignored and leaves the queue as it was. */
    method Msg(msg: ProgressMessage)
      modifies sender
      ensures sender.queue == Sent(old(sender.queue), sender.capacity, (id, msg))
    {
      var _ := sender.TrySend((id, msg));
    }

    method SetProgress(done: U32, total: U32)
      modifies sender
      ensures sender.queue == Sent(old(sender.queue), sender.capacity, (id, ProgressMessage.SetProgress(done, total)))
    {
      Msg(ProgressMessage.SetProgress(done, total));
    }

    method SetHiddenProgress(done: U32, total: U32)
      modifies sender
      ensures sender.queue == Sent(old(sender.queue), sender.capacity, (id, ProgressMessage.SetHiddenProgress(done, total)))
    {
      Msg(ProgressMessage.SetHiddenProgress(done, total));
    }

    method SetTotal(total: U32)
      modifies sender
      ensures sender.queue == Sent(old(sender.queue), sender.capacity, (id, ProgressMessage.SetTotal(total)))
    {
      Msg(ProgressMessage.SetTotal(total));
    }

    method SetDone(done: U32)
      modifies sender
      ensures sender.queue == Sent(old(sender.queue), sender.capacity, (id, ProgressMessage.SetDone(done)))
    {
      Msg(ProgressMessage.SetDone(done));
    }

    method SetHiddenTotal(total: U32)
      modifies sender
      ensures sender.queue == Sent(old(sender.queue), sender.capacity, (id, ProgressMessage.SetHiddenTotal(total)))
    {
      Msg(ProgressMessage.SetHiddenTotal(total));
    }

    method SetHiddenDone(done: U32)
      modifies sender
      ensures sender.queue == Sent(old(sender.queue), sender.capacity, (id, ProgressMessage.SetHiddenDone(done)))
    {
      Msg(ProgressMessage.SetHiddenDone(done));
    }

    method AddProgress(done: U32, total: U32)
      modifies sender
      ensures sender.queue == Sent(old(sender.queue), sender.capacity, (id, ProgressMessage.AddProgress(done, total)))
    {
      Msg(ProgressMessage.AddProgress(done, total));
    }

    method AddHiddenProgress(done: U32, total: U32)
      modifies sender
      ensures sender.queue == Sent(old(sender.queue), sender.capacity, (id, ProgressMessage.AddHiddenProgress(done, total)))
    {
      Msg(ProgressMessage.AddHiddenProgress(done, total));
    }

    method AddTotal(total: U32)
      modifies sender
      ensures sender.queue == Sent(old(sender.queue), sender.capacity, (id, ProgressMessage.AddTotal(total)))
    {
      Msg(ProgressMessage.AddTotal(total));
    }

    method AddDone(done: U32)
      modifies sender
      ensures sender.queue == Sent(old(sender.queue), sender.capacity, (id, ProgressMessage.AddDone(done)))
    {
      Msg(ProgressMessage.AddDone(done));
    }

    method AddHiddenTotal(total: U32)
      modifies sender
      ensures sender.queue == Sent(old(sender.queue), sender.capacity, (id, ProgressMessage.AddHiddenTotal(total)))
    {
      Msg(ProgressMessage.AddHiddenTotal(total));
    }

    method AddHiddenDone(done: U32)
      modifies sender
      ensures sender.queue == Sent(old(sender.queue), sender.capacity, (id, ProgressMessage.AddHiddenDone(done)))
    {
      Msg(ProgressMessage.AddHiddenDone(done));
    }
  }

  /** The adders' own `+=` on the stored entry does not overflow (the setters cannot overflow the entry). */
  predicate EntryCanTake(m: map<nat, Entry>, item: Item)
  {
    var e := Lookup(m, item.0.raw);
    match item.1
    case AddProgress(d, t) => CanAdd(e.0, Progress(d, t))
    case AddTotal(t) => CanAdd(e.0, Progress(0, t))
    case AddDone(d) => CanAdd(e.0, Progress(d, 0))
    case AddHiddenProgress(d, t) => CanAdd(e.1.inner, Progress(d, t))
    case AddHiddenTotal(t) => CanAdd(e.1.inner, Progress(0, t))
    case AddHiddenDone(d) => CanAdd(e.1.inner, Progress(d, 0))
    case _ => true
  }

  /** The entries after the tracker method that the message names has run with the message's id and arguments. */
  function Dispatch(m: map<nat, Entry>, item: Item): map<nat, Entry>
    requires EntryCanTake(m, item)
  {
    var k := item.0.raw;
    match item.1
    case SetProgress(d, t) => SetProgressSpec(m, k, d, t)
    case SetHiddenProgress(d, t) => SetHiddenProgressSpec(m, k, d, t)
    case SetTotal(t) => SetTotalSpec(m, k, t)
    case SetDone(d) => SetDoneSpec(m, k, d)
    case SetHiddenTotal(t) => SetHiddenTotalSpec(m, k, t)
    case SetHiddenDone(d) => SetHiddenDoneSpec(m, k, d)
    case AddProgress(d, t) => AddProgressSpec(m, k, d, t)
    case AddHiddenProgress(d, t) => AddHiddenProgressSpec(m, k, d, t)
    case AddTotal(t) => AddTotalSpec(m, k, t)
    case AddDone(d) => AddDoneSpec(m, k, d)
    case AddHiddenTotal(t) => AddHiddenTotalSpec(m, k, t)
    case AddHiddenDone(d) => AddHiddenDoneSpec(m, k, d)
  }

  /** Applying the message panics nowhere: not on the entry, not on the accumulator. */
  ghost predicate CanDispatch(m: map<nat, Entry>, item: Item)
  {
    EntryCanTake(m, item) && Fits(Dispatch(m, item))
  }

  /** No message of the sequence panics when they are applied in order. */
  ghost predicate Drainable(m: map<nat, Entry>, items: seq<Item>)
    decreases |items|
  {
    items == [] || (CanDispatch(m, items[0]) && Drainable(Dispatch(m, items[0]), items[1..]))
  }

  /** The entries after applying the messages one after the other, first sent first. */
  function Fold(m: map<nat, Entry>, items: seq<Item>): map<nat, Entry>
    requires Drainable(m, items)
    decreases |items|
  {
    if items == [] then m else Fold(Dispatch(m, items[0]), items[1..])
  }

  /** The `match` in `recv_progress_msgs`: call the tracker method the message names, and nothing else. */
  method ApplyMessage(tracker: ProgressTracker, item: Item)
    requires tracker.Valid()
    requires CanDispatch(tracker.entries, item)
    modifies tracker
    ensures tracker.Valid()
    ensures tracker.entries == Dispatch(old(tracker.entries), item)
  {
    var id := item.0;
    match item.1
    case SetProgress(done, total) => tracker.SetProgress(id, done, total);
    case SetHiddenProgress(done, total) => tracker.SetHiddenProgress(id, done, total);
    case SetTotal(total) => tracker.SetTotal(id, total);
    case SetDone(done) => tracker.SetDone(id, done);
    case SetHiddenTotal(total) => tracker.SetHiddenTotal(id, total);
    case SetHiddenDone(done) => tracker.SetHiddenDone(id, done);
    case AddProgress(done, total) => tracker.AddProgress(id, done, total);
    case AddHiddenProgress(done, total) => tracker.AddHiddenProgress(id, done, total);
    case AddTotal(total) => tracker.AddTotal(id, total);
    case AddDone(done) => tracker.AddDone(id, done);
    case AddHiddenTotal(total) => tracker.AddHiddenTotal(id, total);
    case AddHiddenDone(done) => tracker.AddHiddenDone(id, done);
  }

  /** `rc_recv_progress_msgs`: draining runs only when the tracker has a channel. */
  predicate RcRecvProgressMsgs(chan: Channel?)
  {
    chan != null
  }

  /**
   * `recv_progress_msgs`: without a channel nothing happens; otherwise every
   * queued message is applied in FIFO order and the queue is left empty.
   */
  method RecvProgressMsgs(tracker: ProgressTracker, chan: Channel?)
    requires tracker.Valid()
    requires chan != null ==> Drainable(tracker.entries, chan.queue)
    modifies tracker, chan
    ensures tracker.Valid()
    ensures !RcRecvProgressMsgs(chan) ==> tracker.entries == old(tracker.entries)
    ensures chan != null ==> tracker.entries == Fold(old(tracker.entries), old(chan.queue)) && chan.queue == []
  {
    if chan == null {
      return;
    }
    var next := chan.TryRecv();
    while next.Some?
      invariant tracker.Valid()
      invariant next.None? ==> chan.queue == []
      invariant next.Some? ==>
        Drainable(tracker.entries, [next.value] + chan.queue) &&
        Fold(tracker.entries, [next.value] + chan.queue) == Fold(old(tracker.entries), old(chan.queue))
      invariant next.None? ==> tracker.entries == Fold(old(tracker.entries), old(chan.queue))
      decreases |chan.queue| + (if next.Some? then 1 else 0)
    {
      ghost var rest := chan.queue;
      assert ([next.value] + rest)[1..] == rest;
      ApplyMessage(tracker, next.value);
      next := chan.TryRecv();
      if next.Some? {
        assert rest == [next.value] + chan.queue;
      }
    }
  }

  /** A message changes the entry of its own id and no other. */
  lemma DispatchTouchesOnlyItsId(m: map<nat, Entry>, item: Item, k: nat)
    requires EntryCanTake(m, item)
    requires k != item.0.raw
    ensures item.0.raw in Dispatch(m, item)
    ensures k in Dispatch(m, item) <==> k in m
    ensures Lookup(Dispatch(m, item), k) == Lookup(m, k)
  {
  }

  /** Messages for an id that none of them names leave its entry as it was. */
  lemma {:induction false} FoldOtherIdUnchanged(m: map<nat, Entry>, items: seq<Item>, k: nat)
    requires Drainable(m, items)
    requires forall i :: 0 <= i < |items| ==> items[i].0.raw != k
    ensures Lookup(Fold(m, items), k) == Lookup(m, k)
    ensures k in Fold(m, items) <==> k in m
    decreases |items|
  {
    if items != [] {
      DispatchTouchesOnlyItsId(m, items[0], k);
      FoldOtherIdUnchanged(Dispatch(m, items[0]), items[1..], k);
    }
  }

  /** Draining a queue is draining its first part, then the rest. */
  lemma {:induction false} FoldConcat(m: map<nat, Entry>, a: seq<Item>, b: seq<Item>)
    requires Drainable(m, a + b)
    ensures Drainable(m, a)
    ensures Drainable(Fold(m, a), b)
    ensures Fold(m, a + b) == Fold(Fold(m, a), b)
    decreases |a|
  {
    if a == [] {
      assert a + b == b;
    } else {
      assert (a + b)[0] == a[0];
      assert (a + b)[1..] == a[1..] + b;
      FoldConcat(Dispatch(m, a[0]), a[1..], b);
    }
  }

  /** A message replaces the entry of its id by a value computed from that entry alone. */
  lemma DispatchIsLocal(m: map<nat, Entry>, item: Item)
    requires EntryCanTake(m, item)
    ensures EntryCanTake(map[item.0.raw := Lookup(m, item.0.raw)], item)
    ensures Dispatch(m, item) == m[item.0.raw := Dispatch(map[item.0.raw := Lookup(m, item.0.raw)], item)[item.0.raw]]
  {
    var k := item.0.raw;
    assert Lookup(map[k := Lookup(m, k)], k) == Lookup(m, k);
  }

  /**
   * Updates for two different ids commute, so the order in which the queue
   * interleaves different senders does not change the resulting entries.
   */
  lemma DispatchCommutes(m: map<nat, Entry>, x: Item, y: Item)
    requires x.0 != y.0
    requires EntryCanTake(m, x) && EntryCanTake(m, y)
    ensures EntryCanTake(Dispatch(m, x), y) && EntryCanTake(Dispatch(m, y), x)
    ensures Dispatch(Dispatch(m, x), y) == Dispatch(Dispatch(m, y), x)
  {
    var kx, ky := x.0.raw, y.0.raw;
    DispatchTouchesOnlyItsId(m, x, ky);
    DispatchTouchesOnlyItsId(m, y, kx);
    var mx, my := Dispatch(m, x), Dispatch(m, y);
    assert map[ky := Lookup(mx, ky)] == map[ky := Lookup(m, ky)];
    assert map[kx := Lookup(my, kx)] == map[kx := Lookup(m, kx)];
    DispatchIsLocal(m, x);
    DispatchIsLocal(m, y);
    DispatchIsLocal(mx, y);
    DispatchIsLocal(my, x);
    var ex := Dispatch(map[kx := Lookup(m, kx)], x)[kx];
    var ey := Dispatch(map[ky := Lookup(m, ky)], y)[ky];
    assert Dispatch(mx, y) == m[kx := ex][ky := ey];
    assert Dispatch(my, x) == m[ky := ey][kx := ex];
  }

  /** Draining a non-empty queue applies its first message, then drains the rest. */
  lemma FoldStep(m: map<nat, Entry>, items: seq<Item>)
    requires items != [] && Drainable(m, items)
    ensures CanDispatch(m, items[0]) && Drainable(Dispatch(m, items[0]), items[1..])
    ensures Fold(m, items) == Fold(Dispatch(m, items[0]), items[1..])
  {
  }

  /**
   * Swapping two adjacent messages for different ids anywhere in the queue
   * leaves the drained entries as they were, provided neither order panics.
   */
  lemma SwapAdjacent(m: map<nat, Entry>, p: seq<Item>, x: Item, y: Item, s: seq<Item>)
    requires x.0 != y.0
    requires Drainable(m, p + [x, y] + s) && Drainable(m, p + [y, x] + s)
    ensures Fold(m, p + [x, y] + s) == Fold(m, p + [y, x] + s)
  {
    FoldConcat(m, p + [x, y], s);
    FoldConcat(m, p + [y, x], s);
    FoldConcat(m, p, [x, y]);
    FoldConcat(m, p, [y, x]);
    var mp := Fold(m, p);
    FoldStep(mp, [x, y]);
    FoldStep(mp, [y, x]);
    assert [x, y][1..] == [y] && [y, x][1..] == [x];
    FoldStep(Dispatch(mp, x), [y]);
    FoldStep(Dispatch(mp, y), [x]);
    DispatchCommutes(mp, x, y);
  }

  /**
   * Whether a drain panics can depend on the order of messages for different
   * ids: two `SetTotal` messages fit one after the other when the first lowers
   * the visible total enough, and overflow the accumulator the other way round.
   */
  lemma {:induction false} SetTotalOrderDecidesPanic(m: map<nat, Entry>, ix: ProgressEntryId, iy: ProgressEntryId, tx: U32, ty: U32)
    requires ix != iy && Fits(m)
    requires Sum(m, VisibleTotal) - Lookup(m, ix.raw).0.total + tx < U32_LIMIT
    requires Sum(m, VisibleTotal) - Lookup(m, ix.raw).0.total + tx - Lookup(m, iy.raw).0.total + ty < U32_LIMIT
    requires Sum(m, VisibleTotal) - Lookup(m, iy.raw).0.total + ty >= U32_LIMIT
    ensures Drainable(m, [(ix, SetTotal(tx)), (iy, SetTotal(ty))])
    ensures !Drainable(m, [(iy, SetTotal(ty)), (ix, SetTotal(tx))])
  {
    var x, y := (ix, SetTotal(tx)), (iy, SetTotal(ty));
    var ex, ey := Lookup(m, ix.raw), Lookup(m, iy.raw);
    var mx := Dispatch(m, x);
    assert mx == m[ix.raw := (ex.0.(total := tx), ex.1)];
    ReplaceEntry(m, ix.raw, (ex.0.(total := tx), ex.1));
    assert Lookup(mx, iy.raw) == ey;
    var mxy := Dispatch(mx, y);
    assert mxy == mx[iy.raw := (ey.0.(total := ty), ey.1)];
    ReplaceEntry(mx, iy.raw, (ey.0.(total := ty), ey.1));
    forall f
      ensures Sum(mx, f) < U32_LIMIT && Sum(mxy, f) < U32_LIMIT
    {
      if f != VisibleTotal {
        assert Get((ex.0.(total := tx), ex.1), f) == Get(ex, f);
        assert Get((ey.0.(total := ty), ey.1), f) == Get(ey, f);
      }
    }
    assert [x, y][1..] == [y] && [y][1..] == [];
    var my := Dispatch(m, y);
    assert my == m[iy.raw := (ey.0.(total := ty), ey.1)];
    SumUpdate(m, iy.raw, (ey.0.(total := ty), ey.1), VisibleTotal);
    assert !Fits(my);
  }

  /**
   * A concrete case: entry 0 has total `u32::MAX`. Setting it to 0 and then
   * creating entry 1 with total `u32::MAX` drains; the other order overflows.
   */
  lemma DrainOrderMatters()
    ensures Drainable(map[0 := (Progress(0, U32_LIMIT - 1), HiddenZero)],
      [(ProgressEntryId(0), SetTotal(0)), (ProgressEntryId(1), SetTotal(U32_LIMIT - 1))])
    ensures !Drainable(map[0 := (Progress(0, U32_LIMIT - 1), HiddenZero)],
      [(ProgressEntryId(1), SetTotal(U32_LIMIT - 1)), (ProgressEntryId(0), SetTotal(0))])
  {
    var m := map[0 := (Progress(0, U32_LIMIT - 1), HiddenZero)];
    forall f
      ensures Sum(m, f) == Get(m[0], f)
    {
      SumRemove(m, 0, f);
      assert m - {0} == map[];
    }
    SetTotalOrderDecidesPanic(m, ProgressEntryId(0), ProgressEntryId(1), 0, U32_LIMIT - 1);
  }

  /** An `AddDone` message runs `add_done` on its id's entry. */
  lemma DispatchAddDone(m: map<nat, Entry>, id: ProgressEntryId, d: U32)
    requires EntryCanTake(m, (id, AddDone(d)))
    ensures Dispatch(m, (id, AddDone(d))) == AddDoneSpec(m, id.raw, d)
    ensures Lookup(Dispatch(m, (id, AddDone(d))), id.raw) == (Add(Lookup(m, id.raw).0, Progress(d, 0)), Lookup(m, id.raw).1)
  {
  }

  /** Two `AddDone` messages for one id add both amounts to that entry's visible `done`. */
  lemma AddDoneTwice(m: map<nat, Entry>, id: ProgressEntryId, d1: U32, d2: U32, items: seq<Item>)
    requires items == [(id, AddDone(d1)), (id, AddDone(d2))]
    requires Drainable(m, items)
    ensures Lookup(Fold(m, items), id.raw).0.done == Lookup(m, id.raw).0.done + d1 + d2
    ensures Lookup(Fold(m, items), id.raw).0.total == Lookup(m, id.raw).0.total
    ensures Lookup(Fold(m, items), id.raw).1 == Lookup(m, id.raw).1
  {
    FoldStep(m, items);
    var m1 := Dispatch(m, items[0]);
    FoldStep(m1, items[1..]);
    DispatchAddDone(m, id, d1);
    DispatchAddDone(m1, id, d2);
  }

  /**
   * On a queue shared by several senders, a send keeps every earlier message
   * where it was and in order, and adds at most one message, at the end,
   * carrying the sender's id and its message.
   */
  lemma SentKeepsQueue(queue: seq<Item>, capacity: nat, id: ProgressEntryId, msg: ProgressMessage)
    ensures |queue| <= |Sent(queue, capacity, (id, msg))| <= |queue| + 1
    ensures Sent(queue, capacity, (id, msg))[..|queue|] == queue
    ensures |Sent(queue, capacity, (id, msg))| > |queue| ==> Sent(queue, capacity, (id, msg))[|queue|] == (id, msg)
    ensures |Sent(queue, capacity, (id, msg))| > |queue| <==> |queue| < capacity
  {
  }
}
