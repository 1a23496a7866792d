/**
 * The progress tracker of src/tracker.rs: a map from entry id to a
 * (visible, hidden) progress pair, and a running accumulator that every
 * setter and adder moves by exactly the change it makes to one entry, so that
 * reading the global progress never rescans the map.
 *
 * The mutex of the source only makes every method one atomic step; here each
 * method is one sequential step. The abstract state of a tracker is its
 * `entries` map: every mutating method is specified by a function of the old
 * map (`SetProgressSpec`, ...), and `Valid()` states that `accum` is the
 * field-wise sum of the entries.
 */
module Tracker {
  import opened ProgressValue

  /** `ProgressEntryId`: an opaque key into the tracker. */
  datatype ProgressEntryId = ProgressEntryId(raw: nat)

  /** The process-wide `NEXT_ID` counter behind `ProgressEntryId::new`. */
  class IdAllocator {
    var next: nat
    /** Every raw id handed out so far. */
    ghost var issued: set<nat>

    ghost predicate Valid()
      reads this
    {
      forall x :: x in issued ==> x < next
    }

    constructor ()
      ensures Valid() && next == 0 && issued == {}
    {
      next := 0;
      issued := {};
    }

    /** `ProgressEntryId::new`: fetch-and-increment; the id is fresh and larger than every earlier one. */
    method New() returns (id: ProgressEntryId)
      requires Valid()
      modifies this
      ensures Valid()
      ensures id.raw == old(next) && next == old(next) + 1
      ensures id.raw !in old(issued) && issued == old(issued) + {id.raw}
      ensures forall x :: x in old(issued) ==> x < id.raw
    {
      id := ProgressEntryId(next);
      next := next + 1;
      issued := issued + {id.raw};
    }
  }

  /** One stored value: the visible and the hidden progress of an id. */
  type Entry = (Progress, HiddenProgress)

  /** The value of an id that holds nothing. */
  const DefaultEntry: Entry := (Zero, HiddenZero)

  /** The four scalar counters of an entry (and of the accumulator). */
  datatype Field = VisibleDone | VisibleTotal | HiddenDone | HiddenTotal

  function Get(e: Entry, f: Field): U32
  {
    match f
    case VisibleDone => e.0.done
    case VisibleTotal => e.0.total
    case HiddenDone => e.1.inner.done
    case HiddenTotal => e.1.inner.total
  }

  /** The stored entry of `k`, or the default one (`unwrap_or_default`). */
  function Lookup(m: map<nat, Entry>, k: nat): Entry
  {
    if k in m then m[k] else DefaultEntry
  }

  /** The sum of one counter over all entries. */
  ghost function Sum(m: map<nat, Entry>, f: Field): nat
    decreases |m|
  {
    if m == map[] then 0
    else
      var k :| k in m;
      assert |m - {k}| < |m| by { assert (m - {k}).Keys == m.Keys - {k}; }
      Get(m[k], f) + Sum(m - {k}, f)
  }

  /** Any entry can be taken out of the sum first. */
  lemma {:induction false} SumRemove(m: map<nat, Entry>, k: nat, f: Field)
    requires k in m
    ensures Sum(m, f) == Get(m[k], f) + Sum(m - {k}, f)
    decreases |m|
  {
    var j :| j in m && Sum(m, f) == Get(m[j], f) + Sum(m - {j}, f);
    if j != k {
      var mj, mk := m - {j}, m - {k};
      assert mj.Keys == m.Keys - {j} && mk.Keys == m.Keys - {k};
      SumRemove(mj, k, f);
      SumRemove(mk, j, f);
      assert mj - {k} == mk - {j};
    }
  }

  /** Replacing (or inserting) the entry of `k` changes the sum by exactly the change of that entry. */
  lemma {:induction false} SumUpdate(m: map<nat, Entry>, k: nat, e: Entry, f: Field)
    ensures Sum(m[k := e], f) + Get(Lookup(m, k), f) == Sum(m, f) + Get(e, f)
    ensures Get(Lookup(m, k), f) <= Sum(m, f)
  {
    var m' := m[k := e];
    SumRemove(m', k, f);
    assert m' - {k} == m - {k};
    if k in m {
      SumRemove(m, k, f);
    } else {
      assert m - {k} == m;
    }
  }

  /** `SumUpdate` for all four counters at once. */
  lemma ReplaceEntry(m: map<nat, Entry>, k: nat, e: Entry)
    ensures forall f :: Sum(m[k := e], f) + Get(Lookup(m, k), f) == Sum(m, f) + Get(e, f)
    ensures forall f :: Get(Lookup(m, k), f) <= Sum(m, f)
  {
    forall f
      ensures Sum(m[k := e], f) + Get(Lookup(m, k), f) == Sum(m, f) + Get(e, f)
      ensures Get(Lookup(m, k), f) <= Sum(m, f)
    {
      SumUpdate(m, k, e, f);
    }
  }

  /** Every counter sum is representable as a `u32`: the accumulator of these entries cannot have overflowed. */
  ghost predicate Fits(m: map<nat, Entry>)
  {
    forall f :: Sum(m, f) < U32_LIMIT
  }

  // The state change each mutating method makes, as a function of the old entries.

  function SetProgressSpec(m: map<nat, Entry>, k: nat, done: U32, total: U32): map<nat, Entry>
  {
    m[k := (Progress(done, total), Lookup(m, k).1)]
  }

  function SetHiddenProgressSpec(m: map<nat, Entry>, k: nat, done: U32, total: U32): map<nat, Entry>
  {
    m[k := (Lookup(m, k).0, Hide(Progress(done, total)))]
  }

  function SetTotalSpec(m: map<nat, Entry>, k: nat, total: U32): map<nat, Entry>
  {
    var e := Lookup(m, k);
    m[k := (e.0.(total := total), e.1)]
  }

  function SetDoneSpec(m: map<nat, Entry>, k: nat, done: U32): map<nat, Entry>
  {
    var e := Lookup(m, k);
    m[k := (e.0.(done := done), e.1)]
  }

  function SetHiddenTotalSpec(m: map<nat, Entry>, k: nat, total: U32): map<nat, Entry>
  {
    var e := Lookup(m, k);
    m[k := (e.0, Hide(e.1.inner.(total := total)))]
  }

  function SetHiddenDoneSpec(m: map<nat, Entry>, k: nat, done: U32): map<nat, Entry>
  {
    var e := Lookup(m, k);
    m[k := (e.0, Hide(e.1.inner.(done := done)))]
  }

  function AddProgressSpec(m: map<nat, Entry>, k: nat, done: U32, total: U32): map<nat, Entry>
    requires CanAdd(Lookup(m, k).0, Progress(done, total))
  {
    var e := Lookup(m, k);
    m[k := (Add(e.0, Progress(done, total)), e.1)]
  }

  function AddTotalSpec(m: map<nat, Entry>, k: nat, total: U32): map<nat, Entry>
    requires CanAdd(Lookup(m, k).0, Progress(0, total))
  {
    var e := Lookup(m, k);
    m[k := (Add(e.0, Progress(0, total)), e.1)]
  }

  function AddDoneSpec(m: map<nat, Entry>, k: nat, done: U32): map<nat, Entry>
    requires CanAdd(Lookup(m, k).0, Progress(done, 0))
  {
    var e := Lookup(m, k);
    m[k := (Add(e.0, Progress(done, 0)), e.1)]
  }

  function AddHiddenProgressSpec(m: map<nat, Entry>, k: nat, done: U32, total: U32): map<nat, Entry>
    requires CanAdd(Lookup(m, k).1.inner, Progress(done, total))
  {
    var e := Lookup(m, k);
    m[k := (e.0, Hide(Add(e.1.inner, Progress(done, total))))]
  }

  function AddHiddenTotalSpec(m: map<nat, Entry>, k: nat, total: U32): map<nat, Entry>
    requires CanAdd(Lookup(m, k).1.inner, Progress(0, total))
  {
    var e := Lookup(m, k);
    m[k := (e.0, Hide(Add(e.1.inner, Progress(0, total))))]
  }

  function AddHiddenDoneSpec(m: map<nat, Entry>, k: nat, done: U32): map<nat, Entry>
    requires CanAdd(Lookup(m, k).1.inner, Progress(done, 0))
  {
    var e := Lookup(m, k);
    m[k := (e.0, Hide(Add(e.1.inner, Progress(done, 0))))]
  }

  /** `ProgressTracker`: the entries and their running accumulator. */
  class ProgressTracker {
    var entries: map<nat, Entry>
    var accum: Entry

    /** The accumulator is the field-wise sum of all entries. */
    ghost predicate Valid()
      reads this
    {
      && Get(accum, VisibleDone) == Sum(entries, VisibleDone)
      && Get(accum, VisibleTotal) == Sum(entries, VisibleTotal)
      && Get(accum, HiddenDone) == Sum(entries, HiddenDone)
      && Get(accum, HiddenTotal) == Sum(entries, HiddenTotal)
    }

    /** `ProgressTracker::default()`. */
    constructor ()
      ensures Valid() && entries == map[] && accum == DefaultEntry
    {
      entries := map[];
      accum := DefaultEntry;
    }

    /** `clear`: no entries and a zero accumulator, whatever the state was (so clearing twice is clearing once). */
    method Clear()
      modifies this
      ensures Valid() && entries == map[] && accum == DefaultEntry
    {
      entries := map[];
      accum := DefaultEntry;
    }

    /** `contains_id`: whether the id holds an entry; an id without one reads as zero through every getter. */
    predicate ContainsId(id: ProgressEntryId)
      reads this
      ensures !ContainsId(id) ==> GetProgress(id) == Zero && GetHiddenProgress(id) == HiddenZero
      ensures ContainsId(id) ==> (GetProgress(id), GetHiddenProgress(id)) == entries[id.raw]
    {
      id.raw in entries
    }

    /** `get_global_progress`: the visible part of the accumulator, i.e. the sum of all visible entries. */
    function GetGlobalProgress(): (r: Progress)
      reads this
      requires Valid()
      ensures r.done == Sum(entries, VisibleDone) && r.total == Sum(entries, VisibleTotal)
    {
      accum.0
    }

    /** `get_global_hidden_progress`: the sum of all hidden entries. */
    function GetGlobalHiddenProgress(): (r: HiddenProgress)
      reads this
      requires Valid()
      ensures r.inner.done == Sum(entries, HiddenDone) && r.inner.total == Sum(entries, HiddenTotal)
    {
      accum.1
    }

    /** `get_global_combined_progress`: visible plus hidden, over all entries. */
    function GetGlobalCombinedProgress(): (r: Progress)
      reads this
      requires Valid()
      requires CanAdd(accum.0, accum.1.inner)
      ensures r.done == Sum(entries, VisibleDone) + Sum(entries, HiddenDone)
      ensures r.total == Sum(entries, VisibleTotal) + Sum(entries, HiddenTotal)
    {
      Add(accum.0, accum.1.inner)
    }

    /** `is_ready`: all visible and hidden work of all entries is done. */
    predicate IsReady()
      reads this
      requires Valid()
      requires CanAdd(accum.0, accum.1.inner)
      ensures IsReady() <==>
        Sum(entries, VisibleDone) + Sum(entries, HiddenDone) >= Sum(entries, VisibleTotal) + Sum(entries, HiddenTotal)
    {
      ProgressValue.IsReady(GetGlobalCombinedProgress())
    }

    /** `is_id_ready`: the id holds an entry whose visible plus hidden work is done; an unknown id is not ready. */
    predicate IsIdReady(id: ProgressEntryId)
      reads this
      requires id.raw in entries ==> CanAdd(entries[id.raw].0, entries[id.raw].1.inner)
      ensures IsIdReady(id) ==> id.raw in entries
      ensures id.raw in entries ==>
        (IsIdReady(id) <==>
          entries[id.raw].0.done + entries[id.raw].1.inner.done >= entries[id.raw].0.total + entries[id.raw].1.inner.total)
    {
      id.raw in entries && ProgressValue.IsReady(Add(entries[id.raw].0, entries[id.raw].1.inner))
    }

    /** `get_progress`: the visible progress of the id, zero for an unknown id. */
    function GetProgress(id: ProgressEntryId): (r: Progress)
      reads this
      ensures id.raw in entries ==> r == entries[id.raw].0
      ensures id.raw !in entries ==> r == Zero
    {
      Lookup(entries, id.raw).0
    }

    /** `get_hidden_progress`: the hidden progress of the id, zero for an unknown id. */
    function GetHiddenProgress(id: ProgressEntryId): (r: HiddenProgress)
      reads this
      ensures id.raw in entries ==> r == entries[id.raw].1
      ensures id.raw !in entries ==> r == HiddenZero
    {
      Lookup(entries, id.raw).1
    }

    /** `get_combined_progress`: visible plus hidden progress of the id, zero for an unknown id. */
    function GetCombinedProgress(id: ProgressEntryId): (r: Progress)
      reads this
      requires id.raw in entries ==> CanAdd(entries[id.raw].0, entries[id.raw].1.inner)
      ensures id.raw in entries ==>
        r.done == entries[id.raw].0.done + entries[id.raw].1.inner.done &&
        r.total == entries[id.raw].0.total + entries[id.raw].1.inner.total
      ensures id.raw !in entries ==> r == Zero
    {
      if id.raw in entries then Add(entries[id.raw].0, entries[id.raw].1.inner) else Zero
    }

    /** `get_total`: zero for an unknown id. */
    function GetTotal(id: ProgressEntryId): (r: U32)
      reads this
      ensures id.raw in entries ==> r == entries[id.raw].0.total
      ensures id.raw !in entries ==> r == 0
    {
      Lookup(entries, id.raw).0.total
    }

    /** `get_done`: zero for an unknown id. */
    function GetDone(id: ProgressEntryId): (r: U32)
      reads this
      ensures id.raw in entries ==> r == entries[id.raw].0.done
      ensures id.raw !in entries ==> r == 0
    {
      Lookup(entries, id.raw).0.done
    }

    /** `get_hidden_total`: zero for an unknown id. */
    function GetHiddenTotal(id: ProgressEntryId): (r: U32)
      reads this
      ensures id.raw in entries ==> r == entries[id.raw].1.inner.total
      ensures id.raw !in entries ==> r == 0
    {
      Lookup(entries, id.raw).1.inner.total
    }

    /** `get_hidden_done`: zero for an unknown id. */
    function GetHiddenDone(id: ProgressEntryId): (r: U32)
      reads this
      ensures id.raw in entries ==> r == entries[id.raw].1.inner.done
      ensures id.raw !in entries ==> r == 0
    {
      Lookup(entries, id.raw).1.inner.done
    }

    /**
     * `set_progress`: overwrite the visible pair, keeping (or defaulting) the hidden one.
     * The accumulator's visible counters move by the signed difference; the `-=`
     * branches cannot underflow because the old entry is part of the sum.
     */
    method SetProgress(id: ProgressEntryId, done: U32, total: U32)
      requires Valid()
      requires Fits(SetProgressSpec(entries, id.raw, done, total))
      modifies this
      ensures Valid()
      ensures entries == SetProgressSpec(old(entries), id.raw, done, total)
      ensures ContainsId(id) && GetProgress(id) == Progress(done, total)
      ensures GetHiddenProgress(id) == old(GetHiddenProgress(id))
      ensures accum.1 == old(accum.1)
    {
      ReplaceEntry(entries, id.raw, (Progress(done, total), Lookup(entries, id.raw).1));
      if id.raw in entries {
        var p := entries[id.raw];
        if p.0.total < total {
          var diff: U32 := total - p.0.total;
          accum := (accum.0.(total := accum.0.total + diff), accum.1);
        }
        if p.0.total > total {
          var diff: U32 := p.0.total - total;
          accum := (accum.0.(total := accum.0.total - diff), accum.1);
        }
        if p.0.done < done {
          var diff: U32 := done - p.0.done;
          accum := (accum.0.(done := accum.0.done + diff), accum.1);
        }
        if p.0.done > done {
          var diff: U32 := p.0.done - done;
          accum := (accum.0.(done := accum.0.done - diff), accum.1);
        }
        entries := entries[id.raw := (Progress(done, total), p.1)];
      } else {
        entries := entries[id.raw := (Progress(done, total), HiddenZero)];
        accum := (accum.0.(total := accum.0.total + total), accum.1);
        accum := (accum.0.(done := accum.0.done + done), accum.1);
      }
    }

    /** `set_hidden_progress`: the mirror image of `set_progress` on the hidden pair. */
    method SetHiddenProgress(id: ProgressEntryId, done: U32, total: U32)
      requires Valid()
      requires Fits(SetHiddenProgressSpec(entries, id.raw, done, total))
      modifies this
      ensures Valid()
      ensures entries == SetHiddenProgressSpec(old(entries), id.raw, done, total)
      ensures ContainsId(id) && GetHiddenProgress(id) == Hide(Progress(done, total))
      ensures GetProgress(id) == old(GetProgress(id))
      ensures accum.0 == old(accum.0)
    {
      ReplaceEntry(entries, id.raw, (Lookup(entries, id.raw).0, Hide(Progress(done, total))));
      if id.raw in entries {
        var p := entries[id.raw];
        if p.1.inner.total < total {
          var diff: U32 := total - p.1.inner.total;
          accum := (accum.0, Hide(accum.1.inner.(total := accum.1.inner.total + diff)));
        }
        if p.1.inner.total > total {
          var diff: U32 := p.1.inner.total - total;
          accum := (accum.0, Hide(accum.1.inner.(total := accum.1.inner.total - diff)));
        }
        if p.1.inner.done < done {
          var diff: U32 := done - p.1.inner.done;
          accum := (accum.0, Hide(accum.1.inner.(done := accum.1.inner.done + diff)));
        }
        if p.1.inner.done > done {
          var diff: U32 := p.1.inner.done - done;
          accum := (accum.0, Hide(accum.1.inner.(done := accum.1.inner.done - diff)));
        }
        entries := entries[id.raw := (p.0, Hide(Progress(done, total)))];
      } else {
        entries := entries[id.raw := (Zero, Hide(Progress(done, total)))];
        accum := (accum.0, Hide(accum.1.inner.(total := accum.1.inner.total + total)));
        accum := (accum.0, Hide(accum.1.inner.(done := accum.1.inner.done + done)));
      }
    }

    /** `set_total`: only the visible total of the entry and of the accumulator change. */
    method SetTotal(id: ProgressEntryId, total: U32)
      requires Valid()
      requires Fits(SetTotalSpec(entries, id.raw, total))
      modifies this
      ensures Valid()
      ensures entries == SetTotalSpec(old(entries), id.raw, total)
      ensures ContainsId(id) && GetTotal(id) == total
      ensures accum.0.total == old(accum.0.total) - old(GetTotal(id)) + total
      ensures accum.0.done == old(accum.0.done) && accum.1 == old(accum.1)
    {
      ReplaceEntry(entries, id.raw, (Lookup(entries, id.raw).0.(total := total), Lookup(entries, id.raw).1));
      if id.raw in entries {
        var p := entries[id.raw];
        if p.0.total < total {
          var diff: U32 := total - p.0.total;
          accum := (accum.0.(total := accum.0.total + diff), accum.1);
        }
        if p.0.total > total {
          var diff: U32 := p.0.total - total;
          accum := (accum.0.(total := accum.0.total - diff), accum.1);
        }
        entries := entries[id.raw := (p.0.(total := total), p.1)];
      } else {
        entries := entries[id.raw := (Progress(0, total), HiddenZero)];
        accum := (accum.0.(total := accum.0.total + total), accum.1);
      }
    }

    /** `set_done`: only the visible done count of the entry and of the accumulator change. */
    method SetDone(id: ProgressEntryId, done: U32)
      requires Valid()
      requires Fits(SetDoneSpec(entries, id.raw, done))
      modifies this
      ensures Valid()
      ensures entries == SetDoneSpec(old(entries), id.raw, done)
      ensures ContainsId(id) && GetDone(id) == done
      ensures accum.0.done == old(accum.0.done) - old(GetDone(id)) + done
      ensures accum.0.total == old(accum.0.total) && accum.1 == old(accum.1)
    {
      ReplaceEntry(entries, id.raw, (Lookup(entries, id.raw).0.(done := done), Lookup(entries, id.raw).1));
      if id.raw in entries {
        var p := entries[id.raw];
        if p.0.done < done {
          var diff: U32 := done - p.0.done;
          accum := (accum.0.(done := accum.0.done + diff), accum.1);
        }
        if p.0.done > done {
          var diff: U32 := p.0.done - done;
          accum := (accum.0.(done := accum.0.done - diff), accum.1);
        }
        entries := entries[id.raw := (p.0.(done := done), p.1)];
      } else {
        entries := entries[id.raw := (Progress(done, 0), HiddenZero)];
        accum := (accum.0.(done := accum.0.done + done), accum.1);
      }
    }

    /** `set_hidden_total`: only the hidden total of the entry and of the accumulator change. */
    method SetHiddenTotal(id: ProgressEntryId, total: U32)
      requires Valid()
      requires Fits(SetHiddenTotalSpec(entries, id.raw, total))
      modifies this
      ensures Valid()
      ensures entries == SetHiddenTotalSpec(old(entries), id.raw, total)
      ensures ContainsId(id) && GetHiddenTotal(id) == total
      ensures accum.1.inner.total == old(accum.1.inner.total) - old(GetHiddenTotal(id)) + total
      ensures accum.1.inner.done == old(accum.1.inner.done) && accum.0 == old(accum.0)
    {
      ReplaceEntry(entries, id.raw, (Lookup(entries, id.raw).0, Hide(Lookup(entries, id.raw).1.inner.(total := total))));
      if id.raw in entries {
        var p := entries[id.raw];
        if p.1.inner.total < total {
          var diff: U32 := total - p.1.inner.total;
          accum := (accum.0, Hide(accum.1.inner.(total := accum.1.inner.total + diff)));
        }
        if p.1.inner.total > total {
          var diff: U32 := p.1.inner.total - total;
          accum := (accum.0, Hide(accum.1.inner.(total := accum.1.inner.total - diff)));
        }
        entries := entries[id.raw := (p.0, Hide(p.1.inner.(total := total)))];
      } else {
        entries := entries[id.raw := (Zero, Hide(Progress(0, total)))];
        accum := (accum.0, Hide(accum.1.inner.(total := accum.1.inner.total + total)));
      }
    }

    /** `set_hidden_done`: only the hidden done count of the entry and of the accumulator change. */
    method SetHiddenDone(id: ProgressEntryId, done: U32)
      requires Valid()
      requires Fits(SetHiddenDoneSpec(entries, id.raw, done))
      modifies this
      ensures Valid()
      ensures entries == SetHiddenDoneSpec(old(entries), id.raw, done)
      ensures ContainsId(id) && GetHiddenDone(id) == done
      ensures accum.1.inner.done == old(accum.1.inner.done) - old(GetHiddenDone(id)) + done
      ensures accum.1.inner.total == old(accum.1.inner.total) && accum.0 == old(accum.0)
    {
      ReplaceEntry(entries, id.raw, (Lookup(entries, id.raw).0, Hide(Lookup(entries, id.raw).1.inner.(done := done))));
      if id.raw in entries {
        var p := entries[id.raw];
        if p.1.inner.done < done {
          var diff: U32 := done - p.1.inner.done;
          accum := (accum.0, Hide(accum.1.inner.(done := accum.1.inner.done + diff)));
        }
        if p.1.inner.done > done {
          var diff: U32 := p.1.inner.done - done;
          accum := (accum.0, Hide(accum.1.inner.(done := accum.1.inner.done - diff)));
        }
        entries := entries[id.raw := (p.0, Hide(p.1.inner.(done := done)))];
      } else {
        entries := entries[id.raw := (Zero, Hide(Progress(done, 0)))];
        accum := (accum.0, Hide(accum.1.inner.(done := accum.1.inner.done + done)));
      }
    }

    /**
     * `add_progress`: the entry's visible pair and the accumulator's visible pair
     * both grow by exactly `(done, total)`, whether or not the entry existed.
     * The source's two `+=` (on the entry and on the accumulator) panic on
     * overflow; the two preconditions exclude exactly that.
     */
    method AddProgress(id: ProgressEntryId, done: U32, total: U32)
      requires Valid()
      requires CanAdd(Lookup(entries, id.raw).0, Progress(done, total))
      requires Fits(AddProgressSpec(entries, id.raw, done, total))
      modifies this
      ensures Valid()
      ensures entries == AddProgressSpec(old(entries), id.raw, done, total)
      ensures ContainsId(id) && GetProgress(id) == Add(old(GetProgress(id)), Progress(done, total))
      ensures CanAdd(old(accum.0), Progress(done, total)) && accum.0 == Add(old(accum.0), Progress(done, total))
      ensures accum.1 == old(accum.1)
    {
      ReplaceEntry(entries, id.raw, (Add(Lookup(entries, id.raw).0, Progress(done, total)), Lookup(entries, id.raw).1));
      if id.raw in entries {
        var p := entries[id.raw];
        entries := entries[id.raw := (p.0.(done := p.0.done + done).(total := p.0.total + total), p.1)];
      } else {
        entries := entries[id.raw := (Progress(done, total), HiddenZero)];
      }
      accum := (accum.0.(total := accum.0.total + total), accum.1);
      accum := (accum.0.(done := accum.0.done + done), accum.1);
    }

    /** `add_total`: only the visible total of the entry and of the accumulator grow, by exactly `total`. */
    method AddTotal(id: ProgressEntryId, total: U32)
      requires Valid()
      requires CanAdd(Lookup(entries, id.raw).0, Progress(0, total))
      requires Fits(AddTotalSpec(entries, id.raw, total))
      modifies this
      ensures Valid()
      ensures entries == AddTotalSpec(old(entries), id.raw, total)
      ensures ContainsId(id) && GetTotal(id) == old(GetTotal(id)) + total
      ensures accum.0.total == old(accum.0.total) + total
      ensures accum.0.done == old(accum.0.done) && accum.1 == old(accum.1)
    {
      ReplaceEntry(entries, id.raw, (Add(Lookup(entries, id.raw).0, Progress(0, total)), Lookup(entries, id.raw).1));
      if id.raw in entries {
        var p := entries[id.raw];
        entries := entries[id.raw := (p.0.(total := p.0.total + total), p.1)];
      } else {
        entries := entries[id.raw := (Progress(0, total), HiddenZero)];
      }
      accum := (accum.0.(total := accum.0.total + total), accum.1);
    }

    /** `add_done`: only the visible done count of the entry and of the accumulator grow, by exactly `done`. */
    method AddDone(id: ProgressEntryId, done: U32)
      requires Valid()
      requires CanAdd(Lookup(entries, id.raw).0, Progress(done, 0))
      requires Fits(AddDoneSpec(entries, id.raw, done))
      modifies this
      ensures Valid()
      ensures entries == AddDoneSpec(old(entries), id.raw, done)
      ensures ContainsId(id) && GetDone(id) == old(GetDone(id)) + done
      ensures accum.0.done == old(accum.0.done) + done
      ensures accum.0.total == old(accum.0.total) && accum.1 == old(accum.1)
    {
      ReplaceEntry(entries, id.raw, (Add(Lookup(entries, id.raw).0, Progress(done, 0)), Lookup(entries, id.raw).1));
      if id.raw in entries {
        var p := entries[id.raw];
        entries := entries[id.raw := (p.0.(done := p.0.done + done), p.1)];
      } else {
        entries := entries[id.raw := (Progress(done, 0), HiddenZero)];
      }
      accum := (accum.0.(done := accum.0.done + done), accum.1);
    }

    /** `add_hidden_progress`: the hidden pairs of the entry and of the accumulator grow by exactly `(done, total)`. */
    method AddHiddenProgress(id: ProgressEntryId, done: U32, total: U32)
      requires Valid()
      requires CanAdd(Lookup(entries, id.raw).1.inner, Progress(done, total))
      requires Fits(AddHiddenProgressSpec(entries, id.raw, done, total))
      modifies this
      ensures Valid()
      ensures entries == AddHiddenProgressSpec(old(entries), id.raw, done, total)
      ensures ContainsId(id) && GetHiddenProgress(id) == Hide(Add(old(GetHiddenProgress(id)).inner, Progress(done, total)))
      ensures CanAdd(old(accum.1.inner), Progress(done, total))
      ensures accum.1 == Hide(Add(old(accum.1.inner), Progress(done, total)))
      ensures accum.0 == old(accum.0)
    {
      ReplaceEntry(entries, id.raw, (Lookup(entries, id.raw).0, Hide(Add(Lookup(entries, id.raw).1.inner, Progress(done, total)))));
      if id.raw in entries {
        var p := entries[id.raw];
        entries := entries[id.raw := (p.0, Hide(p.1.inner.(done := p.1.inner.done + done).(total := p.1.inner.total + total)))];
      } else {
        entries := entries[id.raw := (Zero, Hide(Progress(done, total)))];
      }
      accum := (accum.0, Hide(accum.1.inner.(total := accum.1.inner.total + total)));
      accum := (accum.0, Hide(accum.1.inner.(done := accum.1.inner.done + done)));
    }

    /** `add_hidden_total`: only the hidden total of the entry and of the accumulator grow, by exactly `total`. */
    method AddHiddenTotal(id: ProgressEntryId, total: U32)
      requires Valid()
      requires CanAdd(Lookup(entries, id.raw).1.inner, Progress(0, total))
      requires Fits(AddHiddenTotalSpec(entries, id.raw, total))
      modifies this
      ensures Valid()
      ensures entries == AddHiddenTotalSpec(old(entries), id.raw, total)
      ensures ContainsId(id) && GetHiddenTotal(id) == old(GetHiddenTotal(id)) + total
      ensures accum.1.inner.total == old(accum.1.inner.total) + total
      ensures accum.1.inner.done == old(accum.1.inner.done) && accum.0 == old(accum.0)
    {
      ReplaceEntry(entries, id.raw, (Lookup(entries, id.raw).0, Hide(Add(Lookup(entries, id.raw).1.inner, Progress(0, total)))));
      if id.raw in entries {
        var p := entries[id.raw];
        entries := entries[id.raw := (p.0, Hide(p.1.inner.(total := p.1.inner.total + total)))];
      } else {
        entries := entries[id.raw := (Zero, Hide(Progress(0, total)))];
      }
      accum := (accum.0, Hide(accum.1.inner.(total := accum.1.inner.total + total)));
    }

    /** `add_hidden_done`: only the hidden done count of the entry and of the accumulator grow, by exactly `done`. */
    method AddHiddenDone(id: ProgressEntryId, done: U32)
      requires Valid()
      requires CanAdd(Lookup(entries, id.raw).1.inner, Progress(done, 0))
      requires Fits(AddHiddenDoneSpec(entries, id.raw, done))
      modifies this
      ensures Valid()
      ensures entries == AddHiddenDoneSpec(old(entries), id.raw, done)
      ensures ContainsId(id) && GetHiddenDone(id) == old(GetHiddenDone(id)) + done
      ensures accum.1.inner.done == old(accum.1.inner.done) + done
      ensures accum.1.inner.total == old(accum.1.inner.total) && accum.0 == old(accum.0)
    {
      ReplaceEntry(entries, id.raw, (Lookup(entries, id.raw).0, Hide(Add(Lookup(entries, id.raw).1.inner, Progress(done, 0)))));
      if id.raw in entries {
        var p := entries[id.raw];
        entries := entries[id.raw := (p.0, Hide(p.1.inner.(done := p.1.inner.done + done)))];
      } else {
        entries := entries[id.raw := (Zero, Hide(Progress(done, 0)))];
      }
      accum := (accum.0, Hide(accum.1.inner.(done := accum.1.inner.done + done)));
    }
  }

  /** An untouched id reads as empty: every getter gives zero and the id is neither present nor ready. */
  lemma UnknownIdDefaults(t: ProgressTracker, id: ProgressEntryId)
    requires id.raw !in t.entries
    ensures !t.ContainsId(id) && !t.IsIdReady(id)
    ensures t.GetProgress(id) == Zero && t.GetHiddenProgress(id) == HiddenZero
    ensures t.GetCombinedProgress(id) == Zero
    ensures t.GetTotal(id) == 0 && t.GetDone(id) == 0
    ensures t.GetHiddenTotal(id) == 0 && t.GetHiddenDone(id) == 0
  {
  }

  /** An empty tracker holds nothing and is ready (`0 >= 0`). */
  lemma EmptyTrackerReady(t: ProgressTracker)
    requires t.Valid() && t.entries == map[]
    ensures CanAdd(t.accum.0, t.accum.1.inner)
    ensures t.GetGlobalCombinedProgress() == Zero && t.IsReady()
  {
  }

  /** What a system returns to be applied to its entry (`ApplyProgress` for `Progress`, `HiddenProgress` and pairs). */
  datatype Contribution =
    | Visible(p: Progress)
    | Hidden(h: HiddenProgress)
    | Both(first: Contribution, second: Contribution)

  /** The entries after applying a contribution: a pair applies its first component, then its second. */
  function ApplySpec(m: map<nat, Entry>, k: nat, c: Contribution): map<nat, Entry>
    decreases c
  {
    match c
    case Visible(p) => SetProgressSpec(m, k, p.done, p.total)
    case Hidden(h) => SetHiddenProgressSpec(m, k, h.inner.done, h.inner.total)
    case Both(a, b) => ApplySpec(ApplySpec(m, k, a), k, b)
  }

  /** No step of applying the contribution overflows the accumulator. */
  ghost predicate CanApply(m: map<nat, Entry>, k: nat, c: Contribution)
    decreases c
  {
    match c
    case Visible(p) => Fits(SetProgressSpec(m, k, p.done, p.total))
    case Hidden(h) => Fits(SetHiddenProgressSpec(m, k, h.inner.done, h.inner.total))
    case Both(a, b) => CanApply(m, k, a) && CanApply(ApplySpec(m, k, a), k, b)
  }

  /** `apply_progress`: `Progress` sets the visible pair, `HiddenProgress` the hidden pair, a pair both in order. */
  method ApplyProgress(c: Contribution, tracker: ProgressTracker, id: ProgressEntryId)
    requires tracker.Valid()
    requires CanApply(tracker.entries, id.raw, c)
    modifies tracker
    ensures tracker.Valid()
    ensures tracker.entries == ApplySpec(old(tracker.entries), id.raw, c)
    decreases c
  {
    match c
    case Visible(p) =>
      tracker.SetProgress(id, p.done, p.total);
    case Hidden(h) =>
      tracker.SetHiddenProgress(id, h.inner.done, h.inner.total);
    case Both(a, b) =>
      ApplyProgress(a, tracker, id);
      ApplyProgress(b, tracker, id);
  }

  /** Applying `(Progress, HiddenProgress)` leaves the entry holding exactly both parts. */
  lemma ApplyPairStoresBoth(m: map<nat, Entry>, k: nat, p: Progress, h: HiddenProgress)
    ensures k in ApplySpec(m, k, Both(Visible(p), Hidden(h)))
    ensures ApplySpec(m, k, Both(Visible(p), Hidden(h)))[k] == (p, h)
    ensures forall j :: j != k ==> Lookup(ApplySpec(m, k, Both(Visible(p), Hidden(h))), j) == Lookup(m, j)
  {
  }
}
