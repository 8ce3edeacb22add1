/** The in-memory plan store: one table from plan id to plan data, written in
    place by `SavePlan` and read by `GetPlan`. */
module PlanStore {
  import opened Wrappers

  /** What a read of `id` finds in the table `plans`: the stored data, or
      nothing (`undefined`) for an id never saved. */
  function Find<D>(plans: map<string, D>, id: string): (r: Option<D>)
    ensures r.Some? <==> id in plans
    ensures r.Some? ==> r.value == plans[id]
  {
    if id in plans then Some(plans[id]) else None
  }

  class Store<D> {
    var plans: map<string, D>

    constructor ()
      ensures plans == map[]
    {
      plans := map[];
    }

    /** Stores `data` under `id`, replacing any earlier entry for `id`. */
    method SavePlan(id: string, data: D)
      modifies this
      ensures plans == old(plans)[id := data]
    {
      plans := plans[id := data];
    }

    /** Reads the entry for `id`; the store is left as it was. */
    method GetPlan(id: string) returns (r: Option<D>)
      ensures r == Find(plans, id)
      ensures r.Some? <==> id in plans
    {
      if id in plans {
        r := Some(plans[id]);
      } else {
        r := None;
      }
    }
  }

  /** After saving `data` under `id`, reading `id` finds `data`. */
  lemma FindAfterSave<D>(plans: map<string, D>, id: string, data: D)
    ensures Find(plans[id := data], id) == Some(data)
  {
  }

  /** Saving under `id` leaves the entry of every other id as it was. */
  lemma SaveKeepsOtherIds<D>(plans: map<string, D>, id: string, data: D, other: string)
    requires other != id
    ensures Find(plans[id := data], other) == Find(plans, other)
  {
  }

  /** Saving twice under the same id keeps only the later data. */
  lemma SaveTwiceKeepsLater<D>(plans: map<string, D>, id: string, first: D, second: D)
    ensures plans[id := first][id := second] == plans[id := second]
  {
  }

  /** One `savePlan(id, data)` call. */
  datatype SaveCall<D> = SaveCall(id: string, data: D)

  /** The table after a run of save calls, in order. */
  function Replay<D>(plans: map<string, D>, calls: seq<SaveCall<D>>): map<string, D>
    decreases |calls|
  {
    if calls == [] then plans
    else Replay(plans[calls[0].id := calls[0].data], calls[1..])
  }

  /** The data of the last call in `calls` that saves under `id`, if any. */
  function LastSaved<D>(calls: seq<SaveCall<D>>, id: string): Option<D>
    decreases |calls|
  {
    if calls == [] then None
    else if calls[|calls| - 1].id == id then Some(calls[|calls| - 1].data)
    else LastSaved(calls[..|calls| - 1], id)
  }

  lemma {:induction false} ReplaySnoc<D>(plans: map<string, D>, calls: seq<SaveCall<D>>, last: SaveCall<D>)
    ensures Replay(plans, calls + [last]) == Replay(plans, calls)[last.id := last.data]
    decreases |calls|
  {
    if calls == [] {
      assert calls + [last] == [last];
    } else {
      assert (calls + [last])[1..] == calls[1..] + [last];
      ReplaySnoc(plans[calls[0].id := calls[0].data], calls[1..], last);
    }
  }

  /** After any run of saves, a read of `id` finds the data of the latest save
      under `id`; an id never saved finds what was there before (nothing, for
      a fresh store). */
  lemma {:induction false} ReplayFindsLatest<D>(plans: map<string, D>, calls: seq<SaveCall<D>>, id: string)
    ensures Find(Replay(plans, calls), id)
         == if LastSaved(calls, id).Some? then LastSaved(calls, id) else Find(plans, id)
    decreases |calls|
  {
    if calls != [] {
      var init, last := calls[..|calls| - 1], calls[|calls| - 1];
      assert calls == init + [last];
      ReplaySnoc(plans, init, last);
      ReplayFindsLatest(plans, init, id);
    }
  }

  /** On a fresh store, an id no call saved under reads as nothing. */
  lemma NeverSavedIsAbsent<D>(calls: seq<SaveCall<D>>, id: string)
    requires forall k :: 0 <= k < |calls| ==> calls[k].id != id
    ensures Find(Replay(map[], calls), id) == None
  {
    ReplayFindsLatest(map[], calls, id);
    NoSaveNoLast(calls, id);
  }

  lemma {:induction false} NoSaveNoLast<D>(calls: seq<SaveCall<D>>, id: string)
    requires forall k :: 0 <= k < |calls| ==> calls[k].id != id
    ensures LastSaved(calls, id) == None
    decreases |calls|
  {
    if calls != [] {
      NoSaveNoLast(calls[..|calls| - 1], id);
    }
  }
}
