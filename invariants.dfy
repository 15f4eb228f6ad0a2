/**
 * The world invariant `State.Inv` holds of every state the operations and
 * dispatch steps can produce: event lists are null or non-empty and hold live
 * subscriptions of their own event, an idle emitter has nothing queued, the
 * fire-count bookkeeping balances, and every emitter's completed, in-flight and
 * queued notifications are exactly its emitted ones, in order.
 */
module Invariants {
  import opened Basics
  import opened State
  import opened Listeners
  import opened Dispatch
  import opened DispatchFacts

  /** Replacing one emitter by a well-formed one with the same links keeps the invariant. */
  lemma ReplaceEmitter(w: World, e: EmitterId, em': Emitter, w': World)
    requires Inv(w) && e in w.emitters
    requires w'.emitters == w.emitters[e := em'] && w'.subs == w.subs
    requires w'.nextSub == w.nextSub && w'.nextEmitter == w.nextEmitter
    requires EmitterOk(w.subs, e, em') && em'.podiums == w.emitters[e].podiums
    ensures Inv(w')
  {
    LinkedFrame(w, w');
  }

  lemma PumpOk(subs: map<SubId, Sub>, e: EmitterId, em: Emitter)
    requires EmitterOk(subs, e, em.(processing := true))
    requires em.processing || (em.batch == [] && em.cycle.None?)
    ensures EmitterOk(subs, e, Pump(em))
  {
    if !em.processing && em.queue != [] {
      assert Ids(em.batch) == [];
    }
  }

  /** `emit` keeps the invariant. */
  lemma EmitInv(w: World, e: EmitterId, name: EventName, data: Data, cb: Callback)
    requires Inv(w) && e in w.emitters
    requires Emit(w, e, name, data, cb).Ok?
    ensures Inv(Emit(w, e, name, data, cb).value)
  {
    var em := w.emitters[e];
    assert EmitterOk(w.subs, e, em);
    var n := Distribute(em, e, Notification(w.nextNote, name, data, cb));
    var em1 := em.(queue := em.queue + [n], issued := em.issued + [n.id]);
    EmitOk(w.subs, e, em, n);
    PumpOk(w.subs, e, em1);
    ReplaceEmitter(w, e, Pump(em1), Emit(w, e, name, data, cb).value);
  }

  lemma EmitOk(subs: map<SubId, Sub>, e: EmitterId, em: Emitter, n: Notification)
    requires EmitterOk(subs, e, em) && n.event in em.events
    ensures EmitterOk(subs, e, em.(queue := em.queue + [n], issued := em.issued + [n.id], processing := true))
  {
    IdsAppend(em.queue, [n]);
    assert Ids([n]) == [n.id];
    var q := em.queue + [n];
    assert Known(em.events, q) by {
      forall i | 0 <= i < |q| ensures q[i].event in em.events {
        if i < |em.queue| { assert q[i] == em.queue[i]; }
      }
    }
  }

  lemma {:induction false} EmitAllInv(w: World, targets: seq<EmitterId>, name: EventName, data: Data, cb: Callback)
    requires Inv(w) && AllIn(targets, w.emitters)
    requires EmitAll(w, targets, name, data, cb).Ok?
    ensures Inv(EmitAll(w, targets, name, data, cb).value)
    decreases |targets|
  {
    if targets != [] {
      EmitInv(w, targets[0], name, data, cb);
      var w1 := Emit(w, targets[0], name, data, cb).value;
      assert AllIn(targets[1..], w1.emitters);
      EmitAllInv(w1, targets[1..], name, data, cb);
    }
  }

  /** The invariant speaks only of the emitters, the subscription store and the id counters behind them. */
  lemma InvSame(w: World, w': World)
    requires Inv(w)
    requires w'.emitters == w.emitters && w'.subs == w.subs && w'.nextSub == w.nextSub && w'.nextEmitter == w.nextEmitter
    ensures Inv(w')
  {
  }

  /** Running a completion callback keeps the invariant. */
  lemma {:induction false} InvokeInv(w: World, cb: Callback)
    requires Inv(w)
    requires Invoke(w, cb).Ok?
    ensures Inv(Invoke(w, cb).value)
    decreases |w.joins|, cb, 1
  {
    match cb
    case Ignore =>
    case User(id) =>
      InvSame(w, w.(calls := w.calls + [id]));
    case Fanout(src, name, data, fin) =>
      FanoutInv(w, src, name, data, fin);
    case JoinNext(j) =>
      if j in w.joins && w.joins[j].remaining <= 1 {
        JoinsShrink(w.joins, j);
        var w1 := w.(joins := w.joins - {j});
        InvSame(w, w1);
        InvokeInv(w1, w.joins[j].finalize);
      } else if j in w.joins {
        InvSame(w, w.(joins := w.joins[j := w.joins[j].(remaining := w.joins[j].remaining - 1)]));
      }
  }

  lemma {:induction false} FanoutInv(w: World, src: EmitterId, name: EventName, data: Data, fin: Callback)
    requires Inv(w)
    requires Invoke(w, Fanout(src, name, data, fin)).Ok?
    ensures Inv(Invoke(w, Fanout(src, name, data, fin)).value)
    decreases |w.joins|, Fanout(src, name, data, fin), 0
  {
    if src in w.emitters && w.emitters[src].podiums != [] {
      FanoutTargetsInv(w, src, name, data, fin);
    } else {
      FanoutWithoutTargets(w, src, name, data, fin);
      InvokeInv(w, fin);
    }
  }

  lemma FanoutTargetsInv(w: World, src: EmitterId, name: EventName, data: Data, fin: Callback)
    requires Inv(w) && src in w.emitters && w.emitters[src].podiums != []
    requires Invoke(w, Fanout(src, name, data, fin)).Ok?
    ensures Inv(Invoke(w, Fanout(src, name, data, fin)).value)
  {
    FanoutUnfolds(w, src, name, data, fin);
    SpreadInv(w, w.emitters[src].podiums, name, data, fin);
  }

  /** Opening a join and emitting on every target keeps the invariant. */
  lemma SpreadInv(w: World, targets: seq<EmitterId>, name: EventName, data: Data, fin: Callback)
    requires Inv(w) && AllIn(targets, w.emitters)
    requires Spread(w, targets, name, data, fin).Ok?
    ensures Inv(Spread(w, targets, name, data, fin).value)
  {
    var j := w.nextJoin;
    var w1 := w.(joins := w.joins[j := Join(|targets|, fin)], nextJoin := j + 1);
    InvSame(w, w1);
    EmitAllInv(w1, targets, name, data, JoinNext(j));
  }

  /** Completing the head of the batch keeps the invariant. */
  lemma CompleteInv(w: World, e: EmitterId)
    requires Inv(w) && e in w.emitters && |w.emitters[e].batch| > 0
    requires Complete(w, e).Ok?
    ensures Inv(Complete(w, e).value)
  {
    var em := w.emitters[e];
    assert EmitterOk(w.subs, e, em);
    var n := em.batch[0];
    var em' := em.(batch := em.batch[1..], cycle := None, completed := em.completed + [n.id]);
    PopOk(w.subs, e, em);
    var w1 := w.(emitters := w.emitters[e := em']);
    ReplaceEmitter(w, e, em', w1);
    InvokeInv(w1, n.callback);
  }

  lemma PopOk(subs: map<SubId, Sub>, e: EmitterId, em: Emitter)
    requires EmitterOk(subs, e, em) && |em.batch| > 0
    ensures EmitterOk(subs, e, em.(batch := em.batch[1..], cycle := None, completed := em.completed + [em.batch[0].id]))
  {
    PopIds(em.completed, em.batch, Ids(em.queue), em.issued);
    KnownTail(em.events, em.batch);
  }

  /** Moving the head of the batch to the completed ids keeps their concatenation. */
  lemma PopIds(completed: seq<nat>, batch: seq<Notification>, queued: seq<nat>, issued: seq<nat>)
    requires |batch| > 0 && completed + Ids(batch) + queued == issued
    ensures (completed + [batch[0].id]) + Ids(batch[1..]) + queued == issued
  {
    var x, rest := batch[0].id, Ids(batch[1..]);
    assert Ids(batch) == [x] + rest;
    assert completed + ([x] + rest) == (completed + [x]) + rest;
  }

  lemma KnownTail(events: map<EventName, Entry>, ns: seq<Notification>)
    requires Known(events, ns) && |ns| > 0
    ensures Known(events, ns[1..])
  {
    forall i | 0 <= i < |ns| - 1 ensures ns[1..][i].event in events {
      assert ns[1..][i] == ns[i + 1];
    }
  }

  lemma MaybeCompleteInv(w: World, e: EmitterId)
    requires Inv(w) && e in w.emitters && w.emitters[e].cycle.Some? && |w.emitters[e].batch| > 0
    requires MaybeComplete(w, e).Ok?
    ensures Inv(MaybeComplete(w, e).value)
  {
    var c := w.emitters[e].cycle.value;
    if c.next == |c.snapshot| && c.finished >= |c.snapshot| {
      CompleteInv(w, e);
    }
  }

  /** Starting a cycle keeps the invariant. */
  lemma BeginInv(w: World, e: EmitterId)
    requires Inv(w) && CanBegin(w, e)
    requires Begin(w, e).Ok?
    ensures Inv(Begin(w, e).value)
  {
    var em := w.emitters[e];
    assert EmitterOk(w.subs, e, em);
    var en := em.events[em.batch[0].event];
    if |Subscribers(en)| == 0 {
      CompleteInv(w, e);
    } else {
      assert EntryOk(w.subs, e, em.batch[0].event, en);
      var c := Cycle(em.cycles, Subscribers(en), 0, 0, map[]);
      assert c.snapshot[c.next..] == c.snapshot;
      var em' := em.(cycle := Some(c), cycles := em.cycles + 1);
      assert EmitterOk(w.subs, e, em');
      ReplaceEmitter(w, e, em', Begin(w, e).value);
    }
  }

  /** A blocking handler's completion, or its timer, keeps the invariant. */
  lemma FinishInv(w: World, e: EmitterId, serial: nat, id: SubId)
    requires Inv(w) && CanFinish(w, e)
    requires Finish(w, e, serial, id).Ok?
    ensures Inv(Finish(w, e, serial, id).value)
  {
    var em := w.emitters[e];
    assert EmitterOk(w.subs, e, em);
    if em.cycle.None? || em.cycle.value.serial != serial || id !in em.cycle.value.waiting {
      assert Finish(w, e, serial, id) == Ok(w);
    } else {
      var c := em.cycle.value;
      match c.waiting[id]
      case OneShot(used) =>
        if used {
          assert Finish(w, e, serial, id) == Ok(w);
        } else {
          var c1 := c.(finished := c.finished + 1, waiting := c.waiting[id := OneShot(true)]);
          RecycleOk(w.subs, e, em, c1);
          assert Finish(w, e, serial, id) == Recount(w, e, c1);
          RecountInv(w, e, c1);
        }
      case Repeating =>
        var c1 := c.(finished := c.finished + 1);
        RecycleOk(w.subs, e, em, c1);
        assert Finish(w, e, serial, id) == Recount(w, e, c1);
        RecountInv(w, e, c1);
    }
  }

  /** A cycle that only counts another handler finished keeps its emitter well-formed. */
  lemma RecycleOk(subs: map<SubId, Sub>, e: EmitterId, em: Emitter, c1: Cycle)
    requires EmitterOk(subs, e, em) && em.cycle.Some?
    requires c1.snapshot == em.cycle.value.snapshot && c1.next == em.cycle.value.next
    ensures EmitterOk(subs, e, em.(cycle := Some(c1)))
  {
    assert CycleOk(subs, e, em.batch[0].event, em.cycle.value);
  }

  /** Installing a well-formed cycle, and completing the item if it is done, keeps the invariant. */
  lemma RecountInv(w: World, e: EmitterId, c: Cycle)
    requires Inv(w) && e in w.emitters && |w.emitters[e].batch| > 0
    requires EmitterOk(w.subs, e, w.emitters[e].(cycle := Some(c)))
    requires Recount(w, e, c).Ok?
    ensures Inv(Recount(w, e, c).value)
  {
    var em' := w.emitters[e].(cycle := Some(c));
    var w1 := w.(emitters := w.emitters[e := em']);
    ReplaceEmitter(w, e, em', w1);
    MaybeCompleteInv(w1, e);
  }

  /** The end of a drained batch keeps the invariant. */
  lemma SettleInv(w: World, e: EmitterId)
    requires Inv(w) && CanSettle(w, e)
    ensures Inv(Settle(w, e))
  {
    var em := w.emitters[e];
    assert EmitterOk(w.subs, e, em);
    var em0 := em.(processing := false);
    assert Ids(em.batch) == [];
    PumpOk(w.subs, e, em0);
    ReplaceEmitter(w, e, Pump(em0), Settle(w, e));
  }

  /* ---------- delivery ---------- */

  lemma MembersUpdate(subs: map<SubId, Sub>, id: SubId, s1: Sub, e: EmitterId, name: EventName, ids: seq<SubId>)
    requires Members(subs, e, name, ids) && id in subs
    requires s1.owner == subs[id].owner && s1.event == subs[id].event
    requires id in ids ==> Live(s1)
    ensures Members(subs[id := s1], e, name, ids)
  {
  }

  /** An emitter or event that does not own `id` is unaffected by a change to it. */
  lemma EmitterOkUpdateOther(subs: map<SubId, Sub>, id: SubId, s1: Sub, x: EmitterId, em: Emitter)
    requires EmitterOk(subs, x, em) && id in subs && subs[id].owner != x
    requires s1.owner == subs[id].owner && s1.event == subs[id].event
    ensures EmitterOk(subs[id := s1], x, em)
  {
    forall name | name in em.events
      ensures EntryOk(subs[id := s1], x, name, em.events[name])
    {
      assert EntryOk(subs, x, name, em.events[name]);
      if em.events[name].subs.Some? {
        MembersUpdate(subs, id, s1, x, name, em.events[name].subs.value);
      }
    }
    if em.cycle.Some? {
      var c := em.cycle.value;
      MembersUpdate(subs, id, s1, x, em.batch[0].event, c.snapshot[c.next..]);
    }
  }

  lemma {:induction false} WithoutDistinct(ids: seq<SubId>, id: SubId)
    requires Distinct(ids)
    ensures Distinct(Without(ids, id))
  {
    if ids != [] {
      assert Distinct(ids[1..]) by {
        forall i, j | 0 <= i < j < |ids[1..]| ensures ids[1..][i] != ids[1..][j] {
          assert ids[1..][i] == ids[i + 1] && ids[1..][j] == ids[j + 1];
        }
      }
      WithoutDistinct(ids[1..], id);
      assert ids[0] !in ids[1..] by {
        forall k | 0 <= k < |ids[1..]| ensures ids[1..][k] != ids[0] {
          assert ids[1..][k] == ids[k + 1];
        }
      }
    }
  }

  /** The snapshot entry `id` at position `next` is not among the entries after it. */
  lemma DistinctTail(snapshot: seq<SubId>, next: nat)
    requires Distinct(snapshot) && next < |snapshot|
    ensures snapshot[next] !in snapshot[next + 1..]
  {
    var tail := snapshot[next + 1..];
    forall k | 0 <= k < |tail| ensures tail[k] != snapshot[next] {
      assert tail[k] == snapshot[next + 1 + k];
    }
  }

  /** The owning emitter stays well-formed after one delivery, before any completion. */
  lemma DeliverOwnerOk(w: World, e: EmitterId)
    requires Inv(w) && CanDeliver(w, e)
    ensures EmitterOk(Handed(w, e).subs, e, Handed(w, e).emitters[e])
  {
    var em := w.emitters[e];
    assert EmitterOk(w.subs, e, em);
    var c := em.cycle.value;
    var n := em.batch[0];
    var id := c.snapshot[c.next];
    var s := w.subs[id];
    assert c.snapshot[c.next..] == [id] + c.snapshot[c.next + 1..];
    assert Live(s) && s.owner == e && s.event == n.event;
    var s1 := Fired(s);
    var w1 := Handed(w, e);
    var subs1 := w1.subs;
    assert subs1 == w.subs[id := s1];
    var em1 := w1.emitters[e];
    var events := em1.events;
    DistinctTail(c.snapshot, c.next);
    forall name | name in events
      ensures EntryOk(subs1, e, name, events[name])
    {
      assert EntryOk(w.subs, e, name, em.events[name]);
      if s.count == 1 && name == n.event {
        var en := em.events[name];
        if en.subs.Some? {
          WithoutDistinct(en.subs.value, id);
          MembersUpdate(w.subs, id, s1, e, name, Without(en.subs.value, id));
        }
      } else if events[name].subs.Some? {
        assert events[name] == em.events[name];
        MembersUpdate(w.subs, id, s1, e, name, events[name].subs.value);
      }
    }
    var c1 := em1.cycle.value;
    assert c1.snapshot == c.snapshot && c1.next == c.next + 1;
    MembersUpdate(w.subs, id, s1, e, n.event, c.snapshot[c.next + 1..]);
    assert CycleOk(subs1, e, em1.batch[0].event, c1);
    assert em1.batch == em.batch && em1.queue == em.queue && em1.events.Keys == em.events.Keys;
  }

  /** The entry being handed the item is a live subscription of this emitter. */
  lemma HandedSub(w: World, e: EmitterId)
    requires Inv(w) && CanDeliver(w, e)
    ensures var c := w.emitters[e].cycle.value; var s := w.subs[c.snapshot[c.next]];
      s.owner == e && Live(s) && SubOk(s)
  {
    var em := w.emitters[e];
    var c := em.cycle.value;
    assert EmitterOk(w.subs, e, em);
    assert c.snapshot[c.next..] == [c.snapshot[c.next]] + c.snapshot[c.next + 1..];
  }

  lemma HandedOthers(w: World, e: EmitterId)
    requires Inv(w) && CanDeliver(w, e)
    ensures forall x :: x in w.emitters && x != e ==> EmitterOk(Handed(w, e).subs, x, Handed(w, e).emitters[x])
  {
    var c := w.emitters[e].cycle.value;
    var id := c.snapshot[c.next];
    HandedSub(w, e);
    forall x | x in w.emitters && x != e
      ensures EmitterOk(Handed(w, e).subs, x, Handed(w, e).emitters[x])
    {
      assert EmitterOk(w.subs, x, w.emitters[x]);
      EmitterOkUpdateOther(w.subs, id, Fired(w.subs[id]), x, w.emitters[x]);
    }
  }

  /** Handing the item to the next snapshot entry keeps the invariant. */
  lemma HandedInv(w: World, e: EmitterId)
    requires Inv(w) && CanDeliver(w, e)
    ensures Inv(Handed(w, e))
  {
    HandedParts(w, e);
    HandedStore(w, e);
    HandedEmitters(w, e);
    LinkedFrame(w, Handed(w, e));
  }

  /** The handed subscription stays well-formed; no other one changes. */
  lemma HandedStore(w: World, e: EmitterId)
    requires Inv(w) && CanDeliver(w, e)
    ensures StoreIn(Handed(w, e).subs, w.nextSub)
  {
    var c := w.emitters[e].cycle.value;
    HandedParts(w, e);
    HandedSub(w, e);
    FiredStore(w.subs, w.nextSub, c.snapshot[c.next]);
  }

  /** Spending one delivery of a live subscription keeps the store well-formed. */
  lemma FiredStore(subs: map<SubId, Sub>, nextSub: nat, id: SubId)
    requires StoreIn(subs, nextSub) && id in subs && Live(subs[id])
    ensures StoreIn(subs[id := Fired(subs[id])], nextSub)
  {
    assert SubOk(subs[id]);
  }

  lemma HandedEmitters(w: World, e: EmitterId)
    requires Inv(w) && CanDeliver(w, e)
    ensures EmittersOk(Handed(w, e).emitters, Handed(w, e).subs, w.nextEmitter)
  {
    var w1 := Handed(w, e);
    DeliverOwnerOk(w, e);
    HandedOthers(w, e);
    forall x | x in w1.emitters
      ensures x < w.nextEmitter && EmitterOk(w1.subs, x, w1.emitters[x])
    {
      assert x in w.emitters;
    }
  }

  lemma DeliverInv(w: World, e: EmitterId)
    requires Inv(w) && CanDeliver(w, e)
    requires Deliver(w, e).Ok?
    ensures Inv(Deliver(w, e).value)
  {
    HandedInv(w, e);
    MaybeCompleteInv(Handed(w, e), e);
  }
}
