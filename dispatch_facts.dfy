/**
 * What the queue and the dispatch cycle promise: `emit` refuses unknown events
 * before enqueuing, only appends while a drain is running and otherwise swaps
 * the queue out; an item with no subscribers completes at once; delivery goes
 * to the snapshot taken when the item's cycle began; data is cloned exactly
 * when the subscription or the event asks for it; a non-blocking handler
 * finishes at once; a numeric `block` is counted once however often it
 * signals, `block: true` every time.
 */
module DispatchFacts {
  import opened Basics
  import opened State
  import opened Listeners
  import opened Dispatch

  /**
   * What emitting and running completion callbacks may do to an emitter: its
   * table, links and cycle stay, its completed ids stay, its issued ids only
   * grow, and a batch being drained stays in place.
   */
  predicate Kept(em: Emitter, em': Emitter) {
    em'.events == em.events && em'.podiums == em.podiums && em'.cycle == em.cycle
    && em'.cycles == em.cycles && em'.completed == em.completed
    && em.issued <= em'.issued
    && (em.processing ==> em'.processing && em'.batch == em.batch)
  }

  /** Every emitter `Kept`, and the subscriptions and the delivery trace untouched. */
  predicate Framed(w: World, w': World) {
    w'.emitters.Keys == w.emitters.Keys && w'.subs == w.subs && w'.deliveries == w.deliveries
    && w'.nextSub == w.nextSub && w'.nextEmitter == w.nextEmitter
    && forall x :: x in w.emitters ==> Kept(w.emitters[x], w'.emitters[x])
  }

  lemma FramedTrans(a: World, b: World, c: World)
    requires Framed(a, b) && Framed(b, c)
    ensures Framed(a, c)
  {
    forall x | x in a.emitters
      ensures Kept(a.emitters[x], c.emitters[x])
    {
      assert Kept(a.emitters[x], b.emitters[x]) && Kept(b.emitters[x], c.emitters[x]);
    }
  }

  /** `emit` on a known event only enqueues on that emitter. */
  lemma EmitFramed(w: World, e: EmitterId, name: EventName, data: Data, cb: Callback)
    requires e in w.emitters
    requires Emit(w, e, name, data, cb).Ok?
    ensures Framed(w, Emit(w, e, name, data, cb).value)
  {
    var w' := Emit(w, e, name, data, cb).value;
    assert Kept(w.emitters[e], w'.emitters[e]);
  }

  lemma {:induction false} EmitAllFramed(w: World, targets: seq<EmitterId>, name: EventName, data: Data, cb: Callback)
    requires AllIn(targets, w.emitters)
    requires EmitAll(w, targets, name, data, cb).Ok?
    ensures Framed(w, EmitAll(w, targets, name, data, cb).value)
    decreases |targets|
  {
    if targets != [] {
      var w1 := Emit(w, targets[0], name, data, cb).value;
      EmitFramed(w, targets[0], name, data, cb);
      assert AllIn(targets[1..], w1.emitters);
      EmitAllFramed(w1, targets[1..], name, data, cb);
      FramedTrans(w, w1, EmitAll(w1, targets[1..], name, data, cb).value);
    }
  }

  /** A fan-out only opens a join and emits. */
  lemma SpreadFramed(w: World, targets: seq<EmitterId>, name: EventName, data: Data, fin: Callback)
    requires AllIn(targets, w.emitters)
    requires Spread(w, targets, name, data, fin).Ok?
    ensures Framed(w, Spread(w, targets, name, data, fin).value)
  {
    var j := w.nextJoin;
    var w0 := w.(joins := w.joins[j := Join(|targets|, fin)], nextJoin := j + 1);
    assert AllIn(targets, w0.emitters);
    EmitAllFramed(w0, targets, name, data, JoinNext(j));
    FramedTrans(w, w0, EmitAll(w0, targets, name, data, JoinNext(j)).value);
  }

  /** Running a completion callback only emits: no subscription, delivery, table, link, cycle or completion changes. */
  lemma {:induction false} InvokeFramed(w: World, cb: Callback)
    requires Linked(w)
    requires Invoke(w, cb).Ok?
    ensures Framed(w, Invoke(w, cb).value)
    decreases |w.joins|, cb, 1
  {
    match cb
    case Ignore =>
    case User(id) =>
    case Fanout(src, name, data, fin) => FanoutFramed(w, src, name, data, fin);
    case JoinNext(j) => JoinNextFramed(w, j);
  }

  lemma {:induction false} FanoutFramed(w: World, src: EmitterId, name: EventName, data: Data, fin: Callback)
    requires Linked(w)
    requires Invoke(w, Fanout(src, name, data, fin)).Ok?
    ensures Framed(w, Invoke(w, Fanout(src, name, data, fin)).value)
    decreases |w.joins|, Fanout(src, name, data, fin), 0
  {
    var targets := if src in w.emitters then w.emitters[src].podiums else [];
    if targets == [] {
      assert Invoke(w, Fanout(src, name, data, fin)) == Invoke(w, fin);
      InvokeFramed(w, fin);
    } else {
      assert Invoke(w, Fanout(src, name, data, fin)) == Spread(w, targets, name, data, fin);
      SpreadFramed(w, targets, name, data, fin);
    }
  }

  lemma {:induction false} JoinNextFramed(w: World, j: JoinId)
    requires Linked(w)
    requires Invoke(w, JoinNext(j)).Ok?
    ensures Framed(w, Invoke(w, JoinNext(j)).value)
    decreases |w.joins|, JoinNext(j), 0
  {
    if j in w.joins && w.joins[j].remaining <= 1 {
      JoinsShrink(w.joins, j);
      var w0 := w.(joins := w.joins - {j});
      assert Invoke(w, JoinNext(j)) == Invoke(w0, w.joins[j].finalize);
      InvokeFramed(w0, w.joins[j].finalize);
      FramedTrans(w, w0, Invoke(w0, w.joins[j].finalize).value);
    }
  }

  /* ---------- emit ---------- */

  /** `emit` fails exactly on an unknown event, with nothing enqueued anywhere. */
  lemma EmitUnknown(w: World, e: EmitterId, name: EventName, data: Data, cb: Callback)
    requires e in w.emitters
    ensures Emit(w, e, name, data, cb).Err? <==> name !in w.emitters[e].events
    ensures Emit(w, e, name, data, cb).Err? ==> Emit(w, e, name, data, cb).error == UnknownEvent
  {
  }

  /**
   * While a drain is running, `emit` appends one notification carrying the
   * event and data at the end of the queue; the batch, the cycle and every other
   * emitter are as they were.
   */
  lemma EmitWhileBusy(w: World, e: EmitterId, name: EventName, data: Data, cb: Callback)
    requires e in w.emitters && name in w.emitters[e].events && w.emitters[e].processing
    ensures Emit(w, e, name, data, cb).Ok?
    ensures var em := w.emitters[e]; var em' := Emit(w, e, name, data, cb).value.emitters[e];
      && |em'.queue| == |em.queue| + 1 && em'.queue[..|em.queue|] == em.queue
      && em'.queue[|em.queue|].id == w.nextNote && em'.queue[|em.queue|].event == name
      && em'.queue[|em.queue|].data == data
      && em'.processing && em'.batch == em.batch && em'.cycle == em.cycle && em'.events == em.events
      && em'.issued == em.issued + [w.nextNote]
    ensures forall x :: x in w.emitters && x != e ==> Emit(w, e, name, data, cb).value.emitters[x] == w.emitters[x]
  {
    var em' := Emit(w, e, name, data, cb).value.emitters[e];
    assert em'.queue[..|w.emitters[e].queue|] == w.emitters[e].queue;
  }

  /**
   * On an idle emitter (which has nothing queued), `emit` starts a drain: the
   * new notification alone is swapped out as the batch and the queue is empty.
   */
  lemma EmitWhenIdle(w: World, e: EmitterId, name: EventName, data: Data, cb: Callback)
    requires e in w.emitters && name in w.emitters[e].events && !w.emitters[e].processing
    requires EmitterOk(w.subs, e, w.emitters[e])
    ensures Emit(w, e, name, data, cb).Ok?
    ensures var em' := Emit(w, e, name, data, cb).value.emitters[e];
      && em'.processing && em'.queue == [] && |em'.batch| == 1 && em'.cycle.None?
      && em'.batch[0].id == w.nextNote && em'.batch[0].event == name && em'.batch[0].data == data
  {
  }

  /* ---------- distribute ---------- */

  /**
   * `internals.distribute` keeps the notification's id, event and data; it
   * returns the notification itself exactly when the emitter has no link
   * targets, and otherwise wraps the original callback in the fan-out.
   */
  lemma DistributeKeeps(em: Emitter, source: EmitterId, n: Notification)
    ensures var r := Distribute(em, source, n);
      && r.id == n.id && r.event == n.event && r.data == n.data
      && (r == n <==> em.podiums == [])
      && (em.podiums != [] ==> r.callback.Fanout? && r.callback.finalize == n.callback && r.callback.source == source)
  {
    if em.podiums != [] {
      assert n.callback < Fanout(source, n.event, n.data, n.callback);
    }
  }

  /** A fan-out whose source has no link targets when it runs is the original callback. */
  lemma FanoutWithoutTargets(w: World, src: EmitterId, name: EventName, data: Data, fin: Callback)
    requires Linked(w) && (src in w.emitters ==> w.emitters[src].podiums == [])
    ensures Invoke(w, Fanout(src, name, data, fin)) == Invoke(w, fin)
  {
  }

  /** An idle emitter has no batch (part of the world invariant). */
  predicate Drained(m: map<EmitterId, Emitter>) {
    forall x :: x in m && !m[x].processing ==> m[x].batch == []
  }

  /** `em'` is `em` with the notification `n` of emitter `t` added after everything pending, as `emit` adds it. */
  predicate Fed(em: Emitter, em': Emitter, t: EmitterId, n: Notification) {
    Backlog(em') == Backlog(em) + [Distribute(em, t, n)] && em'.issued == em.issued + [n.id]
  }

  /**
   * `emit` of a known event adds exactly one notification after everything
   * pending on that emitter: the next id, the event and the data, with the
   * callback wrapped as a fan-out when the emitter has link targets; no other
   * emitter and no join changes.
   */
  lemma EmitAppends(w: World, e: EmitterId, name: EventName, data: Data, cb: Callback)
    requires e in w.emitters && Drained(w.emitters) && name in w.emitters[e].events
    ensures Emit(w, e, name, data, cb).Ok?
    ensures var r := Emit(w, e, name, data, cb).value;
      && Drained(r.emitters)
      && r == w.(emitters := w.emitters[e := r.emitters[e]], nextNote := w.nextNote + 1)
      && Fed(w.emitters[e], r.emitters[e], e, Notification(w.nextNote, name, data, cb))
  {
    var em := w.emitters[e];
    var n := Distribute(em, e, Notification(w.nextNote, name, data, cb));
    var em1 := em.(queue := em.queue + [n], issued := em.issued + [n.id]);
    assert Backlog(em1) == Backlog(em) + [n];
    if !em.processing {
      assert em.batch == [];
    }
  }

  /**
   * `EmitAll` over distinct targets gives each target exactly one notification,
   * after everything pending on it, with consecutive ids in target order, the
   * same event, data and callback (wrapped when that target has link targets of
   * its own); no other emitter and no join changes.
   */
  lemma {:induction false} EmitAllReaches(w: World, targets: seq<EmitterId>, name: EventName, data: Data, cb: Callback)
    requires AllIn(targets, w.emitters) && Distinct(targets) && Drained(w.emitters)
    requires EmitAll(w, targets, name, data, cb).Ok?
    ensures var r := EmitAll(w, targets, name, data, cb).value;
      && Drained(r.emitters) && r.nextNote == w.nextNote + |targets|
      && r == w.(emitters := r.emitters, nextNote := r.nextNote) && r.emitters.Keys == w.emitters.Keys
      && (forall i :: 0 <= i < |targets| ==>
            Fed(w.emitters[targets[i]], r.emitters[targets[i]], targets[i], Notification(w.nextNote + i, name, data, cb)))
      && (forall x :: x in w.emitters && x !in targets ==> r.emitters[x] == w.emitters[x])
    decreases |targets|
  {
    if targets != [] {
      var t := targets[0];
      assert name in w.emitters[t].events;
      EmitAppends(w, t, name, data, cb);
      var w1 := Emit(w, t, name, data, cb).value;
      var rest := targets[1..];
      assert AllIn(rest, w1.emitters);
      DistinctRest(targets);
      EmitAllReaches(w1, rest, name, data, cb);
      var r := EmitAll(w1, rest, name, data, cb).value;
      assert EmitAll(w, targets, name, data, cb).value == r;
      ReachesStep(w, w1, r, t, rest, name, data, cb);
      assert targets == [t] + rest;
    }
  }

  /** The step of `EmitAllReaches`: the first target's notification, then the rest's. */
  lemma ReachesStep(w: World, w1: World, r: World, t: EmitterId, rest: seq<EmitterId>, name: EventName, data: Data, cb: Callback)
    requires t in w.emitters && t !in rest && AllIn(rest, w.emitters)
    requires t in w1.emitters && w1 == w.(emitters := w.emitters[t := w1.emitters[t]], nextNote := w.nextNote + 1)
    requires Fed(w.emitters[t], w1.emitters[t], t, Notification(w.nextNote, name, data, cb))
    requires r.emitters.Keys == w1.emitters.Keys
    requires forall i :: 0 <= i < |rest| ==>
      Fed(w1.emitters[rest[i]], r.emitters[rest[i]], rest[i], Notification(w1.nextNote + i, name, data, cb))
    requires forall x :: x in w1.emitters && x !in rest ==> r.emitters[x] == w1.emitters[x]
    requires r == w1.(emitters := r.emitters, nextNote := r.nextNote) && r.nextNote == w1.nextNote + |rest|
    ensures r == w.(emitters := r.emitters, nextNote := r.nextNote) && r.nextNote == w.nextNote + |[t] + rest|
    ensures r.emitters.Keys == w.emitters.Keys
    ensures forall i :: 0 <= i < |[t] + rest| ==>
      Fed(w.emitters[([t] + rest)[i]], r.emitters[([t] + rest)[i]], ([t] + rest)[i], Notification(w.nextNote + i, name, data, cb))
    ensures forall x :: x in w.emitters && x !in [t] + rest ==> r.emitters[x] == w.emitters[x]
  {
    var targets := [t] + rest;
    forall i | 0 <= i < |targets|
      ensures Fed(w.emitters[targets[i]], r.emitters[targets[i]], targets[i], Notification(w.nextNote + i, name, data, cb))
    {
      if i == 0 {
        assert r.emitters[t] == w1.emitters[t];
      } else {
        assert targets[i] == rest[i - 1] && rest[i - 1] in rest;
        assert w1.emitters[targets[i]] == w.emitters[targets[i]];
      }
    }
  }

  /** A fan-out over link targets is one emit per target, under a fresh join counting them all. */
  lemma FanoutUnfolds(w: World, src: EmitterId, name: EventName, data: Data, fin: Callback)
    requires Linked(w) && src in w.emitters && w.emitters[src].podiums != []
    ensures AllIn(w.emitters[src].podiums, w.emitters)
    ensures Invoke(w, Fanout(src, name, data, fin)) == Spread(w, w.emitters[src].podiums, name, data, fin)
  {
    var targets := w.emitters[src].podiums;
    forall i | 0 <= i < |targets|
      ensures targets[i] in w.emitters
    {
      assert targets[i] in w.emitters[src].podiums;
    }
  }

  /* ---------- the cycle ---------- */

  /** Completing the head of a batch being drained records it as completed, drops it and ends its cycle. */
  lemma CompleteRecords(w: World, e: EmitterId)
    requires e in w.emitters && |w.emitters[e].batch| > 0 && Linked(w) && w.emitters[e].processing
    requires Complete(w, e).Ok?
    ensures var em := w.emitters[e]; var em' := Complete(w, e).value.emitters[e];
      && em'.completed == em.completed + [em.batch[0].id] && em'.batch == em.batch[1..]
      && em'.cycle.None? && em'.processing && em'.events == em.events
    ensures Complete(w, e).value.deliveries == w.deliveries && Complete(w, e).value.subs == w.subs
  {
    var em := w.emitters[e];
    var w1 := w.(emitters := w.emitters[e := em.(batch := em.batch[1..], cycle := None, completed := em.completed + [em.batch[0].id])]);
    LinkedFrame(w, w1);
    InvokeFramed(w1, em.batch[0].callback);
  }

  /** An item whose event has no subscribers completes in the step that begins it. */
  lemma BeginEmpty(w: World, e: EmitterId)
    requires CanBegin(w, e)
    requires |Subscribers(w.emitters[e].events[w.emitters[e].batch[0].event])| == 0
    requires Begin(w, e).Ok?
    ensures var em := w.emitters[e]; var em' := Begin(w, e).value.emitters[e];
      em'.completed == em.completed + [em.batch[0].id] && em'.batch == em.batch[1..] && em'.cycle.None?
    ensures Begin(w, e).value.deliveries == w.deliveries
  {
    CompleteRecords(w, e);
  }

  /** Otherwise the cycle starts over a snapshot of the event's current list, with nobody handed the item yet. */
  lemma BeginSnapshot(w: World, e: EmitterId)
    requires CanBegin(w, e)
    requires |Subscribers(w.emitters[e].events[w.emitters[e].batch[0].event])| > 0
    ensures Begin(w, e).Ok?
    ensures var em := w.emitters[e]; var em' := Begin(w, e).value.emitters[e];
      && em'.cycle.Some? && em'.cycle.value.snapshot == Subscribers(em.events[em.batch[0].event])
      && em'.cycle.value.next == 0 && em'.cycle.value.finished == 0 && em'.cycle.value.waiting == map[]
      && em'.batch == em.batch && em'.events == em.events && em'.completed == em.completed
    ensures Begin(w, e).value.subs == w.subs && Begin(w, e).value.deliveries == w.deliveries
  {
  }

  /**
   * Handing the item to the next snapshot entry: exactly one delivery is
   * recorded, to that entry, with the item's event and data, cloned exactly when
   * the subscription or the event asks for cloning; the snapshot stays and the
   * position advances; a truthy count is decremented, and a count of one takes
   * that subscription off the live list; a non-blocking handler is finished at
   * once, a blocking one is left waiting.
   */
  lemma HandedDelivers(w: World, e: EmitterId)
    requires CanDeliver(w, e)
    ensures var em := w.emitters[e]; var c := em.cycle.value; var n := em.batch[0];
      var id := c.snapshot[c.next]; var s := w.subs[id]; var en := em.events[n.event];
      var h := Handed(w, e); var c' := h.emitters[e].cycle.value;
      && h.deliveries == w.deliveries + [Delivery(e, id, s.listener, n.event, n.data, s.clone || en.flags.clone)]
      && c'.snapshot == c.snapshot && c'.next == c.next + 1 && c'.serial == c.serial
      && h.subs.Keys == w.subs.Keys
      && (forall x :: x in w.subs && x != id ==> h.subs[x] == w.subs[x])
      && h.subs[id].fired == s.fired + 1
      && (s.count > 0 ==> h.subs[id].count == s.count - 1) && (s.count == 0 ==> h.subs[id].count == 0)
      && (s.count == 1 ==> id !in Subscribers(h.emitters[e].events[n.event])
                           && (forall x :: x in Subscribers(en) && x != id ==> x in Subscribers(h.emitters[e].events[n.event])))
      && (s.count != 1 ==> h.emitters[e].events == em.events)
      && (!s.block.Blocks() ==> c'.finished == c.finished + 1 && c'.waiting == c.waiting)
      && (s.block.Blocks() ==> c'.finished == c.finished && c'.waiting.Keys == c.waiting.Keys + {id})
      && h.emitters[e].batch == em.batch
  {
  }

  /** Delivery records exactly one handler call and completes the item exactly when the snapshot has been handed out and every handler has finished. */
  lemma DeliverRecords(w: World, e: EmitterId)
    requires CanDeliver(w, e) && w.emitters[e].processing
    requires Deliver(w, e).Ok?
    ensures var h := Handed(w, e); var w' := Deliver(w, e).value; var c' := h.emitters[e].cycle.value;
      && w'.deliveries == h.deliveries && w'.subs == h.subs
      && (c'.next == |c'.snapshot| && c'.finished >= |c'.snapshot| ==>
            w'.emitters[e].completed == w.emitters[e].completed + [w.emitters[e].batch[0].id])
      && (!(c'.next == |c'.snapshot| && c'.finished >= |c'.snapshot|) ==> w' == h)
  {
    var h := Handed(w, e);
    LinkedFrame(w, h);
    var c' := h.emitters[e].cycle.value;
    if c'.next == |c'.snapshot| && c'.finished >= |c'.snapshot| {
      CompleteRecords(h, e);
    }
  }

  /**
   * The `next` of a numeric block is once-guarded: after its first call (which
   * counts one finish, see `FinishRecords`), signalling again or the timer
   * firing changes nothing.
   */
  lemma FinishOnce(w: World, e: EmitterId, serial: nat, id: SubId)
    requires CanFinish(w, e) && w.emitters[e].processing && w.emitters[e].cycle.Some?
    requires w.emitters[e].cycle.value.serial == serial && id in w.emitters[e].cycle.value.waiting
    requires w.emitters[e].cycle.value.waiting[id].OneShot?
    requires Finish(w, e, serial, id).Ok?
    ensures CanFinish(Finish(w, e, serial, id).value, e)
    ensures Finish(Finish(w, e, serial, id).value, e, serial, id) == Ok(Finish(w, e, serial, id).value)
  {
    var em := w.emitters[e];
    var c := em.cycle.value;
    if !c.waiting[id].used {
      var w1 := w.(emitters := w.emitters[e := em.(cycle := Some(c.(finished := c.finished + 1, waiting := c.waiting[id := OneShot(true)])))]);
      LinkedFrame(w, w1);
      var c1 := w1.emitters[e].cycle.value;
      if c1.next == |c1.snapshot| && c1.finished >= |c1.snapshot| {
        CompleteRecords(w1, e);
        var em1 := w1.emitters[e];
        var w2 := w1.(emitters := w1.emitters[e := em1.(batch := em1.batch[1..], cycle := None, completed := em1.completed + [em1.batch[0].id])]);
        LinkedFrame(w1, w2);
      }
    }
  }

  /**
   * A blocking handler's `next` that still counts (the first call of a numeric
   * block's once-guarded `next`, or any call of `block: true`'s) adds one
   * finish and, for a numeric block, marks the `next` used. The item completes
   * in that step exactly when the snapshot has been handed out and this was
   * the last handler to finish; otherwise only the cycle changes.
   */
  lemma FinishRecords(w: World, e: EmitterId, serial: nat, id: SubId)
    requires CanFinish(w, e) && w.emitters[e].processing && w.emitters[e].cycle.Some?
    requires w.emitters[e].cycle.value.serial == serial && id in w.emitters[e].cycle.value.waiting
    requires w.emitters[e].cycle.value.waiting[id] != OneShot(true)
    ensures var em := w.emitters[e]; var c := em.cycle.value;
      var c' := c.(finished := c.finished + 1, waiting := if c.waiting[id].OneShot? then c.waiting[id := OneShot(true)] else c.waiting);
      && (!(c'.next == |c'.snapshot| && c'.finished >= |c'.snapshot|) ==>
            Finish(w, e, serial, id) == Ok(w.(emitters := w.emitters[e := em.(cycle := Some(c'))])))
      && (c'.next == |c'.snapshot| && c'.finished >= |c'.snapshot| && Finish(w, e, serial, id).Ok? ==>
            var em' := Finish(w, e, serial, id).value.emitters[e];
            em'.completed == em.completed + [em.batch[0].id] && em'.batch == em.batch[1..] && em'.cycle.None?)
  {
    var em := w.emitters[e];
    var c := em.cycle.value;
    var c' := c.(finished := c.finished + 1, waiting := if c.waiting[id].OneShot? then c.waiting[id := OneShot(true)] else c.waiting);
    var w1 := w.(emitters := w.emitters[e := em.(cycle := Some(c'))]);
    LinkedFrame(w, w1);
    assert Finish(w, e, serial, id) == Recount(w, e, c');
    if c'.next == |c'.snapshot| && c'.finished >= |c'.snapshot| {
      assert Finish(w, e, serial, id) == Complete(w1, e);
      if Complete(w1, e).Ok? {
        CompleteRecords(w1, e);
      }
    } else {
      assert Finish(w, e, serial, id) == Ok(w1);
    }
  }

  /** The raw `next` of `block: true` counts a finish every time it is called. */
  lemma FinishRepeats(w: World, e: EmitterId, serial: nat, id: SubId)
    requires CanFinish(w, e) && w.emitters[e].cycle.Some?
    requires w.emitters[e].cycle.value.serial == serial && id in w.emitters[e].cycle.value.waiting
    requires w.emitters[e].cycle.value.waiting[id].Repeating?
    requires var c := w.emitters[e].cycle.value; c.next < |c.snapshot| || c.finished + 1 < |c.snapshot|
    ensures Finish(w, e, serial, id).Ok?
    ensures var c := w.emitters[e].cycle.value; var c' := Finish(w, e, serial, id).value.emitters[e].cycle;
      c' == Some(c.(finished := c.finished + 1)) && c'.value.waiting[id].Repeating?
  {
  }

  /** A signal for a cycle that is over, or from a handler that does not block, changes nothing. */
  lemma FinishStale(w: World, e: EmitterId, serial: nat, id: SubId)
    requires CanFinish(w, e)
    requires w.emitters[e].cycle.None? || w.emitters[e].cycle.value.serial != serial
             || id !in w.emitters[e].cycle.value.waiting
    ensures Finish(w, e, serial, id) == Ok(w)
  {
  }

  /** Once the batch is drained the flag is cleared and the queue drained again: whatever was queued becomes the next batch. */
  lemma SettleRedrains(w: World, e: EmitterId)
    requires CanSettle(w, e)
    ensures var em := w.emitters[e]; var em' := Settle(w, e).emitters[e];
      && (em.queue == [] ==> !em'.processing && em'.batch == [])
      && (em.queue != [] ==> em'.processing && em'.batch == em.queue && em'.queue == [])
      && em'.issued == em.issued && em'.completed == em.completed
  {
  }
}
