/**
 * The notification queue and the dispatch cycle (`emit`, `internals.distribute`,
 * `internals.emit`). The source drives a cycle through asynchronous callbacks;
 * here each point where control can return to the host is a separate step, so
 * that a handler's reentrant calls, a blocking handler's completion and a timer
 * firing are the steps a scheduler may take between them:
 *
 *   Begin    - `each(item, next)` for the head of the swapped-out batch: snapshot the list;
 *   Deliver  - `eachHandler` for the next subscription of the snapshot;
 *   Finish   - a blocking handler calls its `next`, or its timer fires;
 *   Settle   - the batch is drained: clear the flag and pump the queue again.
 *
 * Completing an item (its callback, then `next()`) happens inside the step that
 * finishes its last subscriber.
 */
module Dispatch {
  import opened Basics
  import opened State
  import opened Listeners

  /**
   * `internals.distribute`: a notification of an emitter without link targets is
   * kept; otherwise its callback becomes the fan-out over the emitter's targets.
   */
  function Distribute(em: Emitter, source: EmitterId, n: Notification): (r: Notification)
  {
    if em.podiums == [] then n
    else Notification(n.id, n.event, n.data, Fanout(source, n.event, n.data, n.callback))
  }

  /** The second half of `internals.emit`: unless busy or the queue is empty, swap the whole queue out as the batch. */
  function Pump(em: Emitter): (r: Emitter)
  {
    if em.processing || em.queue == [] then em
    else em.(processing := true, batch := em.queue, queue := [])
  }

  /** `emit(event, data, callback)` on `e`. */
  function Emit(w: World, e: EmitterId, name: EventName, data: Data, cb: Callback): (r: Result<World>)
    requires e in w.emitters
    ensures r.Ok? ==> r.value.emitters.Keys == w.emitters.Keys
    ensures r.Ok? ==> forall x :: x in w.emitters ==> r.value.emitters[x].podiums == w.emitters[x].podiums
  {
    var em := w.emitters[e];
    if name !in em.events then Err(UnknownEvent)
    else
      var n := Distribute(em, e, Notification(w.nextNote, name, data, cb));
      var em1 := em.(queue := em.queue + [n], issued := em.issued + [n.id]);
      Ok(w.(emitters := w.emitters[e := Pump(em1)], nextNote := w.nextNote + 1))
  }

  /** `Items.parallel(targets, (podium, next) => podium.emit(event, data, next), ...)`: one emit per target, in order. */
  function EmitAll(w: World, targets: seq<EmitterId>, name: EventName, data: Data, cb: Callback): (r: Result<World>)
    requires AllIn(targets, w.emitters)
    ensures r.Ok? ==> r.value.emitters.Keys == w.emitters.Keys
    ensures r.Ok? ==> forall x :: x in w.emitters ==> r.value.emitters[x].podiums == w.emitters[x].podiums
    decreases |targets|
  {
    if targets == [] then Ok(w)
    else
      match Emit(w, targets[0], name, data, cb)
      case Err(x) => Err(x)
      case Ok(w1) => EmitAll(w1, targets[1..], name, data, cb)
  }

  lemma LinkedFrame(w: World, w': World)
    requires Linked(w) && w'.emitters.Keys == w.emitters.Keys
    requires forall x :: x in w.emitters ==> w'.emitters[x].podiums == w.emitters[x].podiums
    ensures Linked(w')
  {
    forall e, p | e in w'.emitters && p in w'.emitters[e].podiums
      ensures p in w'.emitters
    {
      assert p in w.emitters[e].podiums;
    }
  }

  lemma JoinsShrink(joins: map<JoinId, Join>, j: JoinId)
    requires j in joins
    ensures |joins - {j}| < |joins|
  {
    assert (joins - {j}).Keys == joins.Keys - {j};
    assert |joins.Keys - {j}| == |joins.Keys| - 1;
  }

  /** A fan-out over non-empty targets: a fresh join counting them, then one emit per target that reports to the join. */
  function Spread(w: World, targets: seq<EmitterId>, name: EventName, data: Data, fin: Callback): (r: Result<World>)
    requires AllIn(targets, w.emitters)
    ensures r.Ok? ==> r.value.emitters.Keys == w.emitters.Keys
    ensures r.Ok? ==> forall x :: x in w.emitters ==> r.value.emitters[x].podiums == w.emitters[x].podiums
  {
    var j := w.nextJoin;
    EmitAll(w.(joins := w.joins[j := Join(|targets|, fin)], nextJoin := j + 1), targets, name, data, JoinNext(j))
  }

  /**
   * Runs a completion callback. A fan-out reads the source's link targets when
   * it runs (`emitter._podiums.slice()`), emits the original event and data on
   * each, and calls the original callback once all of them have completed (at
   * once when there are none). A failed emit on a target is a crash.
   */
  function Invoke(w: World, cb: Callback): (r: Result<World>)
    requires Linked(w)
    ensures r.Ok? ==> r.value.emitters.Keys == w.emitters.Keys
    ensures r.Ok? ==> forall x :: x in w.emitters ==> r.value.emitters[x].podiums == w.emitters[x].podiums
    decreases |w.joins|, cb
  {
    match cb
    case Ignore => Ok(w)
    case User(id) => Ok(w.(calls := w.calls + [id]))
    case Fanout(src, name, data, fin) =>
      var targets := if src in w.emitters then w.emitters[src].podiums else [];
      if targets == [] then Invoke(w, fin) else Spread(w, targets, name, data, fin)
    case JoinNext(j) =>
      if j !in w.joins then Ok(w)
      else if w.joins[j].remaining > 1 then
        Ok(w.(joins := w.joins[j := w.joins[j].(remaining := w.joins[j].remaining - 1)]))
      else
        JoinsShrink(w.joins, j);
        Invoke(w.(joins := w.joins - {j}), w.joins[j].finalize)
  }

  /** `item.callback(); return next();`: the head of the batch is done; record it, drop it, run its callback. */
  function Complete(w: World, e: EmitterId): (r: Result<World>)
    requires e in w.emitters && |w.emitters[e].batch| > 0 && Linked(w)
    ensures r.Ok? ==> r.value.emitters.Keys == w.emitters.Keys
  {
    var em := w.emitters[e];
    var n := em.batch[0];
    var w1 := w.(emitters := w.emitters[e := em.(batch := em.batch[1..], cycle := None, completed := em.completed + [n.id])]);
    LinkedFrame(w, w1);
    Invoke(w1, n.callback)
  }

  /** The parallel dispatch's final callback fires once every snapshot entry has been handed the item and has finished. */
  function MaybeComplete(w: World, e: EmitterId): (r: Result<World>)
    requires e in w.emitters && w.emitters[e].cycle.Some? && |w.emitters[e].batch| > 0 && Linked(w)
  {
    var c := w.emitters[e].cycle.value;
    if c.next == |c.snapshot| && c.finished >= |c.snapshot| then Complete(w, e) else Ok(w)
  }

  predicate CanBegin(w: World, e: EmitterId) {
    && e in w.emitters && Linked(w)
    && var em := w.emitters[e];
    && em.processing && |em.batch| > 0 && em.cycle.None? && em.batch[0].event in em.events
  }

  /** `each(item, next)`: without subscribers the item completes at once; otherwise a cycle starts over a snapshot of the list. */
  function Begin(w: World, e: EmitterId): (r: Result<World>)
    requires CanBegin(w, e)
  {
    var em := w.emitters[e];
    var en := em.events[em.batch[0].event];
    if |Subscribers(en)| == 0 then Complete(w, e)
    else
      var c := Cycle(em.cycles, Subscribers(en), 0, 0, map[]);
      Ok(w.(emitters := w.emitters[e := em.(cycle := Some(c), cycles := em.cycles + 1)]))
  }

  predicate CanDeliver(w: World, e: EmitterId) {
    && e in w.emitters && Linked(w)
    && var em := w.emitters[e];
    && em.cycle.Some? && |em.batch| > 0 && em.batch[0].event in em.events
    && em.cycle.value.next < |em.cycle.value.snapshot|
    && em.cycle.value.snapshot[em.cycle.value.next] in w.subs
  }

  /** The subscription after one dispatch: a truthy count is decremented; every dispatch is counted. */
  function Fired(s: Sub): (r: Sub)
  {
    if s.count > 0 then s.(count := s.count - 1, fired := s.fired + 1) else s.(fired := s.fired + 1)
  }

  /**
   * `eachHandler` for the next snapshot entry: decrement its count and take it
   * off the live list when the count drops below 1, decide between a clone and
   * the shared data, call the listener, and count it finished unless it blocks;
   * the item completes if that was its last subscriber to finish.
   */
  function Deliver(w: World, e: EmitterId): (r: Result<World>)
    requires CanDeliver(w, e)
  {
    var w1 := Handed(w, e);
    LinkedFrame(w, w1);
    MaybeComplete(w1, e)
  }

  /** The world right after `eachHandler` has called the listener, before any completion. */
  function Handed(w: World, e: EmitterId): (r: World)
    requires CanDeliver(w, e)
    ensures r.emitters.Keys == w.emitters.Keys && r.emitters[e].cycle.Some? && |r.emitters[e].batch| > 0
    ensures forall x :: x in w.emitters ==> r.emitters[x].podiums == w.emitters[x].podiums
  {
    var em := w.emitters[e];
    var c := em.cycle.value;
    var n := em.batch[0];
    var id := c.snapshot[c.next];
    var s := w.subs[id];
    var events := if s.count == 1 then em.events[n.event := RemoveHandler(em.events[n.event], id)] else em.events;
    var cloned := s.clone || em.events[n.event].flags.clone;
    var c1 :=
      if s.block.Blocks() then c.(next := c.next + 1, waiting := c.waiting[id := if s.block.Forever? then Repeating else OneShot(false)])
      else c.(next := c.next + 1, finished := c.finished + 1);
    w.(emitters := w.emitters[e := em.(events := events, cycle := Some(c1))],
       subs := w.subs[id := Fired(s)],
       deliveries := w.deliveries + [Delivery(e, id, s.listener, n.event, n.data, cloned)])
  }

  /** `Handed` spelled out field by field. */
  lemma HandedParts(w: World, e: EmitterId)
    requires CanDeliver(w, e)
    ensures var em := w.emitters[e]; var c := em.cycle.value; var n := em.batch[0];
      var id := c.snapshot[c.next]; var s := w.subs[id];
      && Handed(w, e).subs == w.subs[id := Fired(s)]
      && Handed(w, e).deliveries == w.deliveries + [Delivery(e, id, s.listener, n.event, n.data, s.clone || em.events[n.event].flags.clone)]
      && Handed(w, e).emitters[e].cycle == Some(
           if s.block.Blocks() then c.(next := c.next + 1, waiting := c.waiting[id := if s.block.Forever? then Repeating else OneShot(false)])
           else c.(next := c.next + 1, finished := c.finished + 1))
      && Handed(w, e).emitters[e].events == (if s.count == 1 then em.events[n.event := RemoveHandler(em.events[n.event], id)] else em.events)
      && Handed(w, e).emitters == w.emitters[e := em.(events := Handed(w, e).emitters[e].events, cycle := Handed(w, e).emitters[e].cycle)]
      && Handed(w, e) == w.(emitters := Handed(w, e).emitters, subs := Handed(w, e).subs, deliveries := Handed(w, e).deliveries)
  {
  }

  predicate CanFinish(w: World, e: EmitterId) {
    e in w.emitters && Linked(w) && (w.emitters[e].cycle.Some? ==> |w.emitters[e].batch| > 0)
  }

  /**
   * A blocking handler of cycle `serial` calls its `next`, or the timer of a
   * numeric `block` fires. A numeric block's `next` is once-guarded, `true`'s is
   * not; a call for a cycle that is over changes nothing.
   */
  function Finish(w: World, e: EmitterId, serial: nat, id: SubId): (r: Result<World>)
    requires CanFinish(w, e)
  {
    var em := w.emitters[e];
    if em.cycle.None? || em.cycle.value.serial != serial || id !in em.cycle.value.waiting then Ok(w)
    else
      var c := em.cycle.value;
      match c.waiting[id]
      case OneShot(used) =>
        if used then Ok(w) else Recount(w, e, c.(finished := c.finished + 1, waiting := c.waiting[id := OneShot(true)]))
      case Repeating =>
        Recount(w, e, c.(finished := c.finished + 1))
  }

  /** Installs the updated cycle of `e`, then completes the item if every handler has finished. */
  function Recount(w: World, e: EmitterId, c: Cycle): (r: Result<World>)
    requires e in w.emitters && |w.emitters[e].batch| > 0 && Linked(w)
  {
    var w1 := w.(emitters := w.emitters[e := w.emitters[e].(cycle := Some(c))]);
    LinkedFrame(w, w1);
    MaybeComplete(w1, e)
  }

  predicate CanSettle(w: World, e: EmitterId) {
    e in w.emitters && w.emitters[e].processing && w.emitters[e].batch == [] && w.emitters[e].cycle.None?
  }

  /** The serial drain's final callback: `_eventsProcessing = false`, then `internals.emit(emitter)` again. */
  function Settle(w: World, e: EmitterId): (r: World)
    requires CanSettle(w, e)
  {
    w.(emitters := w.emitters[e := Pump(w.emitters[e].(processing := false))])
  }
}
