/**
 * The library as it runs: one mutable object holding every emitter's fields
 * (`_eventListeners`, `_notificationsQueue`, `_eventsProcessing`, `_podiums`),
 * the subscription objects the cycle updates in place, the pending parallel
 * emits over link targets, and the trace of handler calls. Each method does
 * what the library's function does, loop for loop, and is proved to leave the
 * state the value model prescribes.
 */
module Hubs {
  import opened Basics
  import opened State
  import opened Listeners
  import opened Registry
  import opened Dispatch
  import opened ListenersFacts
  import opened RegistryFacts
  import opened Steps

  /** `array.indexOf(x)`: the first position of `x`, or -1. */
  method IndexOf(xs: seq<EmitterId>, x: EmitterId) returns (i: int)
    ensures -1 <= i < |xs|
    ensures i == -1 <==> x !in xs
    ensures 0 <= i ==> xs[i] == x && x !in xs[..i]
  {
    i := 0;
    while i < |xs|
      invariant 0 <= i <= |xs|
      invariant x !in xs[..i]
    {
      if xs[i] == x {
        return;
      }
      assert xs[..i + 1] == xs[..i] + [xs[i]];
      i := i + 1;
    }
    assert xs[..i] == xs;
    i := -1;
  }

  /** The state after a call agrees with the model's result: the same world when it succeeds, the same error when it throws. */
  predicate Agrees(w: World, err: Option<Error>, r: Result<World>) {
    match r
    case Ok(v) => err.None? && w == v
    case Err(x) => err == Some(x)
  }

  class Hub {
    var emitters: map<EmitterId, Emitter>
    var subs: map<SubId, Sub>
    var joins: map<JoinId, Join>
    var nextEmitter: nat
    var nextSub: nat
    var nextNote: nat
    var nextJoin: nat
    var deliveries: seq<Delivery>
    var calls: seq<nat>

    /** The state as a value of the model. */
    function Current(): World
      reads this
    {
      World(emitters, subs, joins, nextEmitter, nextSub, nextNote, nextJoin, deliveries, calls)
    }

    constructor ()
      ensures Current() == NoEmitters
    {
      emitters := map[];
      subs := map[];
      joins := map[];
      nextEmitter := 0;
      nextSub := 0;
      nextNote := 0;
      nextJoin := 0;
      deliveries := [];
      calls := [];
    }

    /* ---------- registry and links ---------- */

    /** `new Podium(events)`: a fresh emitter with empty fields, then `registerEvent(events)` on it. */
    method NewPodium(specs: seq<EventSpec>) returns (id: EmitterId, err: Option<Error>)
      requires Linked(Current()) && SourcesIn(specs, Current())
      modifies this
      ensures (id, Outcome(Current(), err)) == Create(old(Current()), specs)
    {
      id := nextEmitter;
      emitters := emitters[id := NewEmitter()];
      nextEmitter := nextEmitter + 1;
      assert Linked(Current()) by {
        forall x, p | x in emitters && p in emitters[x].podiums
          ensures p in emitters
        {
          assert x != id && x in old(emitters);
        }
      }
      err := RegisterEvent(id, specs);
    }

    /** `registerEvent(events)`: each entry in turn; the first that throws ends the call and keeps what came before. */
    method RegisterEvent(e: EmitterId, specs: seq<EventSpec>) returns (err: Option<Error>)
      requires e in emitters && Linked(Current()) && SourcesIn(specs, Current())
      modifies this
      ensures Outcome(Current(), err) == RegisterEvents(old(Current()), e, specs)
    {
      ghost var w0 := Current();
      err := None;
      var i := 0;
      while i < |specs|
        invariant 0 <= i <= |specs|
        invariant emitters.Keys == w0.emitters.Keys && Linked(Current())
        invariant err.None? && Outcome(Current(), None) == RegisterEvents(w0, e, specs[..i])
      {
        RegisterEventsNext(w0, e, specs, i);
        err := RegisterEntry(e, specs[i]);
        if err.Some? {
          RegisterEventsStops(w0, e, specs, i + 1);
          return;
        }
        i := i + 1;
      }
      assert specs[..i] == specs;
    }

    /** One entry of `registerEvent`: skip a falsy one, link an emitter, otherwise register a name. */
    method RegisterEntry(e: EmitterId, spec: EventSpec) returns (err: Option<Error>)
      requires e in emitters && Linked(Current()) && (spec.Link? ==> spec.source in emitters)
      modifies this
      ensures Outcome(Current(), err) == Lift(old(Current()), RegisterOne(old(Current()), e, spec))
    {
      match spec
      case Falsy =>
        err := None;
      case Link(src) =>
        RegisterPodium(e, [src]);
        err := None;
      case Name(n) =>
        if n == "" {
          err := None;
        } else {
          err := AddEvent(e, n, Flags(false));
        }
      case Config(n, c) =>
        if n == "" {
          err := Some(MissingEventName);
        } else {
          err := AddEvent(e, n, Flags(c));
        }
    }

    /** Registers one new name on `e`, then installs it on each link target that lacks it. */
    method AddEvent(e: EmitterId, name: EventName, flags: Flags) returns (err: Option<Error>)
      requires e in emitters && AllIn(emitters[e].podiums, emitters)
      modifies this
      ensures Outcome(Current(), err) == Lift(old(Current()), Define(old(Current()), e, name, flags))
    {
      if name in emitters[e].events {
        return Some(DuplicateEvent);
      }
      var em := emitters[e];
      emitters := emitters[e := em.(events := em.events[name := Entry(None, flags)])];
      ghost var m := emitters;
      var targets := em.podiums;
      var j := 0;
      while j < |targets|
        invariant 0 <= j <= |targets| && AllIn(targets, m)
        invariant emitters == Install(m, targets[..j], name, flags)
        invariant Current() == old(Current()).(emitters := emitters)
      {
        assert targets[..j + 1][..j] == targets[..j];
        var t := targets[j];
        if name !in emitters[t].events {
          emitters := emitters[t := emitters[t].(events := emitters[t].events[name := Entry(None, flags)])];
        }
        j := j + 1;
      }
      assert targets[..j] == targets;
      err := None;
    }

    /** `registerPodium(podiums)` on `t`: each source in turn. */
    method RegisterPodium(t: EmitterId, sources: seq<EmitterId>)
      requires t in emitters && AllIn(sources, emitters)
      modifies this
      ensures Current() == Registry.RegisterPodium(old(Current()), t, sources)
    {
      ghost var w0 := Current();
      var i := 0;
      while i < |sources|
        invariant 0 <= i <= |sources|
        invariant emitters.Keys == w0.emitters.Keys
        invariant Current() == Registry.RegisterPodium(w0, t, sources[..i])
      {
        assert sources[..i + 1][..i] == sources[..i];
        Link(t, sources[i]);
        i := i + 1;
      }
      assert sources[..i] == sources;
    }

    /** One source of `registerPodium`: unless `t` is already a target, push it and copy the names `t` lacks. */
    method Link(t: EmitterId, src: EmitterId)
      requires t in emitters && src in emitters
      modifies this
      ensures Current() == LinkOne(old(Current()), t, src)
    {
      var s := emitters[src];
      var at := IndexOf(s.podiums, t);
      if at != -1 {
        return;
      }
      emitters := emitters[src := s.(podiums := s.podiums + [t])];
      var mine := emitters[t].events;
      var events := mine;
      var keys := s.events.Keys;
      while keys != {}
        invariant keys <= s.events.Keys
        invariant forall n :: n in events <==> n in mine || (n in s.events && n !in keys)
        invariant forall n :: n in events ==> events[n] == if n in mine then mine[n] else Entry(None, s.events[n].flags)
        decreases keys
      {
        var n :| n in keys;
        if n !in events {
          events := events[n := Entry(None, s.events[n].flags)];
        }
        keys := keys - {n};
      }
      assert events == Adopt(mine, s.events);
      emitters := emitters[t := emitters[t].(events := events)];
    }

    /* ---------- the subscription table ---------- */

    /** `on(event, options, listener)`: the checks in the library's order, then one subscription at the end of the list. */
    method On(e: EmitterId, name: EventName, o: Options) returns (err: Option<Error>)
      requires e in emitters
      modifies this
      ensures Outcome(Current(), err) == Lift(old(Current()), Listeners.On(old(Current()), e, name, o))
    {
      err := Check(emitters[e], name, o);
      if err.Some? {
        return;
      }
      var id := nextSub;
      var limit: nat := if o.count.Some? then o.count.value else 0;
      subs := subs[id := Sub(o.listener.value, limit, BlockOf(o.block), o.clone, e, name, limit, 0)];
      nextSub := nextSub + 1;
      var em := emitters[e];
      var en := em.events[name];
      var list := if en.subs.Some? then en.subs.value else [];
      emitters := emitters[e := em.(events := em.events[name := en.(subs := Some(list + [id]))])];
    }

    /** `once(event, options, listener)`: `on` with the count forced to one. */
    method Once(e: EmitterId, name: EventName, o: Options) returns (err: Option<Error>)
      requires e in emitters
      modifies this
      ensures Outcome(Current(), err) == Lift(old(Current()), Listeners.Once(old(Current()), e, name, o))
    {
      err := On(e, name, o.(count := Some(1)));
    }

    /** `removeListener(event, listener)`: filter the list by listener, `null` when nothing is left. */
    method RemoveListener(e: EmitterId, name: EventName, l: Option<ListenerId>) returns (err: Option<Error>)
      requires e in emitters
      modifies this
      ensures Outcome(Current(), err) == Lift(old(Current()), Listeners.RemoveListener(old(Current()), e, name, l))
    {
      var em := emitters[e];
      if name !in em.events {
        return Some(UnknownEvent);
      }
      if l.None? {
        return Some(InvalidListener);
      }
      var en := em.events[name];
      if en.subs.None? {
        return None;
      }
      var kept := Survivors(en.subs.value, l.value);
      emitters := emitters[e := em.(events := em.events[name := en.(subs := if |kept| > 0 then Some(kept) else None)])];
      err := None;
    }

    /** The `filter` of `removeListener`: the ids of the list whose subscription is not for listener `l`, in order. */
    method Survivors(ids: seq<SubId>, l: ListenerId) returns (kept: seq<SubId>)
      ensures kept == Keep(subs, ids, l)
    {
      kept := [];
      var i := 0;
      while i < |ids|
        invariant 0 <= i <= |ids|
        invariant kept == Keep(subs, ids[..i], l)
      {
        assert ids[..i + 1] == ids[..i] + [ids[i]];
        KeepAppend(subs, ids[..i], [ids[i]], l);
        KeepOne(subs, ids[i], l);
        if ids[i] !in subs || subs[ids[i]].listener != l {
          kept := kept + [ids[i]];
        }
        i := i + 1;
      }
      assert ids[..i] == ids;
    }

    /** `removeAllListeners(event)`. */
    method RemoveAllListeners(e: EmitterId, name: EventName) returns (err: Option<Error>)
      requires e in emitters
      modifies this
      ensures Outcome(Current(), err) == Lift(old(Current()), Listeners.RemoveAllListeners(old(Current()), e, name))
    {
      var em := emitters[e];
      if name !in em.events {
        return Some(UnknownEvent);
      }
      emitters := emitters[e := em.(events := em.events[name := em.events[name].(subs := None)])];
      err := None;
    }

    /** `hasListeners(event)`: changes nothing. */
    method HasListeners(e: EmitterId, name: EventName) returns (r: Result<bool>)
      requires e in emitters
      ensures name !in emitters[e].events <==> r == Err(UnknownEvent)
      ensures name in emitters[e].events && NullOrNonEmpty(emitters[e].events[name]) ==>
                r == Ok(|Subscribers(emitters[e].events[name])| > 0)
      ensures r == Listeners.HasListeners(Current(), e, name)
    {
      var em := emitters[e];
      if name !in em.events {
        return Err(UnknownEvent);
      }
      r := Ok(em.events[name].subs != None);
    }

    /**
     * `internals.removeHandler` with the null list read as empty: filter the
     * list by identity, `null` when nothing is left.
     */
    method RemoveHandler(e: EmitterId, name: EventName, id: SubId)
      requires e in emitters && name in emitters[e].events
      modifies this
      ensures Current() == old(Current()).(emitters := old(emitters)[e := old(emitters[e]).(events :=
                old(emitters[e].events)[name := Listeners.RemoveHandler(old(emitters[e].events[name]), id)])])
    {
      var em := emitters[e];
      var en := em.events[name];
      if en.subs.None? {
        assert em.events[name := en] == em.events;
        assert emitters[e := em.(events := em.events)] == emitters;
        return;
      }
      var ids := en.subs.value;
      var filtered: seq<SubId> := [];
      var i := 0;
      while i < |ids|
        invariant 0 <= i <= |ids|
        invariant filtered == Without(ids[..i], id)
        invariant Current() == old(Current())
      {
        assert ids[..i + 1] == ids[..i] + [ids[i]];
        WithoutAppend(ids[..i], [ids[i]], id);
        if ids[i] != id {
          filtered := filtered + [ids[i]];
        }
        i := i + 1;
      }
      assert ids[..i] == ids;
      emitters := emitters[e := em.(events := em.events[name := en.(subs := if |filtered| > 0 then Some(filtered) else None)])];
    }

    /* ---------- the queue and the dispatch cycle ---------- */

    /** `emit(event, data, callback)`: check the name, wrap the callback for link targets, queue, pump. */
    method Emit(e: EmitterId, name: EventName, data: Data, cb: Callback) returns (err: Option<Error>)
      requires e in emitters
      modifies this
      ensures Outcome(Current(), err) == Lift(old(Current()), Dispatch.Emit(old(Current()), e, name, data, cb))
    {
      var em := emitters[e];
      if name !in em.events {
        return Some(UnknownEvent);
      }
      var n := Notification(nextNote, name, data, cb);
      if em.podiums != [] {
        n := n.(callback := Fanout(e, name, data, cb));
      }
      assert n == Distribute(em, e, Notification(nextNote, name, data, cb));
      nextNote := nextNote + 1;
      var em1 := em.(queue := em.queue + [n], issued := em.issued + [n.id]);
      emitters := emitters[e := em1];
      Pump(e);
      assert emitters == old(emitters)[e := Dispatch.Pump(em1)];
      err := None;
    }

    /** The second half of `internals.emit`: unless busy or the queue is empty, swap the queue out as the batch. */
    method Pump(e: EmitterId)
      requires e in emitters
      modifies this
      ensures Current() == old(Current()).(emitters := old(emitters)[e := Dispatch.Pump(old(emitters[e]))])
    {
      var em := emitters[e];
      if em.processing || em.queue == [] {
        assert emitters[e := em] == emitters;
        return;
      }
      emitters := emitters[e := em.(processing := true, batch := em.queue, queue := [])];
    }

    /** `Items.parallel` over the link targets: `emit` on each in order; the first throw ends it. */
    method EmitAll(targets: seq<EmitterId>, name: EventName, data: Data, cb: Callback) returns (err: Option<Error>)
      requires AllIn(targets, emitters)
      modifies this
      ensures Agrees(Current(), err, Dispatch.EmitAll(old(Current()), targets, name, data, cb))
    {
      ghost var w0 := Current();
      err := None;
      var rest := targets;
      while rest != []
        invariant AllIn(rest, emitters) && err.None?
        invariant Dispatch.EmitAll(w0, targets, name, data, cb) == Dispatch.EmitAll(Current(), rest, name, data, cb)
        decreases |rest|
      {
        ghost var before := Current();
        err := Emit(rest[0], name, data, cb);
        if err.Some? {
          return;
        }
        assert AllIn(rest[1..], emitters) by {
          forall i | 0 <= i < |rest| - 1
            ensures rest[1..][i] in emitters
          {
            assert rest[i + 1] in before.emitters;
          }
        }
        rest := rest[1..];
      }
    }

    /** Runs a completion callback, as `Dispatch.Invoke` describes. */
    method Invoke(cb: Callback) returns (err: Option<Error>)
      requires Linked(Current())
      modifies this
      ensures Agrees(Current(), err, Dispatch.Invoke(old(Current()), cb))
      decreases |joins|, cb
    {
      match cb
      case Ignore =>
        err := None;
      case User(id) =>
        calls := calls + [id];
        err := None;
      case Fanout(src, name, data, fin) =>
        var targets := if src in emitters then emitters[src].podiums else [];
        if targets == [] {
          err := Invoke(fin);
        } else {
          err := Spread(targets, name, data, fin);
        }
      case JoinNext(j) =>
        if j !in joins {
          err := None;
        } else {
          var fin := Arrive(j);
          if fin.Some? {
            err := Invoke(fin.value);
          } else {
            err := None;
          }
        }
    }

    /** `emit` on every link target, joined by a counter that runs `fin` once every target's emit has completed. */
    method Spread(targets: seq<EmitterId>, name: EventName, data: Data, fin: Callback) returns (err: Option<Error>)
      requires AllIn(targets, emitters)
      modifies this
      ensures Agrees(Current(), err, Dispatch.Spread(old(Current()), targets, name, data, fin))
    {
      var j := nextJoin;
      joins := joins[j := Join(|targets|, fin)];
      nextJoin := j + 1;
      err := EmitAll(targets, name, data, JoinNext(j));
    }

    /** One emit of a join completes: count it, and hand back the join's callback when it was the last. */
    method Arrive(j: JoinId) returns (fin: Option<Callback>)
      requires j in joins
      modifies this
      ensures old(joins[j].remaining) > 1 ==>
        fin.None? && Current() == old(Current()).(joins := old(joins)[j := old(joins[j]).(remaining := old(joins[j].remaining) - 1)])
      ensures old(joins[j].remaining) <= 1 ==>
        fin == Some(old(joins[j].finalize)) && Current() == old(Current()).(joins := old(joins) - {j})
      ensures fin.Some? ==> |joins| < |old(joins)|
    {
      if joins[j].remaining > 1 {
        joins := joins[j := joins[j].(remaining := joins[j].remaining - 1)];
        fin := None;
      } else {
        fin := Some(joins[j].finalize);
        JoinsShrink(joins, j);
        joins := joins - {j};
      }
    }

    /** `item.callback(); return next();`: record the head of the batch as completed, drop it, run its callback. */
    method Complete(e: EmitterId) returns (err: Option<Error>)
      requires e in emitters && |emitters[e].batch| > 0 && Linked(Current())
      modifies this
      ensures Agrees(Current(), err, Dispatch.Complete(old(Current()), e))
    {
      var em := emitters[e];
      var n := em.batch[0];
      emitters := emitters[e := em.(batch := em.batch[1..], cycle := None, completed := em.completed + [n.id])];
      LinkedFrame(old(Current()), Current());
      err := Invoke(n.callback);
    }

    /** The parallel dispatch's final callback fires once every handler has been handed the item and has finished. */
    method MaybeComplete(e: EmitterId) returns (err: Option<Error>)
      requires e in emitters && emitters[e].cycle.Some? && |emitters[e].batch| > 0 && Linked(Current())
      modifies this
      ensures Agrees(Current(), err, Dispatch.MaybeComplete(old(Current()), e))
    {
      var c := emitters[e].cycle.value;
      if c.next == |c.snapshot| && c.finished >= |c.snapshot| {
        err := Complete(e);
      } else {
        err := None;
      }
    }

    /** `each(item, next)`: no subscribers completes the item at once; otherwise a cycle starts over a copy of the list. */
    method Begin(e: EmitterId) returns (err: Option<Error>)
      requires CanBegin(Current(), e)
      modifies this
      ensures Agrees(Current(), err, Dispatch.Begin(old(Current()), e))
    {
      var em := emitters[e];
      var en := em.events[em.batch[0].event];
      var handlers := if en.subs.Some? then en.subs.value else [];
      if |handlers| == 0 {
        err := Complete(e);
        return;
      }
      emitters := emitters[e := em.(cycle := Some(Cycle(em.cycles, handlers, 0, 0, map[])), cycles := em.cycles + 1)];
      err := None;
    }

    /**
     * `eachHandler` for the next handler of the snapshot; the item completes if
     * that handler was the last to finish.
     */
    method Deliver(e: EmitterId) returns (err: Option<Error>)
      requires CanDeliver(Current(), e)
      modifies this
      ensures Agrees(Current(), err, Dispatch.Deliver(old(Current()), e))
    {
      Hand(e);
      LinkedFrame(old(Current()), Current());
      err := MaybeComplete(e);
    }

    /**
     * Hands the item to the next handler of the snapshot: decrement a truthy
     * count and remove the handler when it drops below 1, pick clone or shared
     * data, call the listener, then count it finished unless it blocks.
     */
    method Hand(e: EmitterId)
      requires CanDeliver(Current(), e)
      modifies this
      ensures Current() == Handed(old(Current()), e)
    {
      ghost var h := Handed(Current(), e);
      HandedParts(Current(), e);
      var em := emitters[e];
      var c := em.cycle.value;
      var n := em.batch[0];
      var id := c.snapshot[c.next];
      var s := subs[id];
      var cloned := s.clone || em.events[n.event].flags.clone;
      Call(e, n.event, id, Delivery(e, id, s.listener, n.event, n.data, cloned));
      assert subs == h.subs && deliveries == h.deliveries;
      assert emitters[e].events == h.emitters[e].events;
      var c1 := c.(next := c.next + 1);
      if s.block.Blocks() {
        c1 := c1.(waiting := c.waiting[id := if s.block.Forever? then Repeating else OneShot(false)]);
      } else {
        c1 := c1.(finished := c.finished + 1);
      }
      assert Some(c1) == h.emitters[e].cycle;
      emitters := emitters[e := emitters[e].(cycle := Some(c1))];
      assert emitters == h.emitters;
    }

    /** The part of `eachHandler` before the handler is counted finished: spend the count, then call the listener. */
    method Call(e: EmitterId, name: EventName, id: SubId, d: Delivery)
      requires e in emitters && name in emitters[e].events && id in subs
      modifies this
      ensures var s := old(subs[id]);
        Current() == old(Current()).(
          subs := old(subs)[id := Fired(s)],
          deliveries := old(deliveries) + [d],
          emitters := if s.count == 1 then old(emitters)[e := old(emitters[e]).(events :=
                         old(emitters[e].events)[name := Listeners.RemoveHandler(old(emitters[e].events[name]), id)])]
                       else old(emitters))
    {
      var s := subs[id];
      Spend(e, name, id);
      subs := subs[id := subs[id].(fired := s.fired + 1)];
      deliveries := deliveries + [d];
    }

    /** `if (handler.count) { --handler.count; if (handler.count < 1) removeHandler(...) }` */
    method Spend(e: EmitterId, name: EventName, id: SubId)
      requires e in emitters && name in emitters[e].events && id in subs
      modifies this
      ensures var s := old(subs[id]);
        Current() == old(Current()).(
          subs := if s.count > 0 then old(subs)[id := s.(count := s.count - 1)] else old(subs),
          emitters := if s.count == 1 then old(emitters)[e := old(emitters[e]).(events :=
                         old(emitters[e].events)[name := Listeners.RemoveHandler(old(emitters[e].events[name]), id)])]
                       else old(emitters))
    {
      var s := subs[id];
      if s.count > 0 {
        subs := subs[id := s.(count := s.count - 1)];
        if s.count - 1 < 1 {
          RemoveHandler(e, name, id);
        }
      }
    }

    /** A blocking handler of cycle `serial` calls its `next`, or its timer fires. */
    method Finish(e: EmitterId, serial: nat, id: SubId) returns (err: Option<Error>)
      requires CanFinish(Current(), e)
      modifies this
      ensures Agrees(Current(), err, Dispatch.Finish(old(Current()), e, serial, id))
    {
      var em := emitters[e];
      if em.cycle.None? || em.cycle.value.serial != serial || id !in em.cycle.value.waiting {
        return None;
      }
      var c := em.cycle.value;
      match c.waiting[id]
      case OneShot(used) =>
        if used {
          return None;
        }
        err := Recount(e, c.(finished := c.finished + 1, waiting := c.waiting[id := OneShot(true)]));
      case Repeating =>
        err := Recount(e, c.(finished := c.finished + 1));
    }

    /** Installs the updated cycle of `e`, then completes the item if every handler has finished. */
    method Recount(e: EmitterId, c: Cycle) returns (err: Option<Error>)
      requires e in emitters && |emitters[e].batch| > 0 && Linked(Current())
      modifies this
      ensures Agrees(Current(), err, Dispatch.Recount(old(Current()), e, c))
    {
      emitters := emitters[e := emitters[e].(cycle := Some(c))];
      LinkedFrame(old(Current()), Current());
      err := MaybeComplete(e);
    }

    /** The serial drain's final callback: clear the flag and pump the queue again. */
    method Settle(e: EmitterId)
      requires CanSettle(Current(), e)
      modifies this
      ensures Current() == Dispatch.Settle(old(Current()), e)
    {
      emitters := emitters[e := emitters[e].(processing := false)];
      Pump(e);
    }
  }
}
