/**
 * No emitter lists the same link target twice: `registerPodium` appends a
 * target to a source's `_podiums` only after `indexOf` has not found it, and
 * nothing else touches `_podiums`. So a fan-out emits exactly once on each
 * target.
 */
module LinkFacts {
  import opened Basics
  import opened State
  import opened Listeners
  import opened Registry
  import opened Dispatch
  import opened Invariants
  import opened Steps
  import opened StepFacts

  /** The same emitters with the same link targets. */
  predicate SameLinks(w: World, w': World) {
    w'.emitters.Keys == w.emitters.Keys && forall x :: x in w.emitters ==> w'.emitters[x].podiums == w.emitters[x].podiums
  }

  lemma SameLinksDistinct(w: World, w': World)
    requires DistinctLinks(w.emitters) && SameLinks(w, w')
    ensures DistinctLinks(w'.emitters)
  {
    forall x | x in w'.emitters
      ensures Distinct(w'.emitters[x].podiums)
    {
      assert w'.emitters[x].podiums == w.emitters[x].podiums;
    }
  }

  /* ---------- registration ---------- */

  /** `registerPodium` for one source appends `t` only where it is not listed yet. */
  lemma LinkOneDistinct(w: World, t: EmitterId, src: EmitterId)
    requires t in w.emitters && src in w.emitters && DistinctLinks(w.emitters)
    ensures DistinctLinks(LinkOne(w, t, src).emitters)
  {
    var s := w.emitters[src];
    if t !in s.podiums {
      var r := LinkOne(w, t, src);
      var ps := s.podiums + [t];
      assert r.emitters[src].podiums == ps;
      forall i, k | 0 <= i < k < |ps|
        ensures ps[i] != ps[k]
      {
        if k == |ps| - 1 {
          assert ps[i] == s.podiums[i];
        } else {
          assert ps[i] == s.podiums[i] && ps[k] == s.podiums[k];
        }
      }
      forall x | x in r.emitters
        ensures Distinct(r.emitters[x].podiums)
      {
        if x != src {
          assert r.emitters[x].podiums == w.emitters[x].podiums;
        }
      }
    }
  }

  lemma {:induction false} RegisterPodiumDistinct(w: World, t: EmitterId, sources: seq<EmitterId>)
    requires t in w.emitters && AllIn(sources, w.emitters) && DistinctLinks(w.emitters)
    ensures DistinctLinks(RegisterPodium(w, t, sources).emitters)
  {
    if sources != [] {
      var front := sources[..|sources| - 1];
      RegisterPodiumDistinct(w, t, front);
      var w0 := RegisterPodium(w, t, front);
      LinkOneDistinct(w0, t, sources[|sources| - 1]);
    }
  }

  lemma RegisterOneDistinct(w: World, e: EmitterId, spec: EventSpec)
    requires e in w.emitters && Linked(w) && DistinctLinks(w.emitters)
    requires spec.Link? ==> spec.source in w.emitters
    requires RegisterOne(w, e, spec).Ok?
    ensures DistinctLinks(RegisterOne(w, e, spec).value.emitters)
  {
    var r := RegisterOne(w, e, spec).value;
    if spec.Link? {
      RegisterPodiumDistinct(w, e, [spec.source]);
    } else {
      assert SameLinks(w, r) by {
        if r != w {
          assert Grows(w.emitters, r.emitters);
          forall x | x in w.emitters
            ensures r.emitters[x].podiums == w.emitters[x].podiums
          {
            assert GrowsAt(w.emitters[x], r.emitters[x]);
          }
        }
      }
      SameLinksDistinct(w, r);
    }
  }

  lemma {:induction false} RegisterEventsDistinct(w: World, e: EmitterId, specs: seq<EventSpec>)
    requires e in w.emitters && Linked(w) && SourcesIn(specs, w) && DistinctLinks(w.emitters)
    ensures DistinctLinks(RegisterEvents(w, e, specs).world.emitters)
  {
    if specs != [] {
      var front := specs[..|specs| - 1];
      assert SourcesIn(front, w);
      RegisterEventsDistinct(w, e, front);
      var o := RegisterEvents(w, e, front);
      if o.error.None? && RegisterOne(o.world, e, specs[|specs| - 1]).Ok? {
        RegisterOneDistinct(o.world, e, specs[|specs| - 1]);
      }
    }
  }

  lemma CreateDistinct(w: World, specs: seq<EventSpec>)
    requires Linked(w) && SourcesIn(specs, w) && DistinctLinks(w.emitters)
    ensures DistinctLinks(Create(w, specs).1.world.emitters)
  {
    var id := w.nextEmitter;
    var w0 := w.(emitters := w.emitters[id := NewEmitter()], nextEmitter := id + 1);
    assert Create(w, specs).1 == RegisterEvents(w0, id, specs);
    assert Linked(w0) by {
      forall x, p | x in w0.emitters && p in w0.emitters[x].podiums
        ensures p in w0.emitters
      {
        assert x in w.emitters;
      }
    }
    assert SourcesIn(specs, w0);
    RegisterEventsDistinct(w0, id, specs);
  }

  /* ---------- subscriptions and dispatch ---------- */

  lemma CompleteLinks(w: World, e: EmitterId)
    requires e in w.emitters && |w.emitters[e].batch| > 0 && Linked(w) && Complete(w, e).Ok?
    ensures SameLinks(w, Complete(w, e).value)
  {
  }

  lemma MaybeCompleteLinks(w: World, e: EmitterId)
    requires e in w.emitters && w.emitters[e].cycle.Some? && |w.emitters[e].batch| > 0 && Linked(w)
    requires MaybeComplete(w, e).Ok?
    ensures SameLinks(w, MaybeComplete(w, e).value)
  {
    var c := w.emitters[e].cycle.value;
    if c.next == |c.snapshot| && c.finished >= |c.snapshot| {
      CompleteLinks(w, e);
    }
  }

  lemma RecountLinks(w: World, e: EmitterId, c: Cycle)
    requires e in w.emitters && |w.emitters[e].batch| > 0 && Linked(w) && Recount(w, e, c).Ok?
    ensures SameLinks(w, Recount(w, e, c).value)
  {
    var w1 := w.(emitters := w.emitters[e := w.emitters[e].(cycle := Some(c))]);
    LinkedFrame(w, w1);
    MaybeCompleteLinks(w1, e);
  }

  lemma BeginLinks(w: World, e: EmitterId)
    requires Enabled(w, BeginItem(e))
    ensures SameLinks(w, Next(w, BeginItem(e)).world)
  {
    var em := w.emitters[e];
    if |Subscribers(em.events[em.batch[0].event])| == 0 && Begin(w, e).Ok? {
      CompleteLinks(w, e);
    }
  }

  lemma DeliverLinks(w: World, e: EmitterId)
    requires Enabled(w, DeliverNext(e))
    ensures SameLinks(w, Next(w, DeliverNext(e)).world)
  {
    if Deliver(w, e).Ok? {
      var h := Handed(w, e);
      LinkedFrame(w, h);
      MaybeCompleteLinks(h, e);
    }
  }

  lemma FinishLinks(w: World, e: EmitterId, serial: nat, id: SubId)
    requires Enabled(w, FinishHandler(e, serial, id))
    ensures SameLinks(w, Next(w, FinishHandler(e, serial, id)).world)
  {
    var em := w.emitters[e];
    if Finish(w, e, serial, id).Ok? && em.cycle.Some? && em.cycle.value.serial == serial
      && id in em.cycle.value.waiting && em.cycle.value.waiting[id] != OneShot(true)
    {
      var c := em.cycle.value;
      var c' := if c.waiting[id].Repeating? then c.(finished := c.finished + 1)
        else c.(finished := c.finished + 1, waiting := c.waiting[id := OneShot(true)]);
      assert Finish(w, e, serial, id) == Recount(w, e, c');
      RecountLinks(w, e, c');
    }
  }

  /** A subscription change touches one emitter's table only. */
  lemma TableOnlyLinks(w: World, e: EmitterId, events: map<EventName, Entry>, w': World)
    requires e in w.emitters && w'.emitters == w.emitters[e := w.emitters[e].(events := events)]
    ensures SameLinks(w, w')
  {
  }

  lemma ListenerStepLinks(w: World, s: Step)
    requires Enabled(w, s) && Subscribes(s)
    ensures SameLinks(w, Next(w, s).world)
  {
    var r := Next(w, s).world;
    match s
    case Subscribe(e, name, o) =>
      if On(w, e, name, o).Ok? { TableOnlyLinks(w, e, r.emitters[e].events, r); }
    case SubscribeOnce(e, name, o) =>
      if Once(w, e, name, o).Ok? { TableOnlyLinks(w, e, r.emitters[e].events, r); }
    case Unsubscribe(e, name, l) =>
      if RemoveListener(w, e, name, l).Ok? { TableOnlyLinks(w, e, r.emitters[e].events, r); }
    case UnsubscribeAll(e, name) =>
      if RemoveAllListeners(w, e, name).Ok? { TableOnlyLinks(w, e, r.emitters[e].events, r); }
  }

  /** Only registration steps change link targets. */
  lemma OtherStepLinks(w: World, s: Step)
    requires Enabled(w, s) && !Registers(s)
    ensures SameLinks(w, Next(w, s).world)
  {
    if Subscribes(s) {
      ListenerStepLinks(w, s);
    } else {
      match s
      case BeginItem(e) => BeginLinks(w, e);
      case DeliverNext(e) => DeliverLinks(w, e);
      case FinishHandler(e, serial, id) => FinishLinks(w, e, serial, id);
      case Publish(_, _, _, _) =>
      case SettleBatch(_) =>
    }
  }

  /** Every step keeps each emitter's link targets free of repeats. */
  lemma NextLinksDistinct(w: World, s: Step)
    requires Inv(w) && DistinctLinks(w.emitters) && Enabled(w, s)
    ensures DistinctLinks(Next(w, s).world.emitters)
  {
    match s
    case New(specs) => CreateDistinct(w, specs);
    case RegisterEvent(e, specs) => RegisterEventsDistinct(w, e, specs);
    case RegisterPodiums(e, sources) => RegisterPodiumDistinct(w, e, sources);
    case _ =>
      OtherStepLinks(w, s);
      SameLinksDistinct(w, Next(w, s).world);
  }

  /** Any schedule keeps the invariant and keeps every emitter's link targets free of repeats. */
  lemma {:induction false} RunLinksDistinct(w: World, steps: seq<Step>)
    requires Inv(w) && DistinctLinks(w.emitters)
    ensures Inv(Run(w, steps)) && DistinctLinks(Run(w, steps).emitters)
  {
    if steps != [] {
      var w0 := Run(w, steps[..|steps| - 1]);
      var s := steps[|steps| - 1];
      RunLinksDistinct(w, steps[..|steps| - 1]);
      if Enabled(w0, s) {
        NextInv(w0, s);
        NextLinksDistinct(w0, s);
      }
    }
  }

  /**
   * From no emitters at all, every schedule reaches a world where each
   * emitter's link targets are free of repeats, so a fan-out from any source
   * reaches each target once.
   */
  lemma LinksFromScratch(steps: seq<Step>)
    ensures Inv(Run(NoEmitters, steps)) && DistinctLinks(Run(NoEmitters, steps).emitters)
  {
    RunLinksDistinct(NoEmitters, steps);
  }
}
