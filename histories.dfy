/**
 * How each operation moves the histories of a world: the ids issued and
 * completed by each emitter, the delivery trace, and the fire-counts of the
 * subscriptions.
 */
module Histories {
  import opened Basics
  import opened State
  import opened Listeners
  import opened Registry
  import opened Dispatch
  import opened DispatchFacts

  /** Emitters are never dropped; issued ids, completed ids and deliveries only grow at the end. */
  predicate Later(w: World, w': World) {
    w.emitters.Keys <= w'.emitters.Keys && w.deliveries <= w'.deliveries
    && forall x :: x in w.emitters ==>
         w.emitters[x].issued <= w'.emitters[x].issued && w.emitters[x].completed <= w'.emitters[x].completed
  }

  /** No emitter is dropped, and no emitter's issued ids, completed ids, batch or queue change. */
  predicate Settled(m: map<EmitterId, Emitter>, m': map<EmitterId, Emitter>) {
    m.Keys <= m'.Keys
    && forall x :: x in m ==> m'[x].issued == m[x].issued && m'[x].completed == m[x].completed
                              && m'[x].batch == m[x].batch && m'[x].queue == m[x].queue
  }

  lemma LaterTrans(a: World, b: World, c: World)
    requires Later(a, b) && Later(b, c)
    ensures Later(a, c)
  {
    forall x | x in a.emitters
      ensures a.emitters[x].issued <= c.emitters[x].issued && a.emitters[x].completed <= c.emitters[x].completed
    {
      assert a.emitters[x].issued <= b.emitters[x].issued && a.emitters[x].completed <= b.emitters[x].completed;
    }
  }

  lemma SettledTrans(a: map<EmitterId, Emitter>, b: map<EmitterId, Emitter>, c: map<EmitterId, Emitter>)
    requires Settled(a, b) && Settled(b, c)
    ensures Settled(a, c)
  {
    forall x | x in a
      ensures c[x].issued == a[x].issued && c[x].completed == a[x].completed
      ensures c[x].batch == a[x].batch && c[x].queue == a[x].queue
    {
      assert b[x].issued == a[x].issued && b[x].completed == a[x].completed;
      assert b[x].batch == a[x].batch && b[x].queue == a[x].queue;
    }
  }

  lemma SettledLater(w: World, w': World)
    requires Settled(w.emitters, w'.emitters) && w'.deliveries == w.deliveries
    ensures Later(w, w')
  {
    forall x | x in w.emitters
      ensures w.emitters[x].issued <= w'.emitters[x].issued && w.emitters[x].completed <= w'.emitters[x].completed
    {
      assert w'.emitters[x].issued == w.emitters[x].issued;
    }
  }

  lemma FramedLater(w: World, w': World)
    requires Framed(w, w')
    ensures Later(w, w')
  {
    forall x | x in w.emitters
      ensures w.emitters[x].issued <= w'.emitters[x].issued && w.emitters[x].completed <= w'.emitters[x].completed
    {
      assert Kept(w.emitters[x], w'.emitters[x]);
    }
  }

  /* ---------- registration: histories untouched ---------- */

  lemma GrowsSettled(m: map<EmitterId, Emitter>, m': map<EmitterId, Emitter>)
    requires Grows(m, m')
    ensures Settled(m, m')
  {
    forall x | x in m
      ensures m'[x].issued == m[x].issued && m'[x].completed == m[x].completed
      ensures m'[x].batch == m[x].batch && m'[x].queue == m[x].queue
    {
      assert GrowsAt(m[x], m'[x]);
    }
  }

  lemma LinkOneSettled(w: World, t: EmitterId, src: EmitterId)
    requires t in w.emitters && src in w.emitters
    ensures Settled(w.emitters, LinkOne(w, t, src).emitters)
    ensures LinkOne(w, t, src) == w.(emitters := LinkOne(w, t, src).emitters)
  {
    var r := LinkOne(w, t, src);
    forall x | x in w.emitters
      ensures r.emitters[x] == w.emitters[x].(podiums := r.emitters[x].podiums, events := r.emitters[x].events)
    {
    }
  }

  lemma {:induction false} RegisterPodiumSettled(w: World, t: EmitterId, sources: seq<EmitterId>)
    requires t in w.emitters && AllIn(sources, w.emitters)
    ensures Settled(w.emitters, RegisterPodium(w, t, sources).emitters)
  {
    if sources != [] {
      var front := sources[..|sources| - 1];
      var w0 := RegisterPodium(w, t, front);
      RegisterPodiumSettled(w, t, front);
      LinkOneSettled(w0, t, sources[|sources| - 1]);
      SettledTrans(w.emitters, w0.emitters, RegisterPodium(w, t, sources).emitters);
    }
  }

  lemma RegisterOneSettled(w: World, e: EmitterId, spec: EventSpec)
    requires e in w.emitters && Linked(w)
    requires spec.Link? ==> spec.source in w.emitters
    requires RegisterOne(w, e, spec).Ok?
    ensures Settled(w.emitters, RegisterOne(w, e, spec).value.emitters)
  {
    match spec
    case Falsy =>
    case Link(src) => RegisterPodiumSettled(w, e, [src]);
    case Name(n) =>
      if n != "" {
        GrowsSettled(w.emitters, Define(w, e, n, Flags(false)).value.emitters);
      }
    case Config(n, c) =>
      GrowsSettled(w.emitters, Define(w, e, n, Flags(c)).value.emitters);
  }

  lemma {:induction false} RegisterEventsSettled(w: World, e: EmitterId, specs: seq<EventSpec>)
    requires e in w.emitters && Linked(w) && SourcesIn(specs, w)
    ensures Settled(w.emitters, RegisterEvents(w, e, specs).world.emitters)
  {
    if specs != [] {
      var front := specs[..|specs| - 1];
      assert SourcesIn(front, w);
      RegisterEventsSettled(w, e, front);
      var o := RegisterEvents(w, e, front);
      if o.error.None? {
        var last := specs[|specs| - 1];
        if RegisterOne(o.world, e, last).Ok? {
          RegisterOneSettled(o.world, e, last);
          SettledTrans(w.emitters, o.world.emitters, RegisterOne(o.world, e, last).value.emitters);
        }
      }
    }
  }

  /** The constructor adds an emitter and changes no existing emitter's history. */
  lemma CreateLater(w: World, specs: seq<EventSpec>)
    requires Linked(w) && SourcesIn(specs, w) && w.nextEmitter !in w.emitters
    ensures Later(w, Create(w, specs).1.world)
  {
    var id := w.nextEmitter;
    var w0 := w.(emitters := w.emitters[id := NewEmitter()], nextEmitter := id + 1);
    assert Create(w, specs).1 == RegisterEvents(w0, id, specs);
    assert Linked(w0) by {
      forall x, p | x in w0.emitters && p in w0.emitters[x].podiums
        ensures p in w0.emitters
      {
        assert x in w.emitters;
      }
    }
    assert SourcesIn(specs, w0);
    RegisterEventsSettled(w0, id, specs);
    assert Settled(w.emitters, w0.emitters);
    SettledTrans(w.emitters, w0.emitters, RegisterEvents(w0, id, specs).world.emitters);
    SettledLater(w, RegisterEvents(w0, id, specs).world);
  }

  /* ---------- the dispatch cycle ---------- */

  lemma CompleteLater(w: World, e: EmitterId)
    requires e in w.emitters && |w.emitters[e].batch| > 0 && Linked(w)
    requires Complete(w, e).Ok?
    ensures Later(w, Complete(w, e).value)
  {
    var em := w.emitters[e];
    var w1 := w.(emitters := w.emitters[e := em.(batch := em.batch[1..], cycle := None, completed := em.completed + [em.batch[0].id])]);
    LinkedFrame(w, w1);
    InvokeFramed(w1, em.batch[0].callback);
    FramedLater(w1, Complete(w, e).value);
    LaterTrans(w, w1, Complete(w, e).value);
  }

  lemma MaybeCompleteLater(w: World, e: EmitterId)
    requires e in w.emitters && w.emitters[e].cycle.Some? && |w.emitters[e].batch| > 0 && Linked(w)
    requires MaybeComplete(w, e).Ok?
    ensures Later(w, MaybeComplete(w, e).value)
  {
    var c := w.emitters[e].cycle.value;
    if c.next == |c.snapshot| && c.finished >= |c.snapshot| {
      CompleteLater(w, e);
    }
  }

  lemma DeliverLater(w: World, e: EmitterId)
    requires CanDeliver(w, e)
    requires Deliver(w, e).Ok?
    ensures Later(w, Deliver(w, e).value)
  {
    var h := Handed(w, e);
    LinkedFrame(w, h);
    assert Later(w, h);
    MaybeCompleteLater(h, e);
    LaterTrans(w, h, Deliver(w, e).value);
  }

  /** Replacing the current cycle and possibly completing the item only moves histories forward. */
  lemma RecycleLater(w: World, e: EmitterId, c: Cycle)
    requires e in w.emitters && |w.emitters[e].batch| > 0 && Linked(w)
    requires Recount(w, e, c).Ok?
    ensures Later(w, Recount(w, e, c).value)
  {
    var w1 := w.(emitters := w.emitters[e := w.emitters[e].(cycle := Some(c))]);
    LinkedFrame(w, w1);
    MaybeCompleteLater(w1, e);
    LaterTrans(w, w1, MaybeComplete(w1, e).value);
  }

  lemma FinishLater(w: World, e: EmitterId, serial: nat, id: SubId)
    requires CanFinish(w, e)
    requires Finish(w, e, serial, id).Ok?
    ensures Later(w, Finish(w, e, serial, id).value)
  {
    var em := w.emitters[e];
    if em.cycle.Some? && em.cycle.value.serial == serial && id in em.cycle.value.waiting {
      var c := em.cycle.value;
      match c.waiting[id]
      case OneShot(used) =>
        if !used { RecycleLater(w, e, c.(finished := c.finished + 1, waiting := c.waiting[id := OneShot(true)])); }
      case Repeating =>
        RecycleLater(w, e, c.(finished := c.finished + 1));
    }
  }

  /* ---------- the fire-count tally ---------- */

  /** How many deliveries went to subscription `id`. */
  function Count(ds: seq<Delivery>, id: SubId): (r: nat)
    ensures r <= |ds|
  {
    if ds == [] then 0
    else Count(ds[..|ds| - 1], id) + (if ds[|ds| - 1].sub == id then 1 else 0)
  }

  lemma {:induction false} CountAbsent(ds: seq<Delivery>, id: SubId)
    requires forall i :: 0 <= i < |ds| ==> ds[i].sub != id
    ensures Count(ds, id) == 0
  {
    if ds != [] {
      CountAbsent(ds[..|ds| - 1], id);
    }
  }

  /** Every subscription's `fired` is the number of deliveries made to it, and every delivery went to a subscription of the store. */
  predicate Tally(w: World) {
    (forall id :: id in w.subs ==> w.subs[id].fired == Count(w.deliveries, id))
    && (forall i :: 0 <= i < |w.deliveries| ==> w.deliveries[i].sub in w.subs)
  }

  lemma TallyFramed(w: World, w': World)
    requires Tally(w) && Framed(w, w')
    ensures Tally(w')
  {
  }

  lemma TallyHanded(w: World, e: EmitterId)
    requires Tally(w) && CanDeliver(w, e)
    ensures Tally(Handed(w, e))
  {
    var h := Handed(w, e);
    var c := w.emitters[e].cycle.value;
    var id := c.snapshot[c.next];
    assert h.deliveries[..|h.deliveries| - 1] == w.deliveries;
    forall x | x in h.subs
      ensures h.subs[x].fired == Count(h.deliveries, x)
    {
      assert Count(h.deliveries, x) == Count(w.deliveries, x) + (if x == id then 1 else 0);
    }
  }

  /** A fresh subscription has no deliveries yet. */
  lemma TallyAdd(w: World, id: SubId, s: Sub, w': World)
    requires Tally(w) && id !in w.subs && s.fired == 0
    requires w'.subs == w.subs[id := s] && w'.deliveries == w.deliveries
    ensures Tally(w')
  {
    CountAbsent(w.deliveries, id);
  }
}
