/**
 * What holds of every schedule of steps: the world invariant is kept; every
 * emitter's completed ids are a prefix of its issued ids, so notifications
 * complete in the order they were emitted; histories only grow; and a
 * subscription with a count of k is handed at most k notifications and is off
 * every live list once it has had them all.
 */
module StepFacts {
  import opened Basics
  import opened State
  import opened Listeners
  import opened Registry
  import opened Dispatch
  import opened Invariants
  import opened ApiInvariants
  import opened DispatchFacts
  import opened Histories
  import opened Steps

  /** Every step keeps the invariant, whether it succeeds or throws. */
  lemma NextInv(w: World, s: Step)
    requires Inv(w) && Enabled(w, s)
    ensures Inv(Next(w, s).world)
  {
    if Registers(s) {
      RegistryStepInv(w, s);
    } else if Subscribes(s) {
      ListenerStepInv(w, s);
    } else {
      DispatchStepInv(w, s);
    }
  }

  lemma RegistryStepInv(w: World, s: Step)
    requires Inv(w) && Enabled(w, s) && Registers(s)
    ensures Inv(Next(w, s).world)
  {
    match s
    case New(specs) => CreateInv(w, specs);
    case RegisterEvent(e, specs) => RegisterEventsInv(w, e, specs);
    case RegisterPodiums(e, sources) => RegisterPodiumInv(w, e, sources);
  }

  lemma ListenerStepInv(w: World, s: Step)
    requires Inv(w) && Enabled(w, s) && Subscribes(s)
    ensures Inv(Next(w, s).world)
  {
    match s
    case Subscribe(e, name, o) =>
      if On(w, e, name, o).Ok? { OnInv(w, e, name, o); }
    case SubscribeOnce(e, name, o) =>
      if Once(w, e, name, o).Ok? { OnInv(w, e, name, o.(count := Some(1))); }
    case Unsubscribe(e, name, l) =>
      if RemoveListener(w, e, name, l).Ok? { RemoveListenerInv(w, e, name, l); }
    case UnsubscribeAll(e, name) =>
      if RemoveAllListeners(w, e, name).Ok? { RemoveAllInv(w, e, name); }
  }

  lemma DispatchStepInv(w: World, s: Step)
    requires Inv(w) && Enabled(w, s) && !Registers(s) && !Subscribes(s)
    ensures Inv(Next(w, s).world)
  {
    match s
    case Publish(e, name, data, cb) =>
      if Emit(w, e, name, data, cb).Ok? { EmitInv(w, e, name, data, cb); }
    case BeginItem(e) =>
      if Begin(w, e).Ok? { BeginInv(w, e); }
    case DeliverNext(e) =>
      if Deliver(w, e).Ok? { DeliverInv(w, e); }
    case FinishHandler(e, serial, id) =>
      if Finish(w, e, serial, id).Ok? { FinishInv(w, e, serial, id); }
    case SettleBatch(e) => SettleInv(w, e);
  }

  /** A subscription change touches one emitter's table only. */
  lemma TableOnlyLater(w: World, e: EmitterId, events: map<EventName, Entry>, w': World)
    requires e in w.emitters
    requires w'.emitters == w.emitters[e := w.emitters[e].(events := events)] && w'.deliveries == w.deliveries
    ensures Later(w, w')
  {
    assert Settled(w.emitters, w'.emitters);
    SettledLater(w, w');
  }

  lemma OnLater(w: World, e: EmitterId, name: EventName, o: Options)
    requires e in w.emitters && On(w, e, name, o).Ok?
    ensures Later(w, On(w, e, name, o).value)
  {
    var w' := On(w, e, name, o).value;
    TableOnlyLater(w, e, w'.emitters[e].events, w');
  }

  lemma RemoveListenerLater(w: World, e: EmitterId, name: EventName, l: Option<ListenerId>)
    requires e in w.emitters && RemoveListener(w, e, name, l).Ok?
    ensures Later(w, RemoveListener(w, e, name, l).value)
  {
    var w' := RemoveListener(w, e, name, l).value;
    TableOnlyLater(w, e, w'.emitters[e].events, w');
  }

  lemma RemoveAllLater(w: World, e: EmitterId, name: EventName)
    requires e in w.emitters && RemoveAllListeners(w, e, name).Ok?
    ensures Later(w, RemoveAllListeners(w, e, name).value)
  {
    var w' := RemoveAllListeners(w, e, name).value;
    TableOnlyLater(w, e, w'.emitters[e].events, w');
  }

  lemma EmitLater(w: World, e: EmitterId, name: EventName, data: Data, cb: Callback)
    requires e in w.emitters && Emit(w, e, name, data, cb).Ok?
    ensures Later(w, Emit(w, e, name, data, cb).value)
  {
    EmitFramed(w, e, name, data, cb);
    FramedLater(w, Emit(w, e, name, data, cb).value);
  }

  lemma BeginLater(w: World, e: EmitterId)
    requires CanBegin(w, e) && Begin(w, e).Ok?
    ensures Later(w, Begin(w, e).value)
  {
    if |Subscribers(w.emitters[e].events[w.emitters[e].batch[0].event])| == 0 {
      CompleteLater(w, e);
    }
  }

  lemma SettleLater(w: World, e: EmitterId)
    requires CanSettle(w, e)
    ensures Later(w, Settle(w, e))
  {
  }

  /** Every step only moves histories forward: issued ids, completed ids and the delivery trace only grow at the end. */
  lemma NextLater(w: World, s: Step)
    requires Inv(w) && Enabled(w, s)
    ensures Later(w, Next(w, s).world)
  {
    if Registers(s) {
      RegistryStepLater(w, s);
    } else if Subscribes(s) {
      ListenerStepLater(w, s);
    } else {
      DispatchStepLater(w, s);
    }
  }

  lemma RegistryStepLater(w: World, s: Step)
    requires Inv(w) && Enabled(w, s) && Registers(s)
    ensures Later(w, Next(w, s).world)
  {
    match s
    case New(specs) =>
      assert w.nextEmitter !in w.emitters;
      CreateLater(w, specs);
    case RegisterEvent(e, specs) =>
      RegisterEventsSettled(w, e, specs);
      SettledLater(w, RegisterEvents(w, e, specs).world);
    case RegisterPodiums(e, sources) =>
      RegisterPodiumSettled(w, e, sources);
      SettledLater(w, RegisterPodium(w, e, sources));
  }

  lemma ListenerStepLater(w: World, s: Step)
    requires Inv(w) && Enabled(w, s) && Subscribes(s)
    ensures Later(w, Next(w, s).world)
  {
    assert Later(w, w);
    match s
    case Subscribe(e, name, o) =>
      if On(w, e, name, o).Ok? { OnLater(w, e, name, o); }
    case SubscribeOnce(e, name, o) =>
      if Once(w, e, name, o).Ok? { OnLater(w, e, name, o.(count := Some(1))); }
    case Unsubscribe(e, name, l) =>
      if RemoveListener(w, e, name, l).Ok? { RemoveListenerLater(w, e, name, l); }
    case UnsubscribeAll(e, name) =>
      if RemoveAllListeners(w, e, name).Ok? { RemoveAllLater(w, e, name); }
  }

  lemma DispatchStepLater(w: World, s: Step)
    requires Inv(w) && Enabled(w, s) && !Registers(s) && !Subscribes(s)
    ensures Later(w, Next(w, s).world)
  {
    assert Later(w, w);
    match s
    case Publish(e, name, data, cb) =>
      if Emit(w, e, name, data, cb).Ok? { EmitLater(w, e, name, data, cb); }
    case BeginItem(e) =>
      if Begin(w, e).Ok? { BeginLater(w, e); }
    case DeliverNext(e) =>
      if Deliver(w, e).Ok? { DeliverLater(w, e); }
    case FinishHandler(e, serial, id) =>
      if Finish(w, e, serial, id).Ok? { FinishLater(w, e, serial, id); }
    case SettleBatch(e) => SettleLater(w, e);
  }

  /** A world with the same subscriptions and deliveries keeps the tally. */
  lemma TallySame(w: World, w': World)
    requires Tally(w) && w'.subs == w.subs && w'.deliveries == w.deliveries
    ensures Tally(w')
  {
  }

  /** The end of a blocking handler changes no subscription and records no delivery. */
  lemma FinishQuiet(w: World, e: EmitterId, serial: nat, id: SubId)
    requires CanFinish(w, e) && Finish(w, e, serial, id).Ok?
    requires w.emitters[e].processing
    ensures Finish(w, e, serial, id).value.subs == w.subs
    ensures Finish(w, e, serial, id).value.deliveries == w.deliveries
  {
    var em := w.emitters[e];
    if em.cycle.Some? && em.cycle.value.serial == serial && id in em.cycle.value.waiting {
      var c := em.cycle.value;
      match c.waiting[id]
      case OneShot(used) =>
        if !used { RecycleQuiet(w, e, c.(finished := c.finished + 1, waiting := c.waiting[id := OneShot(true)])); }
      case Repeating =>
        RecycleQuiet(w, e, c.(finished := c.finished + 1));
    }
  }

  lemma RecycleQuiet(w: World, e: EmitterId, c: Cycle)
    requires e in w.emitters && |w.emitters[e].batch| > 0 && Linked(w) && w.emitters[e].processing
    requires Recount(w, e, c).Ok?
    ensures Recount(w, e, c).value.subs == w.subs && Recount(w, e, c).value.deliveries == w.deliveries
  {
    var w1 := w.(emitters := w.emitters[e := w.emitters[e].(cycle := Some(c))]);
    LinkedFrame(w, w1);
    if c.next == |c.snapshot| && c.finished >= |c.snapshot| && Complete(w1, e).Ok? {
      CompleteRecords(w1, e);
    }
  }

  lemma OnTally(w: World, e: EmitterId, name: EventName, o: Options)
    requires Inv(w) && Tally(w) && e in w.emitters && On(w, e, name, o).Ok?
    ensures Tally(On(w, e, name, o).value)
  {
    var w' := On(w, e, name, o).value;
    assert w.nextSub !in w.subs;
    TallyAdd(w, w.nextSub, w'.subs[w.nextSub], w');
  }

  lemma BeginTally(w: World, e: EmitterId)
    requires Tally(w) && CanBegin(w, e) && Begin(w, e).Ok?
    ensures Tally(Begin(w, e).value)
  {
    if |Subscribers(w.emitters[e].events[w.emitters[e].batch[0].event])| == 0 {
      CompleteRecords(w, e);
    }
  }

  lemma DeliverTally(w: World, e: EmitterId)
    requires Inv(w) && Tally(w) && CanDeliver(w, e) && Deliver(w, e).Ok?
    ensures Tally(Deliver(w, e).value)
  {
    assert EmitterOk(w.subs, e, w.emitters[e]);
    TallyHanded(w, e);
    DeliverRecords(w, e);
    TallySame(Handed(w, e), Deliver(w, e).value);
  }

  lemma FinishTally(w: World, e: EmitterId, serial: nat, id: SubId)
    requires Inv(w) && Tally(w) && CanFinish(w, e) && Finish(w, e, serial, id).Ok?
    ensures Tally(Finish(w, e, serial, id).value)
  {
    assert EmitterOk(w.subs, e, w.emitters[e]);
    if w.emitters[e].processing {
      FinishQuiet(w, e, serial, id);
    }
  }

  lemma EmitTally(w: World, e: EmitterId, name: EventName, data: Data, cb: Callback)
    requires Tally(w) && e in w.emitters && Emit(w, e, name, data, cb).Ok?
    ensures Tally(Emit(w, e, name, data, cb).value)
  {
    EmitFramed(w, e, name, data, cb);
  }

  /** Every step keeps the tally: a subscription's `fired` counts exactly the deliveries made to it. */
  lemma NextTally(w: World, s: Step)
    requires Inv(w) && Tally(w) && Enabled(w, s)
    ensures Tally(Next(w, s).world)
  {
    if Registers(s) || s.Unsubscribe? || s.UnsubscribeAll? || s.SettleBatch? {
      TallySame(w, Next(w, s).world);
    } else {
      BusyStepTally(w, s);
    }
  }

  /** The steps that may add a subscription or record a delivery. */
  lemma BusyStepTally(w: World, s: Step)
    requires Inv(w) && Tally(w) && Enabled(w, s)
    requires s.Subscribe? || s.SubscribeOnce? || s.Publish? || s.BeginItem? || s.DeliverNext? || s.FinishHandler?
    ensures Tally(Next(w, s).world)
  {
    match s
    case Subscribe(e, name, o) =>
      if On(w, e, name, o).Ok? { OnTally(w, e, name, o); }
    case SubscribeOnce(e, name, o) =>
      if Once(w, e, name, o).Ok? { OnTally(w, e, name, o.(count := Some(1))); }
    case Publish(e, name, data, cb) =>
      if Emit(w, e, name, data, cb).Ok? { EmitTally(w, e, name, data, cb); }
    case BeginItem(e) =>
      if Begin(w, e).Ok? { BeginTally(w, e); }
    case DeliverNext(e) =>
      if Deliver(w, e).Ok? { DeliverTally(w, e); }
    case FinishHandler(e, serial, id) =>
      if Finish(w, e, serial, id).Ok? { FinishTally(w, e, serial, id); }
  }

  /** Any schedule keeps the invariant and the tally and only moves histories forward. */
  lemma {:induction false} RunKeeps(w: World, steps: seq<Step>)
    requires Inv(w) && Tally(w)
    ensures Inv(Run(w, steps)) && Tally(Run(w, steps)) && Later(w, Run(w, steps))
  {
    if steps == [] {
      assert Later(w, w);
    } else {
      var w0 := Run(w, steps[..|steps| - 1]);
      var s := steps[|steps| - 1];
      RunKeeps(w, steps[..|steps| - 1]);
      if Enabled(w0, s) {
        NextInv(w0, s);
        NextTally(w0, s);
        NextLater(w0, s);
        LaterTrans(w, w0, Next(w0, s).world);
      } else {
        assert Later(w0, w0);
      }
    }
  }

  /** First-in, first-out: an emitter completes notifications in exactly the order they were emitted on it. */
  lemma CompletionOrder(w: World, e: EmitterId)
    requires Inv(w) && e in w.emitters
    ensures w.emitters[e].completed <= w.emitters[e].issued
  {
    var em := w.emitters[e];
    assert EmitterOk(w.subs, e, em);
    assert em.issued[..|em.completed|] == em.completed;
  }

  /**
   * A subscription created with a count of k has been handed at most k
   * notifications; once it has had k it is on no live list and in no cycle's
   * pending snapshot, so it is never handed another.
   */
  lemma FireCount(w: World, id: SubId)
    requires Inv(w) && Tally(w) && id in w.subs && w.subs[id].limit > 0
    ensures Count(w.deliveries, id) <= w.subs[id].limit
    ensures Count(w.deliveries, id) == w.subs[id].limit ==>
      forall e, name :: e in w.emitters && name in w.emitters[e].events ==>
        id !in Subscribers(w.emitters[e].events[name])
        && (w.emitters[e].cycle.Some? ==> id !in w.emitters[e].cycle.value.snapshot[w.emitters[e].cycle.value.next..])
  {
    assert SubOk(w.subs[id]);
    if Count(w.deliveries, id) == w.subs[id].limit {
      forall e, name | e in w.emitters && name in w.emitters[e].events
        ensures id !in Subscribers(w.emitters[e].events[name])
        ensures w.emitters[e].cycle.Some? ==> id !in w.emitters[e].cycle.value.snapshot[w.emitters[e].cycle.value.next..]
      {
        assert EmitterOk(w.subs, e, w.emitters[e]);
        assert EntryOk(w.subs, e, name, w.emitters[e].events[name]);
      }
    }
  }

  /** From no emitters at all, every schedule ends in a world where each emitter has completed a prefix of what was emitted on it, in emission order. */
  lemma FromScratch(steps: seq<Step>)
    ensures Inv(Run(NoEmitters, steps)) && Tally(Run(NoEmitters, steps))
    ensures forall e :: e in Run(NoEmitters, steps).emitters ==>
      Run(NoEmitters, steps).emitters[e].completed <= Run(NoEmitters, steps).emitters[e].issued
  {
    RunKeeps(NoEmitters, steps);
    var w := Run(NoEmitters, steps);
    forall e | e in w.emitters
      ensures w.emitters[e].completed <= w.emitters[e].issued
    {
      CompletionOrder(w, e);
    }
  }
}
