/**
 * The join invariant over whole schedules: every step keeps each open join's
 * count equal to what still reports to it, a closed join is never opened
 * again and nothing is left reporting to it.
 */
module JoinSteps {
  import opened Basics
  import opened State
  import opened Listeners
  import opened Registry
  import opened Dispatch
  import opened DispatchFacts
  import opened Invariants
  import opened Histories
  import opened Steps
  import opened StepFacts
  import opened Joins

  lemma InvOrderly(w: World)
    requires Inv(w) && JoinBounds(w)
    ensures Orderly(w)
  {
    forall x | x in w.emitters && !w.emitters[x].processing
      ensures w.emitters[x].batch == []
    {
      assert EmitterOk(w.subs, x, w.emitters[x]);
    }
  }

  /** A registration changes no pending notification and no join. */
  lemma SettledDebt(w: World, w': World)
    requires Orderly(w) && JoinsOk(w) && Settled(w.emitters, w'.emitters)
    requires w'.emitters.Keys == w.emitters.Keys && w'.joins == w.joins
    requires w'.nextEmitter == w.nextEmitter && w'.nextJoin == w.nextJoin
    ensures JoinsOk(w') && Fresh(w, w')
  {
    forall x | x in w.emitters
      ensures Backlog(w'.emitters[x]) == Backlog(w.emitters[x])
    {
      assert w'.emitters[x].batch == w.emitters[x].batch && w'.emitters[x].queue == w.emitters[x].queue;
    }
    SameBacklogs(w, w');
  }

  /** `new Podium(...)`: a new emitter with nothing pending, then its registrations. */
  lemma CreateDebt(w: World, specs: seq<EventSpec>)
    requires Inv(w) && JoinsOk(w) && Enabled(w, New(specs))
    ensures JoinsOk(Create(w, specs).1.world) && Fresh(w, Create(w, specs).1.world)
  {
    InvOrderly(w);
    var id := w.nextEmitter;
    var w0 := w.(emitters := w.emitters[id := NewEmitter()], nextEmitter := id + 1);
    assert Create(w, specs).1 == RegisterEvents(w0, id, specs);
    assert Linked(w0) by {
      forall x, p | x in w0.emitters && p in w0.emitters[x].podiums
        ensures p in w0.emitters
      {
        assert x in w.emitters;
      }
    }
    NewEmitterDebt(w, w0);
    assert SourcesIn(specs, w0);
    RegisterEventsSettled(w0, id, specs);
    SettledDebt(w0, RegisterEvents(w0, id, specs).world);
    FreshTrans(w, w0, RegisterEvents(w0, id, specs).world);
  }

  /** A new emitter above every existing one, with nothing pending. */
  lemma NewEmitterDebt(w: World, w0: World)
    requires Orderly(w) && JoinsOk(w)
    requires w0 == w.(emitters := w.emitters[w.nextEmitter := NewEmitter()], nextEmitter := w.nextEmitter + 1)
    ensures Orderly(w0) && JoinsOk(w0) && Fresh(w, w0)
  {
    forall j
      ensures Debt(w0, j) == Due(w0, j)
    {
      NoteDebtFrame(w.emitters, w0.emitters, j, w.nextEmitter);
      assert Owed(Pending(w0.emitters, w.nextEmitter), j) == 0;
      assert Debt(w, j) == Due(w, j);
    }
  }

  lemma RegistryStepJoins(w: World, s: Step)
    requires Inv(w) && JoinsOk(w) && Enabled(w, s) && Registers(s)
    ensures JoinsOk(Next(w, s).world) && Fresh(w, Next(w, s).world)
  {
    InvOrderly(w);
    match s
    case New(specs) => CreateDebt(w, specs);
    case RegisterEvent(e, specs) =>
      RegisterEventsSettled(w, e, specs);
      SettledDebt(w, RegisterEvents(w, e, specs).world);
    case RegisterPodiums(e, sources) =>
      RegisterPodiumSettled(w, e, sources);
      SettledDebt(w, RegisterPodium(w, e, sources));
  }

  lemma ListenerStepJoins(w: World, s: Step)
    requires Inv(w) && JoinsOk(w) && Enabled(w, s) && Subscribes(s)
    ensures JoinsOk(Next(w, s).world) && Fresh(w, Next(w, s).world)
  {
    InvOrderly(w);
    match s
    case Subscribe(e, name, o) =>
      if On(w, e, name, o).Ok? { OnDebt(w, e, name, o); }
    case SubscribeOnce(e, name, o) =>
      if Once(w, e, name, o).Ok? { OnDebt(w, e, name, o.(count := Some(1))); }
    case Unsubscribe(e, name, l) =>
      if RemoveListener(w, e, name, l).Ok? { RemoveListenerDebt(w, e, name, l); }
    case UnsubscribeAll(e, name) =>
      if RemoveAllListeners(w, e, name).Ok? { RemoveAllDebt(w, e, name); }
  }

  lemma RemoveListenerDebt(w: World, e: EmitterId, name: EventName, l: Option<ListenerId>)
    requires Orderly(w) && JoinsOk(w) && e in w.emitters && RemoveListener(w, e, name, l).Ok?
    ensures JoinsOk(RemoveListener(w, e, name, l).value) && Fresh(w, RemoveListener(w, e, name, l).value)
  {
    var r := RemoveListener(w, e, name, l).value;
    TableOnlyDebt(w, e, r.emitters[e].events, r);
  }

  lemma RemoveAllDebt(w: World, e: EmitterId, name: EventName)
    requires Orderly(w) && JoinsOk(w) && e in w.emitters && RemoveAllListeners(w, e, name).Ok?
    ensures JoinsOk(RemoveAllListeners(w, e, name).value) && Fresh(w, RemoveAllListeners(w, e, name).value)
  {
    var r := RemoveAllListeners(w, e, name).value;
    TableOnlyDebt(w, e, r.emitters[e].events, r);
  }

  lemma OnDebt(w: World, e: EmitterId, name: EventName, o: Options)
    requires Orderly(w) && JoinsOk(w) && e in w.emitters && On(w, e, name, o).Ok?
    ensures JoinsOk(On(w, e, name, o).value) && Fresh(w, On(w, e, name, o).value)
  {
    var r := On(w, e, name, o).value;
    TableOnlyDebt(w, e, r.emitters[e].events, r);
  }

  /** A subscription change touches one emitter's table only. */
  lemma TableOnlyDebt(w: World, e: EmitterId, events: map<EventName, Entry>, w': World)
    requires Orderly(w) && JoinsOk(w) && e in w.emitters
    requires w'.emitters == w.emitters[e := w.emitters[e].(events := events)]
    requires w'.joins == w.joins && w'.nextEmitter == w.nextEmitter && w'.nextJoin == w.nextJoin
    ensures JoinsOk(w') && Fresh(w, w')
  {
    SameBacklogs(w, w');
  }

  /** A caller's `emit` adds a notification that reports to no join. */
  lemma PublishDebt(w: World, e: EmitterId, name: EventName, data: Data, cb: Callback)
    requires Orderly(w) && JoinsOk(w) && e in w.emitters && (cb.Ignore? || cb.User?)
    requires Emit(w, e, name, data, cb).Ok?
    ensures JoinsOk(Emit(w, e, name, data, cb).value) && Fresh(w, Emit(w, e, name, data, cb).value)
  {
    var r := Emit(w, e, name, data, cb).value;
    EmitDebt(w, e, name, data, cb, 0);
    forall j
      ensures Debt(r, j) == Due(r, j)
    {
      EmitDebt(w, e, name, data, cb, j);
      assert Debt(w, j) == Due(w, j);
    }
  }

  lemma DispatchStepJoins(w: World, s: Step)
    requires Inv(w) && JoinsOk(w) && Enabled(w, s) && !Registers(s) && !Subscribes(s)
    ensures JoinsOk(Next(w, s).world) && Fresh(w, Next(w, s).world)
  {
    InvOrderly(w);
    match s
    case Publish(e, name, data, cb) =>
      if Emit(w, e, name, data, cb).Ok? { PublishDebt(w, e, name, data, cb); }
    case BeginItem(e) =>
      if Begin(w, e).Ok? { BeginDebt(w, e); }
    case DeliverNext(e) =>
      if Deliver(w, e).Ok? { DeliverDebt(w, e); }
    case FinishHandler(e, serial, id) =>
      if Finish(w, e, serial, id).Ok? { FinishDebt(w, e, serial, id); }
    case SettleBatch(e) => SettleDebt(w, e);
  }

  /** Every step keeps the join invariant and opens only joins with new ids. */
  lemma NextJoins(w: World, s: Step)
    requires Inv(w) && JoinsOk(w) && Enabled(w, s)
    ensures JoinsOk(Next(w, s).world) && Fresh(w, Next(w, s).world)
  {
    if Registers(s) {
      RegistryStepJoins(w, s);
    } else if Subscribes(s) {
      ListenerStepJoins(w, s);
    } else {
      DispatchStepJoins(w, s);
    }
  }

  /** Any schedule keeps the world invariant and the join invariant, and opens only joins with new ids. */
  lemma {:induction false} RunJoins(w: World, steps: seq<Step>)
    requires Inv(w) && JoinsOk(w)
    ensures Inv(Run(w, steps)) && JoinsOk(Run(w, steps)) && Fresh(w, Run(w, steps))
  {
    if steps != [] {
      var w0 := Run(w, steps[..|steps| - 1]);
      var s := steps[|steps| - 1];
      RunJoins(w, steps[..|steps| - 1]);
      if Enabled(w0, s) {
        NextInv(w0, s);
        NextJoins(w0, s);
        FreshTrans(w, w0, Next(w0, s).world);
      }
    }
  }

  /**
   * A join closes once: after its final callback has run, no schedule opens it
   * again, and nothing pending anywhere reports to it, so its `next` never runs
   * again either.
   */
  lemma ClosedStaysClosed(w: World, steps: seq<Step>, j: JoinId)
    requires Inv(w) && JoinsOk(w) && j < w.nextJoin && j !in w.joins
    ensures j !in Run(w, steps).joins && Clear(Run(w, steps), j)
  {
    RunJoins(w, steps);
    var r := Run(w, steps);
    InvOrderly(r);
    assert Debt(r, j) == Due(r, j);
    DebtZero(r, j);
  }

  /** From no emitters at all, every schedule keeps each join's count equal to what still reports to it. */
  lemma JoinsFromScratch(steps: seq<Step>)
    ensures JoinsOk(Run(NoEmitters, steps))
    ensures forall j :: j in Run(NoEmitters, steps).joins ==> Run(NoEmitters, steps).joins[j].remaining == Debt(Run(NoEmitters, steps), j)
  {
    assert JoinsOk(NoEmitters);
    RunJoins(NoEmitters, steps);
    var r := Run(NoEmitters, steps);
    forall j | j in r.joins
      ensures r.joins[j].remaining == Debt(r, j)
    {
      assert Debt(r, j) == Due(r, j);
    }
  }
}
