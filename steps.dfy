/**
 * A world of emitters driven one step at a time: every public call of the
 * library and every point at which the dispatch cycle hands control back is
 * a `Step`, and `Next` says what it does. A call that throws leaves the world
 * as it was (a failed `registerEvent` keeps the entries registered before the
 * failing one), and a throw inside the dispatch cycle is reported the same way.
 */
module Steps {
  import opened Basics
  import opened State
  import opened Listeners
  import opened Registry
  import opened Dispatch

  datatype Step =
    | New(specs: seq<EventSpec>)                                       // `new Podium(events)`
    | RegisterEvent(e: EmitterId, specs: seq<EventSpec>)               // `registerEvent(events)`
    | RegisterPodiums(e: EmitterId, sources: seq<EmitterId>)           // `registerPodium(podiums)`
    | Subscribe(e: EmitterId, name: EventName, o: Options)             // `on` / `addListener`
    | SubscribeOnce(e: EmitterId, name: EventName, o: Options)         // `once`
    | Unsubscribe(e: EmitterId, name: EventName, l: Option<ListenerId>) // `removeListener`
    | UnsubscribeAll(e: EmitterId, name: EventName)                    // `removeAllListeners`
    | Publish(e: EmitterId, name: EventName, data: Data, cb: Callback) // `emit`
    | BeginItem(e: EmitterId)
    | DeliverNext(e: EmitterId)
    | FinishHandler(e: EmitterId, serial: nat, id: SubId)
    | SettleBatch(e: EmitterId)

  /** The registration steps: the constructor, `registerEvent` and `registerPodium`. */
  predicate Registers(s: Step) {
    s.New? || s.RegisterEvent? || s.RegisterPodiums?
  }

  /** The subscription steps: `on`, `once`, `removeListener` and `removeAllListeners`. */
  predicate Subscribes(s: Step) {
    s.Subscribe? || s.SubscribeOnce? || s.Unsubscribe? || s.UnsubscribeAll?
  }

  /**
   * The step can be taken: the emitters it names exist and the dispatch step is
   * due. A caller's `emit` passes its own callback or none; the fan-out wrapper
   * and a join's `next` are closures the library never hands out.
   */
  predicate Enabled(w: World, s: Step) {
    Linked(w) &&
    match s
    case New(specs) => SourcesIn(specs, w)
    case RegisterEvent(e, specs) => e in w.emitters && SourcesIn(specs, w)
    case RegisterPodiums(e, sources) => e in w.emitters && AllIn(sources, w.emitters)
    case Subscribe(e, _, _) => e in w.emitters
    case SubscribeOnce(e, _, _) => e in w.emitters
    case Unsubscribe(e, _, _) => e in w.emitters
    case UnsubscribeAll(e, _) => e in w.emitters
    case Publish(e, _, _, cb) => e in w.emitters && (cb.Ignore? || cb.User?)
    case BeginItem(e) => CanBegin(w, e)
    case DeliverNext(e) => CanDeliver(w, e)
    case FinishHandler(e, _, _) => CanFinish(w, e)
    case SettleBatch(e) => CanSettle(w, e)
  }

  /** A call that throws leaves the world as it was. */
  function Lift(w: World, r: Result<World>): (o: Outcome)
    ensures o.error.None? <==> r.Ok?
    ensures r.Ok? ==> o.world == r.value
    ensures r.Err? ==> o.world == w && o.error == Some(r.error)
  {
    match r
    case Ok(w') => Outcome(w', None)
    case Err(x) => Outcome(w, Some(x))
  }

  function Next(w: World, s: Step): (r: Outcome)
    requires Enabled(w, s)
    ensures s.New? || s.RegisterEvent? || s.RegisterPodiums? || s.Unsubscribe? || s.UnsubscribeAll? || s.SettleBatch? ==>
              r.world.subs == w.subs && r.world.deliveries == w.deliveries
  {
    match s
    case New(specs) => Create(w, specs).1
    case RegisterEvent(e, specs) => RegisterEvents(w, e, specs)
    case RegisterPodiums(e, sources) => Outcome(RegisterPodium(w, e, sources), None)
    case Subscribe(e, name, o) => Lift(w, On(w, e, name, o))
    case SubscribeOnce(e, name, o) => Lift(w, Once(w, e, name, o))
    case Unsubscribe(e, name, l) => Lift(w, RemoveListener(w, e, name, l))
    case UnsubscribeAll(e, name) => Lift(w, RemoveAllListeners(w, e, name))
    case Publish(e, name, data, cb) => Lift(w, Emit(w, e, name, data, cb))
    case BeginItem(e) => Lift(w, Begin(w, e))
    case DeliverNext(e) => Lift(w, Deliver(w, e))
    case FinishHandler(e, serial, id) => Lift(w, Finish(w, e, serial, id))
    case SettleBatch(e) => Outcome(Settle(w, e), None)
  }

  /** One step of a schedule; a step that is not enabled is skipped. */
  function Apply(w: World, s: Step): World {
    if Enabled(w, s) then Next(w, s).world else w
  }

  /** The world after a whole schedule of steps. */
  function Run(w: World, steps: seq<Step>): World
  {
    if steps == [] then w else Apply(Run(w, steps[..|steps| - 1]), steps[|steps| - 1])
  }
}
