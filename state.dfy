/**
 * The state of a world of Podium emitters.
 *
 * Every emitter object of the library is one `Emitter` value in `World.emitters`,
 * addressed by an `EmitterId` (an object reference). Subscription objects are kept
 * in one store `World.subs` because the library mutates them in place (the
 * fire-count) and removes them by identity; an event's subscriber array holds
 * their ids.
 */
module State {
  import opened Basics

  type EmitterId = nat
  type SubId = nat
  type ListenerId = nat    // identity of a listener function
  type JoinId = nat        // one pending `Items.parallel` over link targets
  type Data = nat          // an opaque payload
  type EventName = string

  /** The declared flags of an event; only `clone` is read by the library. */
  datatype Flags = Flags(clone: bool)

  /** The `block` option of a subscription, after validation. */
  datatype Block = NoBlock | Forever | Millis(ms: int) {
    /** `handler.block` is truthy: `true` or a non-zero integer. */
    predicate Blocks() {
      match this
      case NoBlock => false
      case Forever => true
      case Millis(ms) => ms != 0
    }
  }

  /**
   * One subscription object. `count` is the remaining fire-count, 0 standing for
   * both "no count" and "exhausted" (both falsy). `owner` and `event` say in
   * which list the subscription was created; `limit` is the count it was created
   * with (0 for none) and `fired` counts its deliveries, so that the fire-count
   * rule can be stated.
   */
  datatype Sub = Sub(listener: ListenerId, count: nat, block: Block, clone: bool,
                     owner: EmitterId, event: EventName, limit: nat, fired: nat)

  /** `_eventListeners[name]`: `subs` is `null` (None) or an array of subscriptions. */
  datatype Entry = Entry(subs: Option<seq<SubId>>, flags: Flags)

  /**
   * A completion callback: the caller's no-op default, a caller callback known by
   * its identity, the wrapper built by `internals.distribute` for a source
   * emitter, or the `next` of a pending parallel emit over link targets.
   */
  datatype Callback =
    | Ignore
    | User(id: nat)
    | Fanout(source: EmitterId, event: EventName, data: Data, finalize: Callback)
    | JoinNext(join: JoinId)

  /** A pending parallel emit: how many targets have not finished yet, and what to call then. */
  datatype Join = Join(remaining: nat, finalize: Callback)

  datatype Notification = Notification(id: nat, event: EventName, data: Data, callback: Callback)

  /** The `next` handed to a blocking handler: once-guarded for a numeric block, raw for `true`. */
  datatype Guard = OneShot(used: bool) | Repeating

  /**
   * The dispatch of the current item: the snapshot of its subscriber list, how
   * many of the snapshot have been handed the item, how many have finished, and
   * the blocking ones still able to signal.
   */
  datatype Cycle = Cycle(serial: nat, snapshot: seq<SubId>, next: nat, finished: nat,
                         waiting: map<SubId, Guard>)

  /**
   * One emitter: `_eventListeners`, `_notificationsQueue`, `_eventsProcessing`,
   * `_podiums`, the swapped-out batch being drained with its current cycle, and
   * the ids of the notifications emitted on it and completed by it, in order.
   */
  datatype Emitter = Emitter(events: map<EventName, Entry>, queue: seq<Notification>,
                             processing: bool, podiums: seq<EmitterId>,
                             batch: seq<Notification>, cycle: Option<Cycle>, cycles: nat,
                             issued: seq<nat>, completed: seq<nat>)

  /** A handler invocation: which subscription got which event and data, and whether it got a clone. */
  datatype Delivery = Delivery(emitter: EmitterId, sub: SubId, listener: ListenerId,
                               event: EventName, data: Data, cloned: bool)

  datatype World = World(emitters: map<EmitterId, Emitter>, subs: map<SubId, Sub>,
                         joins: map<JoinId, Join>, nextEmitter: nat, nextSub: nat,
                         nextNote: nat, nextJoin: nat, deliveries: seq<Delivery>,
                         calls: seq<nat>)

  const NoEmitters := World(map[], map[], map[], 0, 0, 0, 0, [], [])

  function NewEmitter(): Emitter {
    Emitter(map[], [], false, [], [], None, 0, [], [])
  }

  function Ids(ns: seq<Notification>): (r: seq<nat>)
    ensures |r| == |ns|
    ensures forall i :: 0 <= i < |ns| ==> r[i] == ns[i].id
  {
    if ns == [] then [] else [ns[0].id] + Ids(ns[1..])
  }

  /** The notifications of an emitter that have not completed: the batch being drained, then the queue. */
  function Backlog(em: Emitter): seq<Notification> {
    em.batch + em.queue
  }

  lemma {:induction false} IdsAppend(a: seq<Notification>, b: seq<Notification>)
    ensures Ids(a + b) == Ids(a) + Ids(b)
  {
    var l, r := Ids(a + b), Ids(a) + Ids(b);
    forall i | 0 <= i < |l|
      ensures l[i] == r[i]
    {
      if i < |a| {
        assert (a + b)[i] == a[i];
      } else {
        assert (a + b)[i] == b[i - |a|];
      }
    }
  }

  /* ---------- invariants ---------- */

  /** An event's list is either `null` or a non-empty array. */
  predicate NullOrNonEmpty(en: Entry) {
    en.subs.Some? ==> |en.subs.value| > 0
  }

  predicate Distinct(s: seq<SubId>) {
    forall i, j :: 0 <= i < j < |s| ==> s[i] != s[j]
  }

  /** Dropping the head of a repetition-free list leaves one without the head. */
  lemma DistinctRest(s: seq<SubId>)
    requires Distinct(s) && s != []
    ensures Distinct(s[1..]) && s[0] !in s[1..]
  {
    var rest := s[1..];
    forall i, k | 0 <= i < k < |rest| ensures rest[i] != rest[k] {
      assert rest[i] == s[i + 1] && rest[k] == s[k + 1];
    }
    forall k | 0 <= k < |rest| ensures rest[k] != s[0] {
      assert rest[k] == s[k + 1];
    }
  }

  /** A subscription with a fire-count that can still be delivered has count left. */
  predicate Live(s: Sub) {
    s.limit > 0 ==> s.count > 0
  }

  /** Fire-count bookkeeping: remaining plus delivered is the limit. */
  predicate SubOk(s: Sub) {
    (s.limit > 0 ==> s.fired + s.count == s.limit) && (s.limit == 0 ==> s.count == 0)
  }

  /** Every id in `ids` is a live subscription created on `e` for `name`. */
  predicate Members(subs: map<SubId, Sub>, e: EmitterId, name: EventName, ids: seq<SubId>) {
    forall id :: id in ids ==> id in subs && subs[id].owner == e && subs[id].event == name && Live(subs[id])
  }

  predicate EntryOk(subs: map<SubId, Sub>, e: EmitterId, name: EventName, en: Entry) {
    NullOrNonEmpty(en)
    && (en.subs.Some? ==> Distinct(en.subs.value) && Members(subs, e, name, en.subs.value))
  }

  predicate EventsOk(subs: map<SubId, Sub>, e: EmitterId, events: map<EventName, Entry>) {
    forall name :: name in events ==> EntryOk(subs, e, name, events[name])
  }

  /** The snapshot not yet handed the item consists of distinct live subscriptions of the item's event. */
  predicate CycleOk(subs: map<SubId, Sub>, e: EmitterId, name: EventName, c: Cycle) {
    c.next <= |c.snapshot| && Distinct(c.snapshot)
    && Members(subs, e, name, c.snapshot[c.next..])
  }

  predicate Known(events: map<EventName, Entry>, ns: seq<Notification>) {
    forall i :: 0 <= i < |ns| ==> ns[i].event in events
  }

  predicate EmitterOk(subs: map<SubId, Sub>, e: EmitterId, em: Emitter) {
    EventsOk(subs, e, em.events)
    && (!em.processing ==> em.queue == [] && em.batch == [] && em.cycle.None?)
    && (em.cycle.Some? ==> |em.batch| > 0 && CycleOk(subs, e, em.batch[0].event, em.cycle.value))
    && Known(em.events, em.batch) && Known(em.events, em.queue)
    && em.completed + Ids(em.batch) + Ids(em.queue) == em.issued
  }

  predicate AllIn(ids: seq<EmitterId>, emitters: map<EmitterId, Emitter>) {
    forall i :: 0 <= i < |ids| ==> ids[i] in emitters
  }

  /** Every link target is an emitter of the world. */
  predicate Linked(w: World) {
    LinksIn(w.emitters)
  }

  predicate LinksIn(emitters: map<EmitterId, Emitter>) {
    forall e, p :: e in emitters && p in emitters[e].podiums ==> p in emitters
  }

  /** No emitter lists the same link target twice (`registerPodium` checks `indexOf` first). */
  predicate DistinctLinks(emitters: map<EmitterId, Emitter>) {
    forall e :: e in emitters ==> Distinct(emitters[e].podiums)
  }

  predicate StoreOk(w: World) {
    StoreIn(w.subs, w.nextSub)
  }

  predicate StoreIn(subs: map<SubId, Sub>, nextSub: nat) {
    forall id :: id in subs ==> id < nextSub && SubOk(subs[id])
  }

  predicate EmittersOk(emitters: map<EmitterId, Emitter>, subs: map<SubId, Sub>, nextEmitter: nat) {
    forall e :: e in emitters ==> e < nextEmitter && EmitterOk(subs, e, emitters[e])
  }

  /** The world invariant; it speaks only of the emitters and the subscription store. */
  predicate Inv(w: World) {
    StoreIn(w.subs, w.nextSub) && EmittersOk(w.emitters, w.subs, w.nextEmitter) && LinksIn(w.emitters)
  }
}
