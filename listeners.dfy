/**
 * The subscription table: `on`/`addListener`, `once`, `removeListener`,
 * `removeAllListeners`, `hasListeners` and `internals.removeHandler`.
 */
module Listeners {
  import opened Basics
  import opened State

  /** The raw `block` option: absent, `true`, an integer, or anything else (refused). */
  datatype BlockOption = Unset | BlockTrue | BlockInt(ms: int) | BlockOther

  /**
   * The options of `on` with the listener merged in: `listener` is None when the
   * caller's listener is not a function, `count` None when undefined.
   */
  datatype Options = Options(listener: Option<ListenerId>, count: Option<int>, block: BlockOption, clone: bool)

  function BlockOf(b: BlockOption): Block
    requires !b.BlockOther?
  {
    match b
    case Unset => NoBlock
    case BlockTrue => Forever
    case BlockInt(ms) => Millis(ms)
  }

  /** The subscriptions of an entry as a sequence: `null` reads as none. */
  function Subscribers(en: Entry): seq<SubId> {
    if en.subs.Some? then en.subs.value else []
  }

  /** `filtered.length ? filtered : null` */
  function Normalize(ids: seq<SubId>): (r: Option<seq<SubId>>)
    ensures NullOrNonEmpty(Entry(r, Flags(false)))
    ensures (if r.Some? then r.value else []) == ids
  {
    if |ids| > 0 then Some(ids) else None
  }

  /** The checks of `on`, in the order the source makes them. */
  function Check(em: Emitter, name: EventName, o: Options): Option<Error> {
    if name !in em.events then Some(UnknownEvent)
    else if o.listener.None? then Some(InvalidListener)
    else if o.count.Some? && o.count.value <= 0 then Some(InvalidCount)
    else if o.block.BlockOther? then Some(InvalidBlock)
    else None
  }

  /** `on(event, options, listener)`: appends one new subscription to the event's list. */
  function On(w: World, e: EmitterId, name: EventName, o: Options): (r: Result<World>)
    requires e in w.emitters
  {
    var em := w.emitters[e];
    match Check(em, name, o)
    case Some(x) => Err(x)
    case None =>
      var id := w.nextSub;
      var limit: nat := if o.count.Some? then o.count.value else 0;
      var sub := Sub(o.listener.value, limit, BlockOf(o.block), o.clone, e, name, limit, 0);
      var en := em.events[name];
      Ok(w.(emitters := w.emitters[e := em.(events := em.events[name := en.(subs := Some(Subscribers(en) + [id]))])],
            subs := w.subs[id := sub], nextSub := id + 1))
  }

  /** `once`: `on` with the count forced to 1. */
  function Once(w: World, e: EmitterId, name: EventName, o: Options): (r: Result<World>)
    requires e in w.emitters
  {
    On(w, e, name, o.(count := Some(1)))
  }

  /** The subscriptions whose listener is not `l`, in their order. */
  function Keep(store: map<SubId, Sub>, ids: seq<SubId>, l: ListenerId): (r: seq<SubId>)
    ensures forall id :: id in r <==> id in ids && (id !in store || store[id].listener != l)
    ensures |r| <= |ids|
  {
    if ids == [] then []
    else
      var rest := Keep(store, ids[1..], l);
      if ids[0] !in store || store[ids[0]].listener != l then [ids[0]] + rest else rest
  }

  /** `removeListener(event, listener)`. */
  function RemoveListener(w: World, e: EmitterId, name: EventName, l: Option<ListenerId>): (r: Result<World>)
    requires e in w.emitters
  {
    var em := w.emitters[e];
    if name !in em.events then Err(UnknownEvent)
    else if l.None? then Err(InvalidListener)
    else
      var en := em.events[name];
      if en.subs.None? then Ok(w)
      else
        var kept := Normalize(Keep(w.subs, en.subs.value, l.value));
        Ok(w.(emitters := w.emitters[e := em.(events := em.events[name := en.(subs := kept)])]))
  }

  /** `removeAllListeners(event)`. */
  function RemoveAllListeners(w: World, e: EmitterId, name: EventName): (r: Result<World>)
    requires e in w.emitters
  {
    var em := w.emitters[e];
    if name !in em.events then Err(UnknownEvent)
    else Ok(w.(emitters := w.emitters[e := em.(events := em.events[name := em.events[name].(subs := None)])]))
  }

  /** Every occurrence of `id` removed, in order. */
  function Without(ids: seq<SubId>, id: SubId): (r: seq<SubId>)
    ensures forall x :: x in r <==> x in ids && x != id
    ensures |r| <= |ids|
  {
    if ids == [] then []
    else if ids[0] == id then Without(ids[1..], id)
    else [ids[0]] + Without(ids[1..], id)
  }

  /**
   * `internals.removeHandler` as the source has it: the list is read without a
   * null check, so a list that is already `null` makes `filter` throw.
   */
  function RemoveHandlerAsWritten(en: Entry, id: SubId): (r: Result<Entry>)
  {
    if en.subs.None? then Err(NullSubscribers)
    else Ok(en.(subs := Normalize(Without(en.subs.value, id))))
  }

  /** `internals.removeHandler` with the null list read as empty, as `removeListener` treats it. */
  function RemoveHandler(en: Entry, id: SubId): (r: Entry)
  {
    if en.subs.None? then en
    else en.(subs := Normalize(Without(en.subs.value, id)))
  }

  /** `hasListeners(event)`. */
  function HasListeners(w: World, e: EmitterId, name: EventName): (r: Result<bool>)
    requires e in w.emitters
  {
    var em := w.emitters[e];
    if name !in em.events then Err(UnknownEvent) else Ok(em.events[name].subs.Some?)
  }
}

module ListenersFacts {
  import opened Basics
  import opened State
  import opened Listeners

  /** `on` succeeds exactly when the event is known, the listener is a function, `count` is undefined or positive and `block` is undefined, `true` or an integer. */
  lemma OnSucceedsIff(w: World, e: EmitterId, name: EventName, o: Options)
    requires e in w.emitters
    ensures On(w, e, name, o).Ok? <==>
      name in w.emitters[e].events && o.listener.Some? && (o.count.None? || o.count.value > 0) && !o.block.BlockOther?
    ensures name !in w.emitters[e].events ==> On(w, e, name, o) == Err(UnknownEvent)
    ensures name in w.emitters[e].events && o.listener.None? ==> On(w, e, name, o) == Err(InvalidListener)
  {
  }

  /**
   * A successful `on` appends exactly one fresh subscription, carrying the
   * caller's listener and options, at the end of that event's list; no other
   * event of any emitter and no existing subscription changes.
   */
  lemma OnAppends(w: World, e: EmitterId, name: EventName, o: Options)
    requires e in w.emitters && StoreOk(w)
    requires On(w, e, name, o).Ok?
    ensures var w' := On(w, e, name, o).value; var id := w.nextSub;
      && id !in w.subs && w'.subs.Keys == w.subs.Keys + {id}
      && (forall x :: x in w.subs ==> w'.subs[x] == w.subs[x])
      && w'.subs[id].listener == o.listener.value && w'.subs[id].owner == e && w'.subs[id].event == name
      && w'.subs[id].count == (if o.count.Some? then o.count.value else 0)
      && w'.subs[id].clone == o.clone && w'.subs[id].fired == 0
      && !o.block.BlockOther? && w'.subs[id].block == BlockOf(o.block)
      && w'.emitters.Keys == w.emitters.Keys
      && (forall x :: x in w.emitters && x != e ==> w'.emitters[x] == w.emitters[x])
      && w'.emitters[e].events.Keys == w.emitters[e].events.Keys
      && Subscribers(w'.emitters[e].events[name]) == Subscribers(w.emitters[e].events[name]) + [id]
      && (forall n :: n in w.emitters[e].events && n != name ==> w'.emitters[e].events[n] == w.emitters[e].events[n])
      && w'.emitters[e].events[name].flags == w.emitters[e].events[name].flags
      && w'.emitters[e] == w.emitters[e].(events := w'.emitters[e].events)
  {
    assert w.nextSub !in w.subs;
  }

  /** `once` registers a count of one whatever count the caller passed. */
  lemma OnceForcesCount(w: World, e: EmitterId, name: EventName, o: Options, c: Option<int>)
    requires e in w.emitters
    ensures Once(w, e, name, o) == Once(w, e, name, o.(count := c))
    ensures Once(w, e, name, o).Ok? ==>
      var s := Once(w, e, name, o).value.subs[w.nextSub]; s.count == 1 && s.limit == 1
  {
  }

  /** `Keep` is a filter: it keeps the relative order of what it keeps. */
  lemma {:induction false} KeepAppend(store: map<SubId, Sub>, a: seq<SubId>, b: seq<SubId>, l: ListenerId)
    ensures Keep(store, a + b, l) == Keep(store, a, l) + Keep(store, b, l)
  {
    if a != [] {
      assert (a + b)[1..] == a[1..] + b;
      assert (a + b)[0] == a[0];
      KeepAppend(store, a[1..], b, l);
      if a[0] !in store || store[a[0]].listener != l {
        calc {
          Keep(store, a + b, l);
          [a[0]] + Keep(store, a[1..] + b, l);
          [a[0]] + (Keep(store, a[1..], l) + Keep(store, b, l));
          ([a[0]] + Keep(store, a[1..], l)) + Keep(store, b, l);
        }
      }
    } else {
      assert a + b == b;
    }
  }

  /** The filter of one id keeps it exactly when its subscription is not for `l`. */
  lemma KeepOne(store: map<SubId, Sub>, x: SubId, l: ListenerId)
    ensures Keep(store, [x], l) == if x !in store || store[x].listener != l then [x] else []
  {
    assert [x][1..] == [];
  }

  /** Removing a listener that no subscription has keeps the list as it is. */
  lemma {:induction false} KeepNone(store: map<SubId, Sub>, ids: seq<SubId>, l: ListenerId)
    requires forall id :: id in ids ==> id in store && store[id].listener != l
    ensures Keep(store, ids, l) == ids
  {
    if ids != [] {
      KeepNone(store, ids[1..], l);
    }
  }

  /** `Keep` of a list without repeats has no repeats. */
  lemma {:induction false} KeepDistinct(store: map<SubId, Sub>, ids: seq<SubId>, l: ListenerId)
    requires Distinct(ids)
    ensures Distinct(Keep(store, ids, l))
  {
    if ids != [] {
      assert Distinct(ids[1..]) by {
        forall i, j | 0 <= i < j < |ids[1..]| ensures ids[1..][i] != ids[1..][j] {
          assert ids[1..][i] == ids[i + 1] && ids[1..][j] == ids[j + 1];
        }
      }
      KeepDistinct(store, ids[1..], l);
      assert ids[0] !in ids[1..] by {
        forall k | 0 <= k < |ids[1..]| ensures ids[1..][k] != ids[0] {
          assert ids[1..][k] == ids[k + 1];
        }
      }
    }
  }

  /**
   * `w'` differs from `w` only in the list of `e`'s event `name`: every other
   * event, that event's flags, `e`'s queue, batch and cycle, every other emitter
   * and the subscription store are as they were.
   */
  predicate ListOnly(w: World, w': World, e: EmitterId, name: EventName)
    requires e in w.emitters && name in w.emitters[e].events
  {
    && w'.emitters.Keys == w.emitters.Keys && e in w'.emitters
    && w' == w.(emitters := w'.emitters)
    && (forall x :: x in w.emitters && x != e ==> w'.emitters[x] == w.emitters[x])
    && w'.emitters[e] == w.emitters[e].(events := w'.emitters[e].events)
    && w'.emitters[e].events.Keys == w.emitters[e].events.Keys
    && (forall n :: n in w.emitters[e].events && n != name ==> w'.emitters[e].events[n] == w.emitters[e].events[n])
    && w'.emitters[e].events[name].flags == w.emitters[e].events[name].flags
  }

  /**
   * A successful `removeListener` leaves exactly the subscriptions whose listener
   * differs, in their order, and `null` when none remain; nothing else changes,
   * in particular not the snapshot of a cycle in progress.
   */
  lemma RemoveListenerKeeps(w: World, e: EmitterId, name: EventName, l: ListenerId)
    requires e in w.emitters && name in w.emitters[e].events
    ensures RemoveListener(w, e, name, Some(l)).Ok?
    ensures var w' := RemoveListener(w, e, name, Some(l)).value;
      && ListOnly(w, w', e, name)
      && Subscribers(w'.emitters[e].events[name]) == Keep(w.subs, Subscribers(w.emitters[e].events[name]), l)
      && (NullOrNonEmpty(w.emitters[e].events[name]) ==> NullOrNonEmpty(w'.emitters[e].events[name]))
  {
  }

  /**
   * After `removeAllListeners` the event has no subscribers and `hasListeners`
   * is false; nothing else changes, in particular not the snapshot of a cycle
   * in progress.
   */
  lemma RemoveAllEmpties(w: World, e: EmitterId, name: EventName)
    requires e in w.emitters && name in w.emitters[e].events
    ensures RemoveAllListeners(w, e, name).Ok?
    ensures var w' := RemoveAllListeners(w, e, name).value;
      && ListOnly(w, w', e, name)
      && Subscribers(w'.emitters[e].events[name]) == [] && HasListeners(w', e, name) == Ok(false)
  {
  }

  /** On a list that is null or non-empty, `hasListeners` is true iff at least one subscription exists. */
  lemma HasListenersIff(w: World, e: EmitterId, name: EventName)
    requires e in w.emitters && name in w.emitters[e].events
    requires NullOrNonEmpty(w.emitters[e].events[name])
    ensures HasListeners(w, e, name) == Ok(|Subscribers(w.emitters[e].events[name])| > 0)
  {
  }

  /** `Without` is a filter: it keeps the relative order of what it keeps. */
  lemma {:induction false} WithoutAppend(a: seq<SubId>, b: seq<SubId>, id: SubId)
    ensures Without(a + b, id) == Without(a, id) + Without(b, id)
  {
    if a == [] {
      assert a + b == b;
    } else {
      assert (a + b)[1..] == a[1..] + b;
      assert (a + b)[0] == a[0];
      WithoutAppend(a[1..], b, id);
    }
  }

  /** `removeHandler` takes out exactly that subscription and keeps the list null or non-empty. */
  lemma RemoveHandlerExact(en: Entry, id: SubId)
    ensures forall x :: x in Subscribers(RemoveHandler(en, id)) <==> x in Subscribers(en) && x != id
    ensures NullOrNonEmpty(RemoveHandler(en, id))
    ensures RemoveHandler(en, id).flags == en.flags
  {
  }

  /** The source's `removeHandler` throws on a null list; the repaired one agrees with it everywhere else. */
  lemma RemoveHandlerRepair(en: Entry, id: SubId)
    ensures RemoveHandlerAsWritten(en, id).Err? <==> en.subs.None?
    ensures RemoveHandlerAsWritten(en, id).Ok? ==> RemoveHandlerAsWritten(en, id).value == RemoveHandler(en, id)
    ensures en.subs.None? ==> RemoveHandler(en, id) == en
  {
  }
}
