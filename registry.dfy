/**
 * Event registry and link graph: `registerEvent`, `registerPodium` and the
 * constructor. Both registration operations change other emitters than the one
 * they are called on, so they act on the whole world.
 */
module Registry {
  import opened Basics
  import opened State

  /**
   * One entry of the (already flattened) argument of `registerEvent`: a falsy
   * value, an event name, an event object with its `name` and `clone` flag, or
   * another emitter to link. An empty name is falsy as a string and missing as a field.
   */
  datatype EventSpec = Falsy | Name(name: EventName) | Config(name: EventName, clone: bool) | Link(source: EmitterId)

  /** A registration that stops at its first error keeps what it did before it. */
  datatype Outcome = Outcome(world: World, error: Option<Error>)

  /** Only the event tables of emitters may differ, and only by new names. */
  predicate Grows(m: map<EmitterId, Emitter>, m': map<EmitterId, Emitter>) {
    m'.Keys == m.Keys && forall t :: t in m ==> GrowsAt(m[t], m'[t])
  }

  predicate GrowsAt(em: Emitter, em': Emitter) {
    em' == em.(events := em'.events)
    && (forall n :: n in em.events ==> n in em'.events && em'.events[n] == em.events[n])
  }

  /**
   * `this._podiums.forEach(...)` of `registerEvent`: installs `name` with empty
   * subscriptions on every target that lacks it.
   */
  function Install(m: map<EmitterId, Emitter>, targets: seq<EmitterId>, name: EventName, flags: Flags)
    : (r: map<EmitterId, Emitter>)
    requires AllIn(targets, m)
    ensures r.Keys == m.Keys
  {
    if targets == [] then m
    else
      var r0 := Install(m, targets[..|targets| - 1], name, flags);
      var t := targets[|targets| - 1];
      if name in r0[t].events then r0
      else r0[t := r0[t].(events := r0[t].events[name := Entry(None, flags)])]
  }

  /** `Install` keeps every other field and every existing entry of every emitter. */
  lemma {:induction false} InstallGrows(m: map<EmitterId, Emitter>, targets: seq<EmitterId>, name: EventName, flags: Flags)
    requires AllIn(targets, m)
    ensures Grows(m, Install(m, targets, name, flags))
  {
    if targets != [] {
      InstallGrows(m, targets[..|targets| - 1], name, flags);
    }
  }

  /** After `Install`, every target knows `name`. */
  lemma {:induction false} InstallCovers(m: map<EmitterId, Emitter>, targets: seq<EmitterId>, name: EventName, flags: Flags)
    requires AllIn(targets, m)
    ensures forall i :: 0 <= i < |targets| ==> name in Install(m, targets, name, flags)[targets[i]].events
  {
    if targets != [] {
      var front := targets[..|targets| - 1];
      InstallCovers(m, front, name, flags);
      InstallGrows(Install(m, front, name, flags), [], name, flags);
      var r0 := Install(m, front, name, flags);
      var r := Install(m, targets, name, flags);
      forall i | 0 <= i < |targets|
        ensures name in r[targets[i]].events
      {
        if i < |targets| - 1 {
          assert front[i] == targets[i];
          assert name in r0[targets[i]].events;
        }
      }
    }
  }

  /** `Install` changes only targets, and a target only by gaining `name` with empty subscriptions. */
  lemma {:induction false} InstallOnly(m: map<EmitterId, Emitter>, targets: seq<EmitterId>, name: EventName, flags: Flags)
    requires AllIn(targets, m)
    ensures forall t :: t in m && t !in targets ==> Install(m, targets, name, flags)[t] == m[t]
    ensures forall t :: t in m ==> Install(m, targets, name, flags)[t].events.Keys <= m[t].events.Keys + {name}
    ensures forall t :: t in m && name !in m[t].events && name in Install(m, targets, name, flags)[t].events ==>
              Install(m, targets, name, flags)[t].events[name] == Entry(None, flags)
  {
    if targets != [] {
      InstallOnly(m, targets[..|targets| - 1], name, flags);
    }
  }

  /** Registers one new event name on `e` and pushes it one hop into `e`'s link targets. */
  function Define(w: World, e: EmitterId, name: EventName, flags: Flags): (r: Result<World>)
    requires e in w.emitters && AllIn(w.emitters[e].podiums, w.emitters)
    ensures r.Ok? ==> Grows(w.emitters, r.value.emitters) && r.value == w.(emitters := r.value.emitters)
  {
    var em := w.emitters[e];
    if name in em.events then Err(DuplicateEvent)
    else
      var m := w.emitters[e := em.(events := em.events[name := Entry(None, flags)])];
      InstallGrows(m, em.podiums, name, flags);
      GrowsTrans(w.emitters, m, Install(m, em.podiums, name, flags));
      Ok(w.(emitters := Install(m, em.podiums, name, flags)))
  }

  lemma GrowsTrans(a: map<EmitterId, Emitter>, b: map<EmitterId, Emitter>, c: map<EmitterId, Emitter>)
    requires Grows(a, b) && Grows(b, c)
    ensures Grows(a, c)
  {
  }

  /** Growing event tables leaves every link where it was. */
  lemma GrowsLinked(w: World, m: map<EmitterId, Emitter>)
    requires Linked(w) && Grows(w.emitters, m)
    ensures Linked(w.(emitters := m))
  {
    forall e, p | e in m && p in m[e].podiums
      ensures p in m
    {
      assert m[e].podiums == w.emitters[e].podiums;
    }
  }

  /**
   * `registerPodium` for one source: unless `t` is already one of `src`'s link
   * targets, append it and copy into `t` every event `src` knows that `t` lacks.
   */
  function LinkOne(w: World, t: EmitterId, src: EmitterId): (r: World)
    requires t in w.emitters && src in w.emitters
  {
    var s := w.emitters[src];
    if t in s.podiums then w
    else
      var m := w.emitters[src := s.(podiums := s.podiums + [t])];
      var target := m[t];
      w.(emitters := m[t := target.(events := Adopt(target.events, s.events))])
  }

  /** The target's table extended with the source's names it lacks, keeping the source's flags. */
  function Adopt(mine: map<EventName, Entry>, theirs: map<EventName, Entry>): (r: map<EventName, Entry>)
  {
    map n | n in mine.Keys + theirs.Keys :: if n in mine then mine[n] else Entry(None, theirs[n].flags)
  }

  /** `registerPodium(sources)` on `t`: `LinkOne` for each source in turn. */
  function RegisterPodium(w: World, t: EmitterId, sources: seq<EmitterId>): (r: World)
    requires t in w.emitters && AllIn(sources, w.emitters)
    ensures r.emitters.Keys == w.emitters.Keys
    ensures r == w.(emitters := r.emitters)
  {
    if sources == [] then w
    else
      var w0 := RegisterPodium(w, t, sources[..|sources| - 1]);
      LinkOne(w0, t, sources[|sources| - 1])
  }

  /** One entry of `registerEvent`'s argument. */
  function RegisterOne(w: World, e: EmitterId, spec: EventSpec): (r: Result<World>)
    requires e in w.emitters && Linked(w)
    requires spec.Link? ==> spec.source in w.emitters
    ensures r.Ok? ==> r.value.emitters.Keys == w.emitters.Keys && Linked(r.value)
                      && r.value == w.(emitters := r.value.emitters)
  {
    match spec
    case Falsy => Ok(w)
    case Link(src) => RegisterPodiumLinked(w, e, [src]); Ok(RegisterPodium(w, e, [src]))
    case Name(n) =>
      if n == "" then Ok(w)
      else var r := Define(w, e, n, Flags(false)); (if r.Ok? then GrowsLinked(w, r.value.emitters); r else r)
    case Config(n, c) =>
      if n == "" then Err(MissingEventName)
      else var r := Define(w, e, n, Flags(c)); (if r.Ok? then GrowsLinked(w, r.value.emitters); r else r)
  }

  lemma {:induction false} RegisterPodiumLinked(w: World, t: EmitterId, sources: seq<EmitterId>)
    requires t in w.emitters && AllIn(sources, w.emitters) && Linked(w)
    ensures Linked(RegisterPodium(w, t, sources))
  {
    if sources != [] {
      var w0 := RegisterPodium(w, t, sources[..|sources| - 1]);
      RegisterPodiumLinked(w, t, sources[..|sources| - 1]);
      var r := RegisterPodium(w, t, sources);
      assert sources[|sources| - 1] in w0.emitters;
      forall e, p | e in r.emitters && p in r.emitters[e].podiums
        ensures p in r.emitters
      {
        if p !in w0.emitters[e].podiums {
          assert p == t;
        }
      }
    }
  }

  predicate SourcesIn(specs: seq<EventSpec>, w: World) {
    forall i :: 0 <= i < |specs| && specs[i].Link? ==> specs[i].source in w.emitters
  }

  /** `registerEvent(specs)` on `e`: each entry in turn, stopping at the first error. */
  function RegisterEvents(w: World, e: EmitterId, specs: seq<EventSpec>): (r: Outcome)
    requires e in w.emitters && Linked(w) && SourcesIn(specs, w)
    ensures r.world.emitters.Keys == w.emitters.Keys && Linked(r.world)
    ensures r.world == w.(emitters := r.world.emitters)
  {
    if specs == [] then Outcome(w, None)
    else
      var o := RegisterEvents(w, e, specs[..|specs| - 1]);
      if o.error.Some? then o
      else
        match RegisterOne(o.world, e, specs[|specs| - 1])
        case Ok(w1) => Outcome(w1, None)
        case Err(x) => Outcome(o.world, Some(x))
  }

  /** `new Podium(specs)`: a fresh emitter, then `registerEvent(specs)` on it. */
  function Create(w: World, specs: seq<EventSpec>): (r: (EmitterId, Outcome))
    requires Linked(w) && SourcesIn(specs, w)
  {
    var id := w.nextEmitter;
    var w0 := w.(emitters := w.emitters[id := NewEmitter()], nextEmitter := id + 1);
    (id, RegisterEvents(w0, id, specs))
  }
}

module RegistryFacts {
  import opened Basics
  import opened State
  import opened Registry

  /**
   * `registerEvent` with a fresh name succeeds, and only then: the name gets
   * `subs = null` with the given flags, every direct link target knows it
   * afterwards, and no existing entry of any emitter is overwritten.
   */
  lemma DefineInstalls(w: World, e: EmitterId, name: EventName, flags: Flags)
    requires e in w.emitters && AllIn(w.emitters[e].podiums, w.emitters)
    ensures Define(w, e, name, flags).Ok? <==> name !in w.emitters[e].events
    ensures name in w.emitters[e].events ==> Define(w, e, name, flags) == Err(DuplicateEvent)
    ensures var r := Define(w, e, name, flags);
      r.Ok? ==>
        && e in r.value.emitters && name in r.value.emitters[e].events
        && r.value.emitters[e].events[name] == Entry(None, flags)
        && (forall i :: 0 <= i < |w.emitters[e].podiums| ==> name in r.value.emitters[w.emitters[e].podiums[i]].events)
        && (forall t, n :: t in w.emitters && n in w.emitters[t].events ==> r.value.emitters[t].events[n] == w.emitters[t].events[n])
  {
    var em := w.emitters[e];
    if name !in em.events {
      var m := w.emitters[e := em.(events := em.events[name := Entry(None, flags)])];
      InstallCovers(m, em.podiums, name, flags);
      InstallGrows(m, em.podiums, name, flags);
      InstallOnly(m, em.podiums, name, flags);
      assert m[e].events[name] == Entry(None, flags);
      forall i | 0 <= i < |em.podiums|
        ensures name in Define(w, e, name, flags).value.emitters[em.podiums[i]].events
      {
      }
    }
  }

  /** Falsy entries are skipped; an event object without a name is refused; a link is delegated. */
  lemma RegisterOneCases(w: World, e: EmitterId, spec: EventSpec)
    requires e in w.emitters && Linked(w)
    requires spec.Link? ==> spec.source in w.emitters
    ensures spec.Falsy? || spec == Name("") ==> RegisterOne(w, e, spec) == Ok(w)
    ensures spec.Config? && spec.name == "" ==> RegisterOne(w, e, spec) == Err(MissingEventName)
    ensures spec.Link? ==> RegisterOne(w, e, spec) == Ok(LinkOne(w, e, spec.source))
    ensures spec.Name? && spec.name != "" ==> RegisterOne(w, e, spec) == Define(w, e, spec.name, Flags(false))
  {
    if spec.Link? {
      assert [spec.source][..0] == [];
      assert RegisterPodium(w, e, [spec.source]) == LinkOne(w, e, spec.source);
    }
  }

  /** Once an entry of `registerEvent` has failed, later entries change nothing: the earlier ones stay registered. */
  lemma {:induction false} RegisterEventsStops(w: World, e: EmitterId, specs: seq<EventSpec>, k: nat)
    requires e in w.emitters && Linked(w) && SourcesIn(specs, w)
    requires k <= |specs|
    requires RegisterEvents(w, e, specs[..k]).error.Some?
    ensures RegisterEvents(w, e, specs) == RegisterEvents(w, e, specs[..k])
  {
    if k < |specs| {
      assert specs[..|specs| - 1][..k] == specs[..k];
      RegisterEventsStops(w, e, specs[..|specs| - 1], k);
    } else {
      assert specs[..k] == specs;
    }
  }

  /** While no entry has failed, `registerEvent` over one more entry is that entry on the world so far. */
  lemma RegisterEventsNext(w: World, e: EmitterId, specs: seq<EventSpec>, i: nat)
    requires e in w.emitters && Linked(w) && SourcesIn(specs, w) && i < |specs|
    requires RegisterEvents(w, e, specs[..i]).error.None?
    ensures var o := RegisterEvents(w, e, specs[..i]);
      && (specs[i].Link? ==> specs[i].source in o.world.emitters)
      && RegisterEvents(w, e, specs[..i + 1]) ==
           match RegisterOne(o.world, e, specs[i])
           case Ok(w1) => Outcome(w1, None)
           case Err(x) => Outcome(o.world, Some(x))
  {
    assert specs[..i + 1][..i] == specs[..i];
    assert SourcesIn(specs[..i], w);
  }

  /** Linking a source that already has `t` as a target changes nothing. */
  lemma LinkOneAlreadyLinked(w: World, t: EmitterId, src: EmitterId)
    requires t in w.emitters && src in w.emitters
    requires t in w.emitters[src].podiums
    ensures LinkOne(w, t, src) == w
  {
  }

  /** Linking is idempotent. */
  lemma LinkOneIdempotent(w: World, t: EmitterId, src: EmitterId)
    requires t in w.emitters && src in w.emitters
    ensures LinkOne(LinkOne(w, t, src), t, src) == LinkOne(w, t, src)
  {
    var r := LinkOne(w, t, src);
    assert t in r.emitters[src].podiums;
  }

  /** Registering the same source twice in one call is the same as once. */
  lemma RegisterPodiumTwice(w: World, t: EmitterId, src: EmitterId)
    requires t in w.emitters && src in w.emitters
    ensures RegisterPodium(w, t, [src, src]) == RegisterPodium(w, t, [src])
  {
    assert [src, src][..1] == [src];
    assert [src][..0] == [];
    LinkOneIdempotent(w, t, src);
  }

  /**
   * A new link appends `t` once to the source's targets, makes `t` know every
   * event the source knows, keeps `t`'s existing entries, gives each adopted name
   * empty subscriptions with the source's flags, and changes no other emitter.
   */
  lemma LinkOneCopies(w: World, t: EmitterId, src: EmitterId)
    requires t in w.emitters && src in w.emitters
    requires t !in w.emitters[src].podiums
    ensures var r := LinkOne(w, t, src);
      && r.emitters.Keys == w.emitters.Keys
      && r.emitters[src].podiums == w.emitters[src].podiums + [t]
      && w.emitters[src].events.Keys <= r.emitters[t].events.Keys
      && r.emitters[t].events.Keys == w.emitters[t].events.Keys + w.emitters[src].events.Keys
      && (forall n :: n in w.emitters[t].events ==> r.emitters[t].events[n] == w.emitters[t].events[n])
      && (forall n :: n in w.emitters[src].events && n !in w.emitters[t].events ==>
            r.emitters[t].events[n] == Entry(None, w.emitters[src].events[n].flags))
      && (forall x :: x in w.emitters && x != t && x != src ==> r.emitters[x] == w.emitters[x])
      && (t != src ==> r.emitters[src] == w.emitters[src].(podiums := w.emitters[src].podiums + [t]))
      && (t != src ==> r.emitters[t] == w.emitters[t].(events := r.emitters[t].events))
      && r == w.(emitters := r.emitters)
  {
  }
}
