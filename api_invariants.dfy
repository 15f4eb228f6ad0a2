/** The public operations keep the world invariant `State.Inv`. */
module ApiInvariants {
  import opened Basics
  import opened State
  import opened Listeners
  import opened Registry
  import opened Dispatch
  import opened Invariants
  import opened ListenersFacts
  import opened RegistryFacts

  /** A store that only gained entries leaves every emitter well-formed. */
  lemma EmitterOkExtend(subs: map<SubId, Sub>, subs': map<SubId, Sub>, x: EmitterId, em: Emitter)
    requires EmitterOk(subs, x, em)
    requires forall id :: id in subs ==> id in subs' && subs'[id] == subs[id]
    ensures EmitterOk(subs', x, em)
  {
    forall name | name in em.events
      ensures EntryOk(subs', x, name, em.events[name])
    {
      assert EntryOk(subs, x, name, em.events[name]);
    }
  }

  /** Appending a fresh live subscription of `e`'s event `name` keeps `e` well-formed. */
  lemma AppendOk(subs: map<SubId, Sub>, e: EmitterId, em: Emitter, name: EventName, id: SubId, sub: Sub)
    requires EmitterOk(subs, e, em) && name in em.events && id !in subs
    requires sub.owner == e && sub.event == name && Live(sub)
    ensures var en := em.events[name];
      EmitterOk(subs[id := sub], e, em.(events := em.events[name := en.(subs := Some(Subscribers(en) + [id]))]))
  {
    var en := em.events[name];
    assert EntryOk(subs, e, name, en);
    var list := Subscribers(en) + [id];
    assert id !in Subscribers(en);
    assert Distinct(list);
    var subs' := subs[id := sub];
    assert Members(subs', e, name, list);
    EmitterOkExtend(subs, subs', e, em);
    var em' := em.(events := em.events[name := en.(subs := Some(list))]);
    forall n | n in em'.events
      ensures EntryOk(subs', e, n, em'.events[n])
    {
      if n != name {
        assert EntryOk(subs', e, n, em.events[n]);
      }
    }
  }

  /** Replacing one emitter and growing the store keeps the invariant. */
  lemma ReplaceEmitterGrow(w: World, e: EmitterId, em': Emitter, w': World)
    requires Inv(w) && e in w.emitters
    requires w'.emitters == w.emitters[e := em'] && w'.nextEmitter == w.nextEmitter
    requires forall id :: id in w.subs ==> id in w'.subs && w'.subs[id] == w.subs[id]
    requires StoreIn(w'.subs, w'.nextSub)
    requires EmitterOk(w'.subs, e, em') && em'.podiums == w.emitters[e].podiums
    ensures Inv(w')
  {
    forall x | x in w'.emitters
      ensures x < w'.nextEmitter && EmitterOk(w'.subs, x, w'.emitters[x])
    {
      if x != e {
        assert EmitterOk(w.subs, x, w.emitters[x]);
        EmitterOkExtend(w.subs, w'.subs, x, w.emitters[x]);
      }
    }
    LinkedFrame(w, w');
  }

  /** `on` keeps the invariant. */
  lemma OnInv(w: World, e: EmitterId, name: EventName, o: Options)
    requires Inv(w) && e in w.emitters
    requires On(w, e, name, o).Ok?
    ensures Inv(On(w, e, name, o).value)
  {
    var id := w.nextSub;
    var em := w.emitters[e];
    var limit: nat := if o.count.Some? then o.count.value else 0;
    var sub := Sub(o.listener.value, limit, BlockOf(o.block), o.clone, e, name, limit, 0);
    var en := em.events[name];
    var em' := em.(events := em.events[name := en.(subs := Some(Subscribers(en) + [id]))]);
    var w' := w.(emitters := w.emitters[e := em'], subs := w.subs[id := sub], nextSub := id + 1);
    assert On(w, e, name, o).value == w';
    assert id !in w.subs;
    assert EmitterOk(w.subs, e, em);
    AppendOk(w.subs, e, em, name, id, sub);
    assert StoreIn(w'.subs, w'.nextSub);
    ReplaceEmitterGrow(w, e, em', w');
  }

  /** `removeListener` keeps the invariant. */
  lemma RemoveListenerInv(w: World, e: EmitterId, name: EventName, l: Option<ListenerId>)
    requires Inv(w) && e in w.emitters
    requires RemoveListener(w, e, name, l).Ok?
    ensures Inv(RemoveListener(w, e, name, l).value)
  {
    var em := w.emitters[e];
    assert EmitterOk(w.subs, e, em);
    var en := em.events[name];
    if en.subs.Some? {
      assert EntryOk(w.subs, e, name, en);
      KeepDistinct(w.subs, en.subs.value, l.value);
      var en' := en.(subs := Normalize(Keep(w.subs, en.subs.value, l.value)));
      assert EntryOk(w.subs, e, name, en');
      var em' := em.(events := em.events[name := en']);
      assert EmitterOk(w.subs, e, em');
      ReplaceEmitter(w, e, em', RemoveListener(w, e, name, l).value);
    }
  }

  /** `removeAllListeners` keeps the invariant. */
  lemma RemoveAllInv(w: World, e: EmitterId, name: EventName)
    requires Inv(w) && e in w.emitters
    requires RemoveAllListeners(w, e, name).Ok?
    ensures Inv(RemoveAllListeners(w, e, name).value)
  {
    var em := w.emitters[e];
    assert EmitterOk(w.subs, e, em);
    var em' := em.(events := em.events[name := em.events[name].(subs := None)]);
    assert EmitterOk(w.subs, e, em');
    ReplaceEmitter(w, e, em', RemoveAllListeners(w, e, name).value);
  }

  /** Event tables that only gained names with empty subscriptions keep the invariant. */
  lemma GrowsInv(w: World, m: map<EmitterId, Emitter>)
    requires Inv(w) && Grows(w.emitters, m)
    requires forall t, n :: t in m && n in m[t].events && n !in w.emitters[t].events ==> m[t].events[n].subs.None?
    ensures Inv(w.(emitters := m))
  {
    forall t | t in m
      ensures t < w.nextEmitter && EmitterOk(w.subs, t, m[t])
    {
      var em := w.emitters[t];
      assert EmitterOk(w.subs, t, em);
      assert GrowsAt(em, m[t]);
      forall n | n in m[t].events
        ensures EntryOk(w.subs, t, n, m[t].events[n])
      {
        if n in em.events {
          assert EntryOk(w.subs, t, n, em.events[n]);
        }
      }
      assert Known(m[t].events, em.batch) && Known(m[t].events, em.queue);
    }
    GrowsLinked(w, m);
  }

  lemma DefineInv(w: World, e: EmitterId, name: EventName, flags: Flags)
    requires Inv(w) && e in w.emitters
    requires Define(w, e, name, flags).Ok?
    ensures Inv(Define(w, e, name, flags).value)
  {
    var em := w.emitters[e];
    var m := w.emitters[e := em.(events := em.events[name := Entry(None, flags)])];
    var r := Install(m, em.podiums, name, flags);
    assert Define(w, e, name, flags).value.emitters == r;
    DefineFresh(w.emitters, e, name, flags, m, r);
    GrowsInv(w, r);
  }

  /** Every entry `registerEvent` creates, on the emitter or on a link target, starts with no subscriptions. */
  lemma DefineFresh(before: map<EmitterId, Emitter>, e: EmitterId, name: EventName, flags: Flags,
                    m: map<EmitterId, Emitter>, r: map<EmitterId, Emitter>)
    requires e in before && AllIn(before[e].podiums, before) && name !in before[e].events
    requires m == before[e := before[e].(events := before[e].events[name := Entry(None, flags)])]
    requires r == Install(m, before[e].podiums, name, flags)
    ensures forall t, n :: t in r && n in r[t].events && n !in before[t].events ==> r[t].events[n].subs.None?
  {
    InstallOnly(m, before[e].podiums, name, flags);
    InstallGrows(m, before[e].podiums, name, flags);
    forall t, n | t in r && n in r[t].events && n !in before[t].events
      ensures r[t].events[n].subs.None?
    {
      assert n in m[t].events.Keys + {name};
      if t == e {
        assert GrowsAt(m[t], r[t]);
      } else {
        assert m[t] == before[t];
      }
    }
  }

  /** Adopting another emitter's names, with empty subscriptions, keeps an emitter well-formed. */
  lemma AdoptOk(subs: map<SubId, Sub>, t: EmitterId, em: Emitter, theirs: map<EventName, Entry>)
    requires EmitterOk(subs, t, em)
    ensures EmitterOk(subs, t, em.(events := Adopt(em.events, theirs)))
  {
    var events := Adopt(em.events, theirs);
    forall n | n in events
      ensures EntryOk(subs, t, n, events[n])
    {
      if n in em.events {
        assert EntryOk(subs, t, n, em.events[n]);
      }
    }
    assert Known(events, em.batch) && Known(events, em.queue);
  }

  /** Putting a well-formed emitter at a key keeps the table well-formed. */
  lemma PutOk(emitters: map<EmitterId, Emitter>, subs: map<SubId, Sub>, nextEmitter: nat, x: EmitterId, em: Emitter)
    requires EmittersOk(emitters, subs, nextEmitter) && x < nextEmitter && EmitterOk(subs, x, em)
    ensures EmittersOk(emitters[x := em], subs, nextEmitter)
  {
    var m := emitters[x := em];
    forall y | y in m
      ensures y < nextEmitter && EmitterOk(subs, y, m[y])
    {
      if y != x {
        assert EmitterOk(subs, y, emitters[y]);
      }
    }
  }

  /** Adding `t` to a podium list of an existing emitter keeps podiums inside the table. */
  lemma PodiumPutLinks(emitters: map<EmitterId, Emitter>, src: EmitterId, t: EmitterId)
    requires LinksIn(emitters) && src in emitters && t in emitters
    ensures LinksIn(emitters[src := emitters[src].(podiums := emitters[src].podiums + [t])])
  {
  }

  /** Changing only an emitter's event table keeps podiums inside the table. */
  lemma EventsPutLinks(emitters: map<EmitterId, Emitter>, t: EmitterId, events: map<EventName, Entry>)
    requires LinksIn(emitters) && t in emitters
    ensures LinksIn(emitters[t := emitters[t].(events := events)])
  {
    var m := emitters[t := emitters[t].(events := events)];
    forall x, p | x in m && p in m[x].podiums
      ensures p in m
    {
      assert m[x].podiums == emitters[x].podiums;
    }
  }

  /** Linking keeps the invariant. */
  lemma LinkOneInv(w: World, t: EmitterId, src: EmitterId)
    requires Inv(w) && t in w.emitters && src in w.emitters
    ensures Inv(LinkOne(w, t, src))
  {
    var s := w.emitters[src];
    if t !in s.podiums {
      var m1 := w.emitters[src := s.(podiums := s.podiums + [t])];
      assert EmitterOk(w.subs, src, s);
      assert EmitterOk(w.subs, src, m1[src]);
      PutOk(w.emitters, w.subs, w.nextEmitter, src, m1[src]);
      PodiumPutLinks(w.emitters, src, t);
      assert EmitterOk(w.subs, t, m1[t]);
      AdoptOk(w.subs, t, m1[t], s.events);
      var m2 := m1[t := m1[t].(events := Adopt(m1[t].events, s.events))];
      PutOk(m1, w.subs, w.nextEmitter, t, m2[t]);
      EventsPutLinks(m1, t, Adopt(m1[t].events, s.events));
      assert LinkOne(w, t, src) == w.(emitters := m2);
    }
  }

  lemma {:induction false} RegisterPodiumInv(w: World, t: EmitterId, sources: seq<EmitterId>)
    requires Inv(w) && t in w.emitters && AllIn(sources, w.emitters)
    ensures Inv(RegisterPodium(w, t, sources))
  {
    if sources != [] {
      RegisterPodiumInv(w, t, sources[..|sources| - 1]);
      LinkOneInv(RegisterPodium(w, t, sources[..|sources| - 1]), t, sources[|sources| - 1]);
    }
  }

  lemma RegisterOneInv(w: World, e: EmitterId, spec: EventSpec)
    requires Inv(w) && e in w.emitters
    requires spec.Link? ==> spec.source in w.emitters
    requires RegisterOne(w, e, spec).Ok?
    ensures Inv(RegisterOne(w, e, spec).value)
  {
    match spec
    case Falsy =>
    case Link(src) => RegisterPodiumInv(w, e, [src]);
    case Name(n) => if n != "" { DefineInv(w, e, n, Flags(false)); }
    case Config(n, c) => DefineInv(w, e, n, Flags(c));
  }

  /** `registerEvent` keeps the invariant, whether or not one of its entries fails. */
  lemma {:induction false} RegisterEventsInv(w: World, e: EmitterId, specs: seq<EventSpec>)
    requires Inv(w) && e in w.emitters && SourcesIn(specs, w)
    ensures Inv(RegisterEvents(w, e, specs).world)
  {
    if specs != [] {
      var front := specs[..|specs| - 1];
      assert SourcesIn(front, w);
      RegisterEventsInv(w, e, front);
      var o := RegisterEvents(w, e, front);
      if o.error.None? {
        var last := specs[|specs| - 1];
        if RegisterOne(o.world, e, last).Ok? {
          RegisterOneInv(o.world, e, last);
        }
      }
    }
  }

  /** A fresh emitter is well-formed. */
  lemma NewEmitterOk(subs: map<SubId, Sub>, id: EmitterId)
    ensures EmitterOk(subs, id, NewEmitter())
  {
    assert Ids([]) == [];
  }

  /** Adding a fresh emitter keeps the table well-formed and closed under podiums. */
  lemma AddEmitterOk(emitters: map<EmitterId, Emitter>, subs: map<SubId, Sub>, id: EmitterId)
    requires EmittersOk(emitters, subs, id) && LinksIn(emitters)
    ensures EmittersOk(emitters[id := NewEmitter()], subs, id + 1)
    ensures LinksIn(emitters[id := NewEmitter()])
  {
    NewEmitterOk(subs, id);
    var m := emitters[id := NewEmitter()];
    forall y | y in m
      ensures y < id + 1 && EmitterOk(subs, y, m[y])
    {
      if y != id {
        assert EmitterOk(subs, y, emitters[y]);
      }
    }
    forall x, p | x in m && p in m[x].podiums
      ensures p in m
    {
      assert x != id;
      assert p in emitters;
    }
  }

  /** Sources that exist keep existing when the table only grows. */
  lemma SourcesInGrow(specs: seq<EventSpec>, w: World, w': World)
    requires SourcesIn(specs, w) && w.emitters.Keys <= w'.emitters.Keys
    ensures SourcesIn(specs, w')
  {
  }

  /** The world with one fresh emitter added keeps the invariant. */
  lemma AddEmitterInv(w: World)
    requires Inv(w)
    ensures Inv(w.(emitters := w.emitters[w.nextEmitter := NewEmitter()], nextEmitter := w.nextEmitter + 1))
  {
    AddEmitterOk(w.emitters, w.subs, w.nextEmitter);
  }

  /** The constructor keeps the invariant. */
  lemma CreateInv(w: World, specs: seq<EventSpec>)
    requires Inv(w) && SourcesIn(specs, w)
    ensures Inv(Create(w, specs).1.world)
  {
    var id := w.nextEmitter;
    var w0 := w.(emitters := w.emitters[id := NewEmitter()], nextEmitter := id + 1);
    assert Create(w, specs).1 == RegisterEvents(w0, id, specs);
    AddEmitterInv(w);
    SourcesInGrow(specs, w, w0);
    RegisterEventsInv(w0, id, specs);
  }
}
