/**
 * `internals.removeHandler` reads the event's list without a null check. A
 * listener that calls `removeAllListeners` sets the list to `null` while the
 * cycle still holds its snapshot; when the snapshot then reaches a sibling
 * subscribed with `count: 1`, the decrement reaches 0 and `removeHandler`
 * calls `filter` on `null`. The schedule below reaches that state from no
 * emitters at all.
 */
module Findings {
  import opened Basics
  import opened State
  import opened Listeners
  import opened Registry
  import opened Dispatch
  import opened Steps

  /** A plain listener and a `count: 1` listener on `x`; emit; the first handler clears the list. */
  function Scenario(): seq<Step> {
    [ New([Name("x")]),
      Subscribe(0, "x", Options(Some(7), None, Unset, false)),
      Subscribe(0, "x", Options(Some(8), Some(1), Unset, false)),
      Publish(0, "x", 5, Ignore),
      BeginItem(0),
      DeliverNext(0),
      UnsubscribeAll(0, "x") ]
  }

  const A := Options(Some(7), None, Unset, false)
  const B := Options(Some(8), Some(1), Unset, false)
  const Item := Notification(0, "x", 5, Ignore)

  /* The world after each step of the scenario. */

  function Blank(): Emitter {
    Emitter(map["x" := Entry(None, Flags(false))], [], false, [], [], None, 0, [], [])
  }

  function Defined(): World {
    World(map[0 := Blank()], map[], map[], 1, 0, 0, 0, [], [])
  }

  function FirstOn(): World {
    Defined().(emitters := map[0 := Blank().(events := map["x" := Entry(Some([0]), Flags(false))])],
               subs := map[0 := Sub(7, 0, NoBlock, false, 0, "x", 0, 0)], nextSub := 1)
  }

  function Listed(): Emitter {
    Blank().(events := map["x" := Entry(Some([0, 1]), Flags(false))])
  }

  function SecondOn(): World {
    FirstOn().(emitters := map[0 := Listed()],
               subs := map[0 := Sub(7, 0, NoBlock, false, 0, "x", 0, 0), 1 := Sub(8, 1, NoBlock, false, 0, "x", 1, 0)],
               nextSub := 2)
  }

  function Queued(): World {
    SecondOn().(emitters := map[0 := Listed().(processing := true, batch := [Item], issued := [0])], nextNote := 1)
  }

  function Started(): World {
    Queued().(emitters := map[0 := Queued().emitters[0].(cycle := Some(Cycle(0, [0, 1], 0, 0, map[])), cycles := 1)])
  }

  function FirstHanded(): World {
    Started().(emitters := map[0 := Started().emitters[0].(cycle := Some(Cycle(0, [0, 1], 1, 1, map[])))],
               subs := Started().subs[0 := Sub(7, 0, NoBlock, false, 0, "x", 0, 1)],
               deliveries := [Delivery(0, 0, 7, "x", 5, false)])
  }

  /** The emitter of the scenario once the list is cleared and the cycle waits at the `count: 1` subscription. */
  function Cleared(): Emitter {
    Emitter(map["x" := Entry(None, Flags(false))], [], true, [],
            [Item], Some(Cycle(0, [0, 1], 1, 1, map[])), 1, [0], [])
  }

  lemma DefineStep()
    ensures Enabled(NoEmitters, Scenario()[0]) && Next(NoEmitters, Scenario()[0]) == Outcome(Defined(), None)
  {
    DefineCreates();
  }

  lemma DefineCreates()
    ensures Create(NoEmitters, [Name("x")]).1 == Outcome(Defined(), None)
  {
    var e0 := NoEmitters.(emitters := map[0 := NewEmitter()], nextEmitter := 1);
    assert Create(NoEmitters, [Name("x")]).1 == RegisterEvents(e0, 0, [Name("x")]);
    assert RegisterEvents(e0, 0, [Name("x")][..0]) == Outcome(e0, None) by {
      assert [Name("x")][..0] == [];
    }
    assert Define(e0, 0, "x", Flags(false)) == Ok(Defined()) by {
      assert NewEmitter().events["x" := Entry(None, Flags(false))] == Blank().events;
      assert e0.emitters[0 := Blank()] == Defined().emitters;
    }
  }

  lemma FirstOnStep()
    ensures Enabled(Defined(), Scenario()[1]) && Next(Defined(), Scenario()[1]) == Outcome(FirstOn(), None)
  {
    assert [] + [0] == [0];
    assert Blank().events["x" := Entry(Some([0]), Flags(false))] == FirstOn().emitters[0].events;
    assert Defined().emitters[0 := FirstOn().emitters[0]] == FirstOn().emitters;
    assert On(Defined(), 0, "x", A) == Ok(FirstOn());
  }

  lemma SecondOnStep()
    ensures Enabled(FirstOn(), Scenario()[2]) && Next(FirstOn(), Scenario()[2]) == Outcome(SecondOn(), None)
  {
    assert [0] + [1] == [0, 1];
    assert FirstOn().emitters[0].events["x" := Entry(Some([0, 1]), Flags(false))] == Listed().events;
    assert FirstOn().emitters[0 := Listed()] == SecondOn().emitters;
    assert FirstOn().subs[1 := Sub(8, 1, NoBlock, false, 0, "x", 1, 0)] == SecondOn().subs;
    assert On(FirstOn(), 0, "x", B) == Ok(SecondOn());
  }

  lemma PublishStep()
    ensures Enabled(SecondOn(), Scenario()[3]) && Next(SecondOn(), Scenario()[3]) == Outcome(Queued(), None)
  {
    assert [] + [Item] == [Item] && [] + [0] == [0];
    assert SecondOn().emitters[0 := Queued().emitters[0]] == Queued().emitters;
    assert Emit(SecondOn(), 0, "x", 5, Ignore) == Ok(Queued());
  }

  lemma BeginStep()
    ensures Enabled(Queued(), Scenario()[4]) && Next(Queued(), Scenario()[4]) == Outcome(Started(), None)
  {
    assert Queued().emitters[0 := Started().emitters[0]] == Started().emitters;
    assert Begin(Queued(), 0) == Ok(Started());
  }

  lemma DeliverStep()
    ensures Enabled(Started(), Scenario()[5]) && Next(Started(), Scenario()[5]) == Outcome(FirstHanded(), None)
  {
    assert Started().emitters[0 := FirstHanded().emitters[0]] == FirstHanded().emitters;
    assert Handed(Started(), 0) == FirstHanded();
    assert Deliver(Started(), 0) == Ok(FirstHanded());
  }

  lemma ClearStep()
    ensures Enabled(FirstHanded(), Scenario()[6])
    ensures Next(FirstHanded(), Scenario()[6]) == Outcome(FirstHanded().(emitters := map[0 := Cleared()]), None)
  {
    assert FirstHanded().emitters[0].events["x" := Entry(None, Flags(false))] == Cleared().events;
    assert FirstHanded().emitters[0 := Cleared()] == map[0 := Cleared()];
  }

  /** One more step of a schedule whose prefix is known. */
  lemma RunExtends(steps: seq<Step>, k: nat, before: World, after: World)
    requires k < |steps| && Run(NoEmitters, steps[..k]) == before
    requires Enabled(before, steps[k]) && Next(before, steps[k]).world == after
    ensures Run(NoEmitters, steps[..k + 1]) == after
  {
    assert steps[..k + 1][..k] == steps[..k];
  }

  /** The schedule up to the emit. */
  lemma RunSubscribed()
    ensures Run(NoEmitters, Scenario()[..3]) == SecondOn()
  {
    var s := Scenario();
    assert s[..0] == [];
    DefineStep();
    RunExtends(s, 0, NoEmitters, Defined());
    FirstOnStep();
    RunExtends(s, 1, Defined(), FirstOn());
    SecondOnStep();
    RunExtends(s, 2, FirstOn(), SecondOn());
  }

  /** The schedule up to the first delivery. */
  lemma RunStarted()
    ensures Run(NoEmitters, Scenario()[..5]) == Started()
  {
    var s := Scenario();
    RunSubscribed();
    PublishStep();
    RunExtends(s, 3, SecondOn(), Queued());
    BeginStep();
    RunExtends(s, 4, Queued(), Started());
  }

  /** The schedule up to the clearing listener. */
  lemma RunHanded()
    ensures Run(NoEmitters, Scenario()[..6]) == FirstHanded()
  {
    RunStarted();
    DeliverStep();
    RunExtends(Scenario(), 5, Started(), FirstHanded());
  }

  /** The whole schedule. */
  lemma RunScenario()
    ensures Run(NoEmitters, Scenario()) == FirstHanded().(emitters := map[0 := Cleared()])
  {
    var s := Scenario();
    RunHanded();
    ClearStep();
    RunExtends(s, 6, FirstHanded(), FirstHanded().(emitters := map[0 := Cleared()]));
    assert s[..7] == s;
  }

  /**
   * The scenario is a legal schedule, and it ends where the next delivery
   * must remove a subscription from a `null` list: the source's
   * `removeHandler` throws there, the null-tolerant one lets the cycle go on
   * and completes the item.
   */
  lemma NullListReachable()
    ensures var w := Run(NoEmitters, Scenario());
      && w.emitters == map[0 := Cleared()]
      && CanDeliver(w, 0)
      && w.subs[1].count == 1
      && RemoveHandlerAsWritten(w.emitters[0].events["x"], 1) == Err(NullSubscribers)
      && Deliver(w, 0).Ok?
      && Deliver(w, 0).value.emitters[0].completed == [0]
  {
    RunScenario();
    var w := Run(NoEmitters, Scenario());
    assert Handed(w, 0).emitters[0].cycle == Some(Cycle(0, [0, 1], 2, 2, map[]));
  }
}
