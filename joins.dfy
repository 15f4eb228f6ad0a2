/**
 * The bookkeeping of a parallel emit over link targets (`Items.parallel` in
 * `internals.distribute`): a join is opened with one count per target, every
 * target's copy of the notification carries the join's `next`, and the
 * original callback runs when the count runs out.
 *
 * The invariant `JoinsOk` says that each open join's count is exactly the
 * number of things still bound to report to it: notifications pending on some
 * emitter whose callback ends in that join's `next` (directly, or through a
 * fan-out wrapper of a target that has link targets of its own), and nested
 * joins whose final callback does. From it: a join's `next` never runs on a
 * closed join, the final callback runs in the call that brings the count to
 * zero and exactly then nothing else reports to the join, and a closed join is
 * never opened again.
 */
module Joins {
  import opened Basics
  import opened State
  import opened Dispatch
  import opened DispatchFacts
  import opened Listeners

  /** The join a callback reports to when it runs, looking through fan-out wrappers. */
  function Target(cb: Callback): Option<JoinId>
  {
    match cb
    case Ignore => None
    case User(_) => None
    case Fanout(_, _, _, fin) => Target(fin)
    case JoinNext(j) => Some(j)
  }

  function Leads(cb: Callback, j: JoinId): nat {
    if Target(cb) == Some(j) then 1 else 0
  }

  /** How many of `ns` report to join `j` when they complete. */
  function Owed(ns: seq<Notification>, j: JoinId): nat {
    if ns == [] then 0 else Owed(ns[..|ns| - 1], j) + Leads(ns[|ns| - 1].callback, j)
  }

  /** The notifications not yet completed on emitter `e`, none if there is no such emitter. */
  function Pending(m: map<EmitterId, Emitter>, e: EmitterId): seq<Notification> {
    if e in m then Backlog(m[e]) else []
  }

  /** The notifications pending on the emitters below `k` that report to `j`. */
  function NoteDebt(m: map<EmitterId, Emitter>, j: JoinId, k: nat): nat {
    if k == 0 then 0 else NoteDebt(m, j, k - 1) + Owed(Pending(m, k - 1), j)
  }

  function Finalizer(joins: map<JoinId, Join>, x: JoinId): Callback {
    if x in joins then joins[x].finalize else Ignore
  }

  /** The open joins below `k` whose final callback reports to `j`. */
  function JoinDebt(joins: map<JoinId, Join>, j: JoinId, k: nat): nat {
    if k == 0 then 0 else JoinDebt(joins, j, k - 1) + Leads(Finalizer(joins, k - 1), j)
  }

  /** Everything still bound to report to join `j`. */
  function Debt(w: World, j: JoinId): nat {
    NoteDebt(w.emitters, j, w.nextEmitter) + JoinDebt(w.joins, j, w.nextJoin)
  }

  /** The count of join `j`: what it still waits for, nothing once it is closed. */
  function Due(w: World, j: JoinId): nat {
    if j in w.joins then w.joins[j].remaining else 0
  }

  /** Open joins have ids already handed out and a positive count. */
  predicate JoinBounds(w: World) {
    forall j :: j in w.joins ==> j < w.nextJoin && w.joins[j].remaining > 0
  }

  /** The parts of the world invariant the join accounting leans on, with the join bounds. */
  predicate Orderly(w: World) {
    (forall x :: x in w.emitters ==> x < w.nextEmitter) && Drained(w.emitters) && JoinBounds(w)
  }

  /** With `cb` about to run, every join's count is what still reports to it, `cb` included. */
  ghost predicate Owes(w: World, cb: Callback) {
    JoinBounds(w) && forall j :: Debt(w, j) + Leads(cb, j) == Due(w, j)
  }

  /** The join invariant: every join's count is exactly what still reports to it. */
  ghost predicate JoinsOk(w: World) {
    JoinBounds(w) && forall j :: Debt(w, j) == Due(w, j)
  }

  /** Join ids only grow, and every join open afterwards was open before or is new. */
  predicate Fresh(w: World, w': World) {
    w.nextJoin <= w'.nextJoin && forall x :: x in w'.joins ==> x in w.joins || x >= w.nextJoin
  }

  /** Nothing pending and no open join reports to `j`. */
  predicate Clear(w: World, j: JoinId) {
    && (forall e, i :: e in w.emitters && 0 <= i < |Backlog(w.emitters[e])| ==> Target(Backlog(w.emitters[e])[i].callback) != Some(j))
    && (forall x :: x in w.joins ==> Target(w.joins[x].finalize) != Some(j))
  }

  /* ---------- the sums ---------- */

  lemma {:induction false} OwedAppend(a: seq<Notification>, b: seq<Notification>, j: JoinId)
    ensures Owed(a + b, j) == Owed(a, j) + Owed(b, j)
    decreases |b|
  {
    if b == [] {
      assert a + b == a;
    } else {
      var front := b[..|b| - 1];
      assert (a + b)[..|a + b| - 1] == a + front;
      OwedAppend(a, front, j);
    }
  }

  lemma OwedOne(n: Notification, j: JoinId)
    ensures Owed([n], j) == Leads(n.callback, j)
  {
    assert [n][..0] == [];
  }

  /** No notification of `ns` reports to `j` exactly when none is counted. */
  lemma {:induction false} OwedZero(ns: seq<Notification>, j: JoinId)
    ensures Owed(ns, j) == 0 <==> forall i :: 0 <= i < |ns| ==> Target(ns[i].callback) != Some(j)
  {
    if ns != [] {
      var front := ns[..|ns| - 1];
      OwedZero(front, j);
      if Owed(ns, j) == 0 {
        forall i | 0 <= i < |ns| ensures Target(ns[i].callback) != Some(j) {
          if i < |front| { assert ns[i] == front[i]; }
        }
      } else if Owed(front, j) > 0 {
        var i :| 0 <= i < |front| && Target(front[i].callback) == Some(j);
        assert ns[i] == front[i];
      }
    }
  }

  lemma {:induction false} NoteDebtFrame(m: map<EmitterId, Emitter>, m': map<EmitterId, Emitter>, j: JoinId, k: nat)
    requires forall i :: 0 <= i < k ==> Pending(m', i) == Pending(m, i)
    ensures NoteDebt(m', j, k) == NoteDebt(m, j, k)
  {
    if k > 0 {
      NoteDebtFrame(m, m', j, k - 1);
    }
  }

  /** Replacing one emitter below `k` trades its pending notifications in the sum. */
  lemma {:induction false} NoteDebtUpdate(m: map<EmitterId, Emitter>, e: EmitterId, em: Emitter, j: JoinId, k: nat)
    requires e < k
    ensures NoteDebt(m[e := em], j, k) + Owed(Pending(m, e), j) == NoteDebt(m, j, k) + Owed(Backlog(em), j)
  {
    if e == k - 1 {
      NoteDebtFrame(m, m[e := em], j, k - 1);
    } else {
      NoteDebtUpdate(m, e, em, j, k - 1);
    }
  }

  lemma {:induction false} NoteDebtZero(m: map<EmitterId, Emitter>, j: JoinId, k: nat)
    ensures NoteDebt(m, j, k) == 0 <==> forall i :: 0 <= i < k ==> Owed(Pending(m, i), j) == 0
  {
    if k > 0 {
      NoteDebtZero(m, j, k - 1);
    }
  }

  lemma {:induction false} JoinDebtFrame(joins: map<JoinId, Join>, joins': map<JoinId, Join>, j: JoinId, k: nat)
    requires forall i :: 0 <= i < k ==> Finalizer(joins', i) == Finalizer(joins, i)
    ensures JoinDebt(joins', j, k) == JoinDebt(joins, j, k)
  {
    if k > 0 {
      JoinDebtFrame(joins, joins', j, k - 1);
    }
  }

  /** Closing join `x` takes its final callback out of the sum. */
  lemma {:induction false} JoinDebtRemove(joins: map<JoinId, Join>, x: JoinId, j: JoinId, k: nat)
    requires x in joins && x < k
    ensures JoinDebt(joins - {x}, j, k) + Leads(joins[x].finalize, j) == JoinDebt(joins, j, k)
  {
    if x == k - 1 {
      JoinDebtFrame(joins, joins - {x}, j, k - 1);
    } else {
      JoinDebtRemove(joins, x, j, k - 1);
    }
  }

  /** Opening join `x` above every open one adds its final callback to the sum. */
  lemma JoinDebtAdd(joins: map<JoinId, Join>, x: JoinId, jn: Join, j: JoinId)
    requires forall i :: i in joins ==> i < x
    ensures JoinDebt(joins[x := jn], j, x + 1) == JoinDebt(joins, j, x) + Leads(jn.finalize, j)
  {
    JoinDebtFrame(joins, joins[x := jn], j, x);
  }

  lemma {:induction false} JoinDebtZero(joins: map<JoinId, Join>, j: JoinId, k: nat)
    ensures JoinDebt(joins, j, k) == 0 <==> forall i :: 0 <= i < k ==> Leads(Finalizer(joins, i), j) == 0
  {
    if k > 0 {
      JoinDebtZero(joins, j, k - 1);
    }
  }

  /** Nothing reports to `j` exactly when its debt is zero. */
  lemma DebtZero(w: World, j: JoinId)
    requires Orderly(w)
    ensures Debt(w, j) == 0 <==> Clear(w, j)
  {
    NoteDebtZero(w.emitters, j, w.nextEmitter);
    JoinDebtZero(w.joins, j, w.nextJoin);
    forall e | e in w.emitters
      ensures Owed(Backlog(w.emitters[e]), j) == 0 <==>
        forall i :: 0 <= i < |Backlog(w.emitters[e])| ==> Target(Backlog(w.emitters[e])[i].callback) != Some(j)
    {
      OwedZero(Backlog(w.emitters[e]), j);
    }
    if Debt(w, j) == 0 {
      forall x | x in w.joins ensures Target(w.joins[x].finalize) != Some(j) {
        assert Leads(Finalizer(w.joins, x), j) == 0;
      }
      forall e | e in w.emitters ensures Owed(Backlog(w.emitters[e]), j) == 0 {
        assert Owed(Pending(w.emitters, e), j) == 0;
      }
    }
    if Clear(w, j) {
      forall i | 0 <= i < w.nextEmitter ensures Owed(Pending(w.emitters, i), j) == 0 {
      }
      forall i | 0 <= i < w.nextJoin ensures Leads(Finalizer(w.joins, i), j) == 0 {
      }
    }
  }

  /* ---------- emitting ---------- */

  /** `emit` adds one notification, and with it whatever its callback reports to. */
  lemma EmitDebt(w: World, e: EmitterId, name: EventName, data: Data, cb: Callback, j: JoinId)
    requires Orderly(w) && e in w.emitters && Emit(w, e, name, data, cb).Ok?
    ensures var r := Emit(w, e, name, data, cb).value;
      && Orderly(r) && r.joins == w.joins && r.nextJoin == w.nextJoin && r.nextEmitter == w.nextEmitter
      && Debt(r, j) == Debt(w, j) + Leads(cb, j)
  {
    assert name in w.emitters[e].events;
    EmitAppends(w, e, name, data, cb);
    var r := Emit(w, e, name, data, cb).value;
    var n := Distribute(w.emitters[e], e, Notification(w.nextNote, name, data, cb));
    assert Backlog(r.emitters[e]) == Backlog(w.emitters[e]) + [n];
    OwedAppend(Backlog(w.emitters[e]), [n], j);
    OwedOne(n, j);
    assert Target(n.callback) == Target(cb);
    NoteDebtUpdate(w.emitters, e, r.emitters[e], j, w.nextEmitter);
  }

  /** One emit per target adds one report per target. */
  lemma {:induction false} EmitAllDebt(w: World, targets: seq<EmitterId>, name: EventName, data: Data, cb: Callback, j: JoinId)
    requires Orderly(w) && AllIn(targets, w.emitters) && EmitAll(w, targets, name, data, cb).Ok?
    ensures var r := EmitAll(w, targets, name, data, cb).value;
      && Orderly(r) && r.joins == w.joins && r.nextJoin == w.nextJoin && r.nextEmitter == w.nextEmitter
      && Debt(r, j) == Debt(w, j) + (if Target(cb) == Some(j) then |targets| else 0)
    decreases |targets|
  {
    if targets != [] {
      EmitDebt(w, targets[0], name, data, cb, j);
      var w1 := Emit(w, targets[0], name, data, cb).value;
      assert AllIn(targets[1..], w1.emitters);
      EmitAllDebt(w1, targets[1..], name, data, cb, j);
      assert EmitAll(w, targets, name, data, cb) == EmitAll(w1, targets[1..], name, data, cb);
    }
  }

  /** A fan-out is the emits on its targets after opening the next join. */
  lemma SpreadOpens(w: World, targets: seq<EmitterId>, name: EventName, data: Data, fin: Callback)
    requires AllIn(targets, w.emitters)
    ensures var w0 := w.(joins := w.joins[w.nextJoin := Join(|targets|, fin)], nextJoin := w.nextJoin + 1);
      AllIn(targets, w0.emitters) && Spread(w, targets, name, data, fin) == EmitAll(w0, targets, name, data, JoinNext(w.nextJoin))
  {
  }

  /**
   * A fan-out over distinct link targets opens the next join with one count per
   * target and emits on each target exactly one notification, after everything
   * pending there, with the original event and data and the join's `next` as
   * callback (wrapped again when that target has link targets of its own); no
   * other emitter changes.
   */
  lemma FanoutDelivers(w: World, src: EmitterId, name: EventName, data: Data, fin: Callback)
    requires Linked(w) && Drained(w.emitters) && src in w.emitters
    requires w.emitters[src].podiums != [] && Distinct(w.emitters[src].podiums)
    requires Invoke(w, Fanout(src, name, data, fin)).Ok?
    ensures var ts := w.emitters[src].podiums; var j := w.nextJoin; var r := Invoke(w, Fanout(src, name, data, fin)).value;
      && r.joins == w.joins[j := Join(|ts|, fin)] && r.nextJoin == j + 1 && r.nextNote == w.nextNote + |ts|
      && r.emitters.Keys == w.emitters.Keys
      && (forall i :: 0 <= i < |ts| ==>
            Fed(w.emitters[ts[i]], r.emitters[ts[i]], ts[i], Notification(w.nextNote + i, name, data, JoinNext(j))))
      && (forall x :: x in w.emitters && x !in ts ==> r.emitters[x] == w.emitters[x])
  {
    var ts := w.emitters[src].podiums;
    FanoutUnfolds(w, src, name, data, fin);
    SpreadOpens(w, ts, name, data, fin);
    var w0 := w.(joins := w.joins[w.nextJoin := Join(|ts|, fin)], nextJoin := w.nextJoin + 1);
    var r := EmitAll(w0, ts, name, data, JoinNext(w.nextJoin)).value;
    assert Invoke(w, Fanout(src, name, data, fin)).value == r;
    EmitAllReaches(w0, ts, name, data, JoinNext(w.nextJoin));
    ReachedFrom(w, w0, r, ts, name, data, JoinNext(w.nextJoin));
  }

  /** `EmitAllReaches` read against a world that differs only in its joins. */
  lemma ReachedFrom(w: World, w0: World, r: World, ts: seq<EmitterId>, name: EventName, data: Data, cb: Callback)
    requires w0.emitters == w.emitters && w0.nextNote == w.nextNote && AllIn(ts, w.emitters)
    requires r.emitters.Keys == w0.emitters.Keys
    requires forall i :: 0 <= i < |ts| ==> Fed(w0.emitters[ts[i]], r.emitters[ts[i]], ts[i], Notification(w0.nextNote + i, name, data, cb))
    requires forall x :: x in w0.emitters && x !in ts ==> r.emitters[x] == w0.emitters[x]
    ensures forall i :: 0 <= i < |ts| ==> Fed(w.emitters[ts[i]], r.emitters[ts[i]], ts[i], Notification(w.nextNote + i, name, data, cb))
    ensures forall x :: x in w.emitters && x !in ts ==> r.emitters[x] == w.emitters[x]
  {
  }

  /** A fan-out over non-empty targets opens a join counting them, owed by each target's copy, and owing the original callback. */
  lemma SpreadDebt(w: World, targets: seq<EmitterId>, name: EventName, data: Data, fin: Callback)
    requires Orderly(w) && Owes(w, fin) && targets != [] && AllIn(targets, w.emitters)
    requires Spread(w, targets, name, data, fin).Ok?
    ensures var r := Spread(w, targets, name, data, fin).value;
      JoinsOk(r) && Fresh(w, r) && r.nextEmitter == w.nextEmitter
  {
    SpreadOpens(w, targets, name, data, fin);
    OpenDebt(w, w.(joins := w.joins[w.nextJoin := Join(|targets|, fin)], nextJoin := w.nextJoin + 1), targets, name, data, fin);
  }

  lemma OpenDebt(w: World, w0: World, targets: seq<EmitterId>, name: EventName, data: Data, fin: Callback)
    requires Orderly(w) && Owes(w, fin) && targets != [] && AllIn(targets, w0.emitters)
    requires w0 == w.(joins := w.joins[w.nextJoin := Join(|targets|, fin)], nextJoin := w.nextJoin + 1)
    requires EmitAll(w0, targets, name, data, JoinNext(w.nextJoin)).Ok?
    ensures var r := EmitAll(w0, targets, name, data, JoinNext(w.nextJoin)).value;
      JoinsOk(r) && Fresh(w, r) && r.nextEmitter == w.nextEmitter
  {
    var r := EmitAll(w0, targets, name, data, JoinNext(w.nextJoin)).value;
    assert Orderly(w0);
    EmitAllDebt(w0, targets, name, data, JoinNext(w.nextJoin), w.nextJoin);
    forall j
      ensures Debt(r, j) == Due(r, j)
    {
      EmitAllDebt(w0, targets, name, data, JoinNext(w.nextJoin), j);
      SpreadCount(w, w0, r, |targets|, fin, j);
    }
  }

  /** The count of one join after a fan-out: the new join waits for every target, every other is unchanged. */
  lemma SpreadCount(w: World, w0: World, r: World, size: nat, fin: Callback, j: JoinId)
    requires JoinBounds(w) && Owes(w, fin)
    requires w0 == w.(joins := w.joins[w.nextJoin := Join(size, fin)], nextJoin := w.nextJoin + 1)
    requires r.joins == w0.joins && r.nextJoin == w0.nextJoin
    requires Debt(r, j) == Debt(w0, j) + (if Target(JoinNext(w.nextJoin)) == Some(j) then size else 0)
    ensures Debt(r, j) == Due(r, j)
  {
    JoinDebtAdd(w.joins, w.nextJoin, Join(size, fin), j);
    assert Debt(w0, j) == Debt(w, j) + Leads(fin, j);
    assert Debt(w, j) + Leads(fin, j) == Due(w, j);
    if j == w.nextJoin {
      assert Debt(w, j) + Leads(fin, j) == 0;
    }
  }

  /**
   * Running a callback that is owed keeps the join invariant. In particular a
   * join's `next` never finds its join closed: the count it would decrement is
   * still open.
   */
  lemma {:induction false} InvokeDebt(w: World, cb: Callback)
    requires Orderly(w) && Owes(w, cb) && Linked(w)
    requires Invoke(w, cb).Ok?
    ensures var r := Invoke(w, cb).value; JoinsOk(r) && Fresh(w, r) && r.nextEmitter == w.nextEmitter
    decreases |w.joins|, cb, 1
  {
    match cb
    case Ignore =>
    case User(id) =>
      var r := w.(calls := w.calls + [id]);
      forall j
        ensures Debt(r, j) == Due(r, j)
      {
        assert Debt(w, j) + Leads(cb, j) == Due(w, j);
      }
    case Fanout(src, name, data, fin) =>
      FanoutDebt(w, src, name, data, fin);
    case JoinNext(j0) =>
      JoinNextDebt(w, j0);
  }

  /** A fan-out reports where its original callback does: through a new join, or by running that callback at once. */
  lemma {:induction false} FanoutDebt(w: World, src: EmitterId, name: EventName, data: Data, fin: Callback)
    requires Orderly(w) && Owes(w, Fanout(src, name, data, fin)) && Linked(w)
    requires Invoke(w, Fanout(src, name, data, fin)).Ok?
    ensures var r := Invoke(w, Fanout(src, name, data, fin)).value; JoinsOk(r) && Fresh(w, r) && r.nextEmitter == w.nextEmitter
    decreases |w.joins|, Fanout(src, name, data, fin), 0
  {
    assert forall j :: Leads(fin, j) == Leads(Fanout(src, name, data, fin), j);
    if src in w.emitters && w.emitters[src].podiums != [] {
      FanoutUnfolds(w, src, name, data, fin);
      SpreadDebt(w, w.emitters[src].podiums, name, data, fin);
    } else {
      FanoutWithoutTargets(w, src, name, data, fin);
      InvokeDebt(w, fin);
    }
  }

  /** A join's `next`: one off the count, or the join closed and its final callback run. */
  lemma {:induction false} JoinNextDebt(w: World, j0: JoinId)
    requires Orderly(w) && Owes(w, JoinNext(j0)) && Linked(w)
    requires Invoke(w, JoinNext(j0)).Ok?
    ensures var r := Invoke(w, JoinNext(j0)).value; JoinsOk(r) && Fresh(w, r) && r.nextEmitter == w.nextEmitter
    decreases |w.joins|, JoinNext(j0), 0
  {
    JoinOpen(w, j0);
    if w.joins[j0].remaining > 1 {
      DecrementDebt(w, j0);
    } else {
      CloseDebt(w, j0);
      JoinsShrink(w.joins, j0);
      var w1 := w.(joins := w.joins - {j0});
      InvokeDebt(w1, w.joins[j0].finalize);
    }
  }

  /** A join's `next` that is owed finds its join open. */
  lemma JoinOpen(w: World, j: JoinId)
    requires Owes(w, JoinNext(j))
    ensures j in w.joins
  {
    assert Debt(w, j) + Leads(JoinNext(j), j) == Due(w, j);
  }

  /** A join's `next` before the last one takes one off the count. */
  lemma DecrementDebt(w: World, j0: JoinId)
    requires Orderly(w) && Owes(w, JoinNext(j0)) && j0 in w.joins && w.joins[j0].remaining > 1
    ensures var r := w.(joins := w.joins[j0 := w.joins[j0].(remaining := w.joins[j0].remaining - 1)]);
      JoinsOk(r) && Fresh(w, r)
  {
    var r := w.(joins := w.joins[j0 := w.joins[j0].(remaining := w.joins[j0].remaining - 1)]);
    forall j
      ensures Debt(r, j) == Due(r, j)
    {
      JoinDebtFrame(w.joins, r.joins, j, w.nextJoin);
      assert Debt(w, j) + Leads(JoinNext(j0), j) == Due(w, j);
    }
  }

  /** The last `next` of a join closes it, and its final callback is then owed. */
  lemma CloseDebt(w: World, j0: JoinId)
    requires Orderly(w) && Owes(w, JoinNext(j0)) && j0 in w.joins && w.joins[j0].remaining <= 1
    ensures var w1 := w.(joins := w.joins - {j0}); Orderly(w1) && Owes(w1, w.joins[j0].finalize)
  {
    var w1 := w.(joins := w.joins - {j0});
    var fin := w.joins[j0].finalize;
    forall j
      ensures Debt(w1, j) + Leads(fin, j) == Due(w1, j)
    {
      JoinDebtRemove(w.joins, j0, j, w.nextJoin);
      assert Debt(w, j) + Leads(JoinNext(j0), j) == Due(w, j);
    }
  }

  /**
   * When a join's `next` runs, the join is open; its final callback runs in that
   * call exactly when nothing else still reports to the join, that is, when the
   * copy on every target (and every copy those copies fanned out) has completed;
   * otherwise the call only takes one off the count.
   */
  lemma JoinReleasesLast(w: World, j: JoinId)
    requires Orderly(w) && Owes(w, JoinNext(j)) && Linked(w)
    ensures j in w.joins
    ensures w.joins[j].remaining == 1 <==> Clear(w, j)
    ensures Clear(w, j) ==> Invoke(w, JoinNext(j)) == Invoke(w.(joins := w.joins - {j}), w.joins[j].finalize)
    ensures !Clear(w, j) ==>
      Invoke(w, JoinNext(j)) == Ok(w.(joins := w.joins[j := w.joins[j].(remaining := w.joins[j].remaining - 1)]))
  {
    JoinOpen(w, j);
    assert Debt(w, j) + Leads(JoinNext(j), j) == Due(w, j);
    DebtZero(w, j);
  }

  /* ---------- the dispatch cycle ---------- */

  lemma BacklogPop(em: Emitter, em1: Emitter)
    requires |em.batch| > 0 && em1.batch == em.batch[1..] && em1.queue == em.queue
    ensures Backlog(em) == [em.batch[0]] + Backlog(em1)
  {
  }

  /** Completing the head of a batch hands its report to the callback it runs. */
  lemma CompleteDebt(w: World, e: EmitterId)
    requires Orderly(w) && JoinsOk(w) && e in w.emitters && |w.emitters[e].batch| > 0 && Linked(w)
    requires Complete(w, e).Ok?
    ensures var r := Complete(w, e).value; JoinsOk(r) && Fresh(w, r) && r.nextEmitter == w.nextEmitter
  {
    var em := w.emitters[e];
    var n := em.batch[0];
    var em1 := em.(batch := em.batch[1..], cycle := None, completed := em.completed + [n.id]);
    var w1 := w.(emitters := w.emitters[e := em1]);
    BacklogPop(em, em1);
    forall j
      ensures Debt(w1, j) + Leads(n.callback, j) == Due(w1, j)
    {
      OwedAppend([n], Backlog(em1), j);
      OwedOne(n, j);
      assert Owed(Pending(w.emitters, e), j) == Leads(n.callback, j) + Owed(Backlog(em1), j);
      NoteDebtUpdate(w.emitters, e, em1, j, w.nextEmitter);
      assert Debt(w, j) == Due(w, j);
    }
    LinkedFrame(w, w1);
    InvokeDebt(w1, n.callback);
  }

  lemma MaybeCompleteDebt(w: World, e: EmitterId)
    requires Orderly(w) && JoinsOk(w) && e in w.emitters && w.emitters[e].cycle.Some? && |w.emitters[e].batch| > 0 && Linked(w)
    requires MaybeComplete(w, e).Ok?
    ensures var r := MaybeComplete(w, e).value; JoinsOk(r) && Fresh(w, r) && r.nextEmitter == w.nextEmitter
  {
    var c := w.emitters[e].cycle.value;
    if c.next == |c.snapshot| && c.finished >= |c.snapshot| {
      CompleteDebt(w, e);
    }
  }

  /** Changing an emitter's table or cycle leaves every count owed. */
  lemma SameBacklogs(w: World, w': World)
    requires Orderly(w) && JoinsOk(w)
    requires w'.emitters.Keys == w.emitters.Keys && w'.joins == w.joins
    requires w'.nextEmitter == w.nextEmitter && w'.nextJoin == w.nextJoin
    requires forall x :: x in w.emitters ==> Backlog(w'.emitters[x]) == Backlog(w.emitters[x])
    ensures JoinsOk(w') && Fresh(w, w')
  {
    forall j
      ensures Debt(w', j) == Due(w', j)
    {
      forall i | 0 <= i < w.nextEmitter
        ensures Pending(w'.emitters, i) == Pending(w.emitters, i)
      {
        if i in w.emitters {
          assert Backlog(w'.emitters[i]) == Backlog(w.emitters[i]);
        }
      }
      NoteDebtFrame(w.emitters, w'.emitters, j, w.nextEmitter);
      assert Debt(w, j) == Due(w, j);
    }
  }
  lemma FreshTrans(a: World, b: World, c: World)
    requires Fresh(a, b) && Fresh(b, c)
    ensures Fresh(a, c)
  {
  }

  /** `each(item, next)`: a cycle starts, or an item without subscribers completes at once. */
  lemma BeginDebt(w: World, e: EmitterId)
    requires Orderly(w) && JoinsOk(w) && CanBegin(w, e) && Begin(w, e).Ok?
    ensures var r := Begin(w, e).value; JoinsOk(r) && Fresh(w, r) && r.nextEmitter == w.nextEmitter
  {
    var em := w.emitters[e];
    if |Subscribers(em.events[em.batch[0].event])| == 0 {
      CompleteDebt(w, e);
    } else {
      SameBacklogs(w, Begin(w, e).value);
    }
  }

  /** `eachHandler`: the listener is called, then the item may complete. */
  lemma DeliverDebt(w: World, e: EmitterId)
    requires Orderly(w) && JoinsOk(w) && CanDeliver(w, e) && Deliver(w, e).Ok?
    ensures var r := Deliver(w, e).value; JoinsOk(r) && Fresh(w, r) && r.nextEmitter == w.nextEmitter
  {
    var h := Handed(w, e);
    HandedParts(w, e);
    SameBacklogs(w, h);
    assert Orderly(h);
    LinkedFrame(w, h);
    MaybeCompleteDebt(h, e);
    FreshTrans(w, h, Deliver(w, e).value);
  }

  lemma RecountDebt(w: World, e: EmitterId, c: Cycle)
    requires Orderly(w) && JoinsOk(w) && e in w.emitters && |w.emitters[e].batch| > 0 && Linked(w)
    requires Recount(w, e, c).Ok?
    ensures var r := Recount(w, e, c).value; JoinsOk(r) && Fresh(w, r) && r.nextEmitter == w.nextEmitter
  {
    var w1 := w.(emitters := w.emitters[e := w.emitters[e].(cycle := Some(c))]);
    SameBacklogs(w, w1);
    LinkedFrame(w, w1);
    MaybeCompleteDebt(w1, e);
    FreshTrans(w, w1, Recount(w, e, c).value);
  }

  /** A blocking handler's `next` or timer: the count of finished handlers moves, then the item may complete. */
  lemma FinishDebt(w: World, e: EmitterId, serial: nat, id: SubId)
    requires Orderly(w) && JoinsOk(w) && CanFinish(w, e) && Finish(w, e, serial, id).Ok?
    ensures var r := Finish(w, e, serial, id).value; JoinsOk(r) && Fresh(w, r) && r.nextEmitter == w.nextEmitter
  {
    var em := w.emitters[e];
    if em.cycle.Some? && em.cycle.value.serial == serial && id in em.cycle.value.waiting && em.cycle.value.waiting[id] != OneShot(true) {
      var c := em.cycle.value;
      var c' := if c.waiting[id].Repeating? then c.(finished := c.finished + 1)
        else c.(finished := c.finished + 1, waiting := c.waiting[id := OneShot(true)]);
      assert Finish(w, e, serial, id) == Recount(w, e, c');
      RecountDebt(w, e, c');
    }
  }

  /** The end of a drain: the queue becomes the next batch, which keeps every pending notification. */
  lemma SettleDebt(w: World, e: EmitterId)
    requires Orderly(w) && JoinsOk(w) && CanSettle(w, e)
    ensures var r := Settle(w, e); JoinsOk(r) && Fresh(w, r)
  {
    var em := w.emitters[e];
    assert Backlog(Pump(em.(processing := false))) == Backlog(em);
    SameBacklogs(w, Settle(w, e));
  }
}
