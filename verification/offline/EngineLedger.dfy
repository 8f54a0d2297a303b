/** Order, conservation, durability and retry accounting, over runs whose restarts follow a successful write. */
module OfflineLedger {
  import opened Options
  import opened OfflineQueue
  import opened OfflineEngine
  import opened OfflineSafety

  ghost predicate NoDup(ids: seq<ActionId>) {
    forall i, j :: 0 <= i < j < |ids| ==> ids[i] != ids[j]
  }

  /** 1 when a drain is awaiting the executor of this action, else 0. */
  function Active(s: Sys, id: ActionId): nat {
    if s.frames != [] && s.frames[0].Executing? && s.frames[0].action.id == id then 1 else 0
  }

  ghost predicate QueuedEntry(w: World, a: Action) {
    var h := w.hist;
    && a.id in h.base
    && h.base[a.id] + h.fails[a.id] == a.retries
    && (h.fails[a.id] == 0 || a.retries < a.maxRetries)
    && h.starts[a.id] == h.fails[a.id] + h.cuts[a.id] + Active(w.sys, a.id)
  }

  ghost predicate SettledEntry(h: History, x: Settlement) {
    var a := x.action;
    && a.id in h.base
    && h.base[a.id] + h.fails[a.id] == a.retries
    && match x
       case Completed(_) =>
         && (h.fails[a.id] == 0 || a.retries < a.maxRetries)
         && h.starts[a.id] == h.fails[a.id] + h.cuts[a.id] + 1
       case Dropped(_) =>
         && h.fails[a.id] >= 1
         && a.retries >= a.maxRetries
         && (h.fails[a.id] == 1 || a.retries - 1 < a.maxRetries)
         && h.starts[a.id] == h.fails[a.id] + h.cuts[a.id]
  }

  /** Settled actions followed by queued ones are the born ones, in order. */
  ghost predicate Conserved(w: World) {
    w.hist.born == SettledIds(w.hist.settled) + Ids(w.sys.queue)
  }

  ghost predicate Ordered(w: World) {
    && Conserved(w)
    && NoDup(w.hist.born)
    && forall i :: 0 <= i < |w.hist.born| ==> w.hist.born[i] in w.hist.used
  }

  ghost predicate Books(w: World) {
    var h := w.hist;
    && (forall id :: id in h.starts || id in h.fails || id in h.cuts ==> id in h.used)
    && (forall a :: a in w.sys.queue ==> QueuedEntry(w, a))
    && (forall x :: x in h.settled ==> SettledEntry(h, x))
  }

  ghost predicate Ledger(w: World) {
    Ordered(w) && Books(w)
  }

  /** Settled and queued actions have different ids, all of them generated before. */
  ghost predicate Apart(w: World) {
    && Distinct(w.sys.queue)
    && (forall a :: a in w.sys.queue ==> a.id in w.hist.used)
    && (forall x :: x in w.hist.settled ==> x.action.id in w.hist.used)
    && (forall x, a :: x in w.hist.settled && a in w.sys.queue ==> x.action.id != a.id)
  }

  lemma OrderedIsApart(w: World)
    requires Ordered(w)
    ensures Apart(w)
  {
    var ids, settled, q := w.hist.born, w.hist.settled, w.sys.queue;
    SplitIds(ids, SettledIds(settled), Ids(q));
    IdsIndex(q);
    SettledIdsIndex(settled);
    forall x | x in settled ensures x.action.id in SettledIds(settled)
    {
      var i :| 0 <= i < |settled| && settled[i] == x;
      assert SettledIds(settled)[i] == x.action.id;
    }
    forall a | a in q ensures a.id in Ids(q)
    {
      var i :| 0 <= i < |q| && q[i] == a;
      assert Ids(q)[i] == a.id;
    }
    forall i, j | 0 <= i < j < |q|
      ensures q[i].id != q[j].id
    {
      assert Ids(q)[i] != Ids(q)[j];
    }
  }

  lemma SplitIds(ids: seq<ActionId>, front: seq<ActionId>, back: seq<ActionId>)
    requires NoDup(ids) && ids == front + back
    ensures NoDup(back)
    ensures forall id :: id in front || id in back ==> id in ids
    ensures forall id :: id in front ==> id !in back
  {
    forall i, j | 0 <= i < j < |back| ensures back[i] != back[j]
    {
      assert ids[|front| + i] != ids[|front| + j];
    }
    forall i, j | 0 <= i < |front| && 0 <= j < |back| ensures front[i] != back[j]
    {
      assert ids[i] != ids[|front| + j];
    }
  }

  lemma FindInDistinct(q: seq<Action>, k: nat)
    requires k < |q| && Distinct(q)
    ensures Find(q, q[k].id) == Some(k)
  {
  }

  lemma DistinctIds(q: seq<Action>)
    requires Distinct(q)
    ensures NoDup(Ids(q)) && |Ids(q)| == |q|
    ensures forall i :: 0 <= i < |q| ==> Ids(q)[i] in IdSet(q)
  {
  }

  lemma FirstOrder(w: World, q: seq<Action>)
    requires NoDup(Ids(q)) && |Ids(q)| == |q| && forall i :: 0 <= i < |q| ==> Ids(q)[i] in w.hist.used
    requires w.hist.settled == [] && w.hist.born == Ids(q) && w.sys.queue == q
    ensures Ordered(w)
  {
  }

  lemma FirstBooks(w: World, q: seq<Action>)
    requires Distinct(q) && w.sys.queue == q && w.sys.frames == [] && w.hist.base == BaseOf(q)
    requires w.hist.starts == w.hist.fails == w.hist.cuts == multiset{} && w.hist.settled == []
    ensures Books(w)
  {
  }

  lemma StartHasLedger(disk: Option<seq<Action>>)
    requires Distinct(Restored(disk))
    ensures Ledger(Start(disk))
  {
    var q := Restored(disk);
    DistinctIds(q);
    FirstOrder(Start(disk), q);
    FirstBooks(Start(disk), q);
  }

  // Order.

  lemma EnqueueOrder(w: World, t: World, a: Action)
    requires Ordered(w) && a.id !in w.hist.used
    requires t.sys.queue == w.sys.queue + [a] && t.hist.settled == w.hist.settled
    requires t.hist.born == w.hist.born + [a.id] && t.hist.used == w.hist.used + {a.id}
    ensures Ordered(t)
  {
    IdsAppend(w.sys.queue, a);
    assert SettledIds(t.hist.settled) + (Ids(w.sys.queue) + [a.id]) == w.hist.born + [a.id];
  }

  lemma SettleOrder(w: World, t: World, x: Settlement)
    requires Ordered(w) && w.sys.queue != [] && t.sys.queue == w.sys.queue[1..]
    requires x.action.id == w.sys.queue[0].id && t.hist.settled == w.hist.settled + [x]
    requires t.hist.born == w.hist.born && t.hist.used == w.hist.used
    ensures Ordered(t)
  {
  }

  lemma SameOrder(w: World, t: World)
    requires Ordered(w) && Ids(t.sys.queue) == Ids(w.sys.queue)
    requires t.hist.born == w.hist.born && t.hist.settled == w.hist.settled && w.hist.used <= t.hist.used
    ensures Ordered(t)
  {
  }

  // Books: the counts, on the few fields each kind of event touches.

  /** Executor calls started, interrupted and awaited move together, and only for queued actions. */
  ghost predicate Balanced(w: World, t: World) {
    && (forall id :: t.hist.starts[id] + w.hist.cuts[id] + Active(w.sys, id)
                  == w.hist.starts[id] + t.hist.cuts[id] + Active(t.sys, id))
    && (forall id :: t.hist.starts[id] != w.hist.starts[id] || t.hist.cuts[id] != w.hist.cuts[id] ==>
          exists a :: a in w.sys.queue && a.id == id)
  }

  lemma FlowBooks(w: World, t: World)
    requires Books(w) && Apart(w) && Balanced(w, t)
    requires t.sys.queue == w.sys.queue && t.hist.settled == w.hist.settled
    requires t.hist.fails == w.hist.fails && t.hist.base == w.hist.base && w.hist.used <= t.hist.used
    ensures Books(t)
  {
    forall a | a in t.sys.queue ensures QueuedEntry(t, a) { assert QueuedEntry(w, a); }
    forall x | x in w.hist.settled ensures SettledEntry(t.hist, x) { assert SettledEntry(w.hist, x); }
  }

  lemma EnqueueBooks(w: World, t: World, a: Action)
    requires Books(w) && Apart(w) && SingleFlight(w.sys)
    requires t.sys.queue == w.sys.queue + [a] && t.sys.frames == w.sys.frames
    requires a.id !in w.hist.used && a.retries == 0
    requires t.hist.settled == w.hist.settled
    requires t.hist.used == w.hist.used + {a.id} && t.hist.base == w.hist.base[a.id := 0]
    requires t.hist.starts == w.hist.starts && t.hist.fails == w.hist.fails && t.hist.cuts == w.hist.cuts
    ensures Books(t)
  {
    assert Active(w.sys, a.id) == 0;
    assert QueuedEntry(t, a);
    forall b | b in w.sys.queue ensures QueuedEntry(t, b) { assert QueuedEntry(w, b); }
    forall x | x in w.hist.settled ensures SettledEntry(t.hist, x) { assert SettledEntry(w.hist, x); }
  }

  /** Only `id`'s counts move, except that the new head may be started. */
  ghost predicate OnlyCounts(w: World, t: World, id: ActionId) {
    && (forall i :: i != id ==> t.hist.fails[i] == w.hist.fails[i])
    && (forall i :: i != id ==> t.hist.cuts[i] == w.hist.cuts[i])
    && (forall i :: i != id ==> t.hist.starts[i] + Active(w.sys, i) == w.hist.starts[i] + Active(t.sys, i))
    && (forall i :: i != id && t.hist.starts[i] != w.hist.starts[i] ==>
          t.sys.queue != [] && i == t.sys.queue[0].id)
  }

  lemma SettleBooks(w: World, t: World, x: Settlement)
    requires Books(w) && Apart(w)
    requires w.sys.queue != [] && t.sys.queue == w.sys.queue[1..]
    requires x.action.id == w.sys.queue[0].id && SettledEntry(t.hist, x)
    requires t.hist.used == w.hist.used && t.hist.base == w.hist.base
    requires t.hist.settled == w.hist.settled + [x]
    requires OnlyCounts(w, t, x.action.id)
    ensures Books(t)
  {
    assert w.sys.queue[0] in w.sys.queue;
    forall a | a in t.sys.queue ensures QueuedEntry(t, a)
    {
      assert a in w.sys.queue && a.id != x.action.id;
      assert QueuedEntry(w, a);
    }
    forall y | y in w.hist.settled ensures SettledEntry(t.hist, y)
    {
      assert SettledEntry(w.hist, y);
      assert y.action.id != x.action.id;
      assert t.sys.queue != [] ==> t.sys.queue[0] in w.sys.queue;
    }
  }

  lemma RetryBooks(w: World, t: World, a: Action)
    requires Books(w) && Apart(w)
    requires w.sys.queue != [] && t.sys.queue == [a] + w.sys.queue[1..]
    requires a.id == w.sys.queue[0].id && QueuedEntry(t, a)
    requires t.hist.used == w.hist.used && t.hist.base == w.hist.base && t.hist.settled == w.hist.settled
    requires OnlyCounts(w, t, a.id) && t.hist.starts == w.hist.starts
    ensures Books(t)
  {
    assert w.sys.queue[0] in w.sys.queue;
    forall b | b in w.sys.queue[1..] ensures QueuedEntry(t, b)
    {
      assert b in w.sys.queue && b.id != a.id;
      assert QueuedEntry(w, b);
    }
    forall x | x in w.hist.settled ensures SettledEntry(t.hist, x) { assert SettledEntry(w.hist, x); }
  }

  // The events.

  lemma EnqueueKeepsLedger(w: World, e: Event)
    requires Safe(w) && Ledger(w) && Possible(w, e)
    requires e.Submit? || e.ImmediateFailed?
    ensures Ledger(Step(w, e))
  {
    var t := Step(w, e);
    OrderedIsApart(w);
    assert Started(w.sys, e) == multiset{};
    if t.sys.queue == w.sys.queue {
      SameOrder(w, t);
      FlowBooks(w, t);
    } else {
      var a := t.sys.queue[|w.sys.queue|];
      EnqueueOrder(w, t, a);
      EnqueueBooks(w, t, a);
    }
  }

  lemma FlightStays(w: World, t: World)
    requires t.sys.frames == w.sys.frames && t.hist.starts == w.hist.starts && t.hist.cuts == w.hist.cuts
    ensures Balanced(w, t)
  {
  }

  /** A loop test at which no executor is awaited: the head is started, or nothing is. */
  lemma FlightStarts(w: World, t: World)
    requires w.sys.frames == [] || w.sys.frames[0].Sleeping?
    requires t.sys.queue == w.sys.queue && t.hist.cuts == w.hist.cuts
    requires t.sys == LoopTest(w.sys.(draining := true, online := t.sys.online, forcedOffline := t.sys.forcedOffline), [])
    requires t.hist.starts == w.hist.starts +
               if |t.sys.queue| > 0 && t.sys.IsOnline() then multiset{t.sys.queue[0].id} else multiset{}
    ensures Balanced(w, t)
  {
    if |t.sys.queue| > 0 && t.sys.IsOnline() {
      assert t.sys.queue[0] in w.sys.queue;
      assert t.sys.frames == [Executing(t.sys.queue[0], t.sys.queue[0].kind in t.sys.executors)];
    }
  }

  lemma WakeIsBalanced(w: World, e: Event)
    requires SingleFlight(w.sys) && Possible(w, e) && e.Wake?
    ensures Step(w, e).sys.queue == w.sys.queue && Balanced(w, Step(w, e))
  {
    assert Removed(w.sys.frames, e.k) == [];
    assert w.sys.(draining := true) == w.sys;
    FlightStarts(w, Step(w, e));
  }

  lemma CallDrainIsBalanced(w: World, e: Event)
    requires SingleFlight(w.sys) && Possible(w, e) && e.CallDrain?
    ensures Step(w, e).sys.queue == w.sys.queue && Balanced(w, Step(w, e))
  {
    if w.sys.draining {
      FlightStays(w, Step(w, e));
    } else {
      FlightStarts(w, Step(w, e));
    }
  }

  lemma StatusIsBalanced(w: World, e: Event)
    requires SingleFlight(w.sys) && Possible(w, e) && (e.SetForcedOffline? || e.Probe?)
    ensures Step(w, e).sys.queue == w.sys.queue && Balanced(w, Step(w, e))
  {
    if TestsLoop(w.sys, e) {
      FlightStarts(w, Step(w, e));
    } else {
      FlightStays(w, Step(w, e));
    }
  }

  lemma FlowIsBalanced(w: World, e: Event)
    requires SingleFlight(w.sys) && Possible(w, e)
    requires e.Register? || e.ImmediateDone? || e.SetForcedOffline? || e.Probe? || e.CallDrain? || e.Wake?
    ensures Step(w, e).sys.queue == w.sys.queue && Balanced(w, Step(w, e))
  {
    match e
    case Wake(_) => WakeIsBalanced(w, e);
    case CallDrain => CallDrainIsBalanced(w, e);
    case SetForcedOffline(_) => StatusIsBalanced(w, e);
    case Probe(_) => StatusIsBalanced(w, e);
    case Register(_) => FlightStays(w, Step(w, e));
    case ImmediateDone(_) => FlightStays(w, Step(w, e));
  }

  lemma RestartIsBalanced(w: World, e: Event)
    requires SingleFlight(w.sys) && Possible(w, e) && e.Restart?
    requires Restored(w.sys.disk) == w.sys.queue
    ensures Step(w, e).sys.queue == w.sys.queue && Balanced(w, Step(w, e))
  {
    var f := w.sys.frames;
    if |f| == 1 {
      assert CutIds(f[1..]) == multiset{};
      if f[0].Executing? {
        assert f[0].action in w.sys.queue;
        assert CutIds(f) == multiset{f[0].action.id};
      }
    }
  }

  lemma DoneKeepsLedger(w: World, e: Event)
    requires Safe(w) && Ledger(w) && Possible(w, e) && e.ExecDone?
    ensures Ledger(Step(w, e))
  {
    var t, q := Step(w, e), w.sys.queue;
    OrderedIsApart(w);
    CompletedHead(q);
    assert Removed(w.sys.frames, e.k) == [];
    assert QueuedEntry(w, q[0]);
    SettleOrder(w, t, Completed(q[0]));
    SettleBooks(w, t, Completed(q[0]));
  }

  /** A failed attempt is one more failure of the head, which is dropped or kept in place. */
  lemma FailedIs(w: World, e: Event)
    requires Safe(w) && Possible(w, e) && e.ExecFailed?
    ensures w.sys.queue != [] && Active(w.sys, w.sys.queue[0].id) == 1
    ensures var t, q := Step(w, e), w.sys.queue;
            var a := Failed(q[0], e.error);
            var dropped := a.retries >= a.maxRetries;
            && t.sys.frames == [Sleeping]
            && t.sys.queue == (if dropped then [] else [a]) + q[1..]
            && t.hist == w.hist.(
                 settled := w.hist.settled + (if dropped then [Dropped(a)] else []),
                 fails := w.hist.fails + multiset{a.id},
                 synced := e.wrote)
  {
    FailedHead(w.sys.queue, e.error);
    FindInDistinct(w.sys.queue, 0);
    assert Started(w.sys, e) == multiset{};
  }

  lemma FailedKeepsLedger(w: World, e: Event)
    requires Safe(w) && Ledger(w) && Possible(w, e) && e.ExecFailed?
    ensures Ledger(Step(w, e))
  {
    var t, q := Step(w, e), w.sys.queue;
    OrderedIsApart(w);
    FailedIs(w, e);
    var a := Failed(q[0], e.error);
    assert QueuedEntry(w, q[0]);
    if a.retries >= a.maxRetries {
      SettleOrder(w, t, Dropped(a));
      SettleBooks(w, t, Dropped(a));
    } else {
      IdsRewriteHead(q, a);
      SameOrder(w, t);
      RetryBooks(w, t, a);
    }
  }

  lemma FlowKeepsLedger(w: World, e: Event)
    requires Safe(w) && Ledger(w) && Possible(w, e)
    requires !e.Submit? && !e.ImmediateFailed? && !e.ExecDone? && !e.ExecFailed?
    requires e.Restart? ==> w.hist.synced
    ensures Ledger(Step(w, e))
  {
    OrderedIsApart(w);
    if e.Restart? {
      RestartIsBalanced(w, e);
    } else {
      FlowIsBalanced(w, e);
    }
    SameOrder(w, Step(w, e));
    FlowBooks(w, Step(w, e));
  }

  lemma StepKeepsLedger(w: World, e: Event)
    requires Safe(w) && Ledger(w) && Possible(w, e)
    requires e.Restart? ==> w.hist.synced
    ensures Ledger(Step(w, e))
  {
    match e
    case Submit(_, _, _, _, _, _) => EnqueueKeepsLedger(w, e);
    case ImmediateFailed(_, _, _, _) => EnqueueKeepsLedger(w, e);
    case ExecDone(_, _) => DoneKeepsLedger(w, e);
    case ExecFailed(_, _, _) => FailedKeepsLedger(w, e);
    case _ => FlowKeepsLedger(w, e);
  }

  lemma {:induction false} RunKeepsLedger(w: World, es: seq<Event>)
    requires Safe(w) && Ledger(w) && Run(w, es) && CleanRestarts(w, es)
    ensures Ledger(After(w, es))
    decreases |es|
  {
    if es != [] {
      StepIsSafe(w, es[0]);
      StepKeepsLedger(w, es[0]);
      RunKeepsLedger(Step(w, es[0]), es[1..]);
    }
  }
}
