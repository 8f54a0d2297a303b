/** The promises of the offline subsystem, stated over whole runs from a start of the program. */
module OfflineTheorems {
  import opened Options
  import opened OfflineQueue
  import opened OfflineEngine
  import opened OfflineSafety
  import opened OfflineLedger

  // ------------------------------------------------- in every run

  /**
   If the system is online and an action that was queued at the latest online edge is still
   queued, then exactly one drain is active, and it is awaiting the head or pausing.
   */
  lemma NoActionForgotten(disk: Option<seq<Action>>, es: seq<Event>, a: Action)
    requires Distinct(Restored(disk)) && Run(Start(disk), es)
    requires var w := After(Start(disk), es);
             w.sys.IsOnline() && a in w.sys.queue && a.id in w.hist.edgeIds
    ensures var s := After(Start(disk), es).sys;
            && s.draining && |s.frames| == 1
            && (s.frames[0].Executing? ==> s.frames[0].action == s.queue[0])
  {
    StartIsSafe(disk);
    RunIsSafe(Start(disk), es);
    var s := After(Start(disk), es).sys;
    assert |s.frames| == 1 && s.frames[0] in s.frames;
  }

  /** Events that never take the system offline and are neither a restart nor a direct call of `drain`. */
  predicate StaysUp(e: Event) {
    match e
    case SetForcedOffline(enabled) => !enabled
    case Probe(reachable) => reachable
    case CallDrain => false
    case Restart => false
    case _ => true
  }

  /**
   The documentation says queued actions survive a restart and replay when connectivity is there.
   They survive, but a process that is online from its start on never replays them: only an edge does.
   */
  lemma {:induction false} LoadedActionsWaitForAnEdge(w: World, es: seq<Event>)
    requires Run(w, es) && w.sys.IsOnline() && w.sys.frames == [] && !w.sys.forcedOffline
    requires forall e :: e in es ==> StaysUp(e)
    ensures var s := After(w, es).sys;
            s.IsOnline() && s.frames == [] && w.sys.queue <= s.queue && After(w, es).hist.settled == w.hist.settled
    decreases |es|
  {
    if es != [] {
      assert StaysUp(es[0]);
      LoadedActionsWaitForAnEdge(Step(w, es[0]), es[1..]);
    }
  }

  /** What starts a drain in an idle process: a direct call, or an announcement of being online, and nothing else. */
  lemma DrainStartsExactly(w: World, e: Event)
    requires Safe(w) && Possible(w, e) && w.sys.frames == []
    ensures var t := Next(w.sys, e);
            t.frames != [] <==>
              && (e.CallDrain? || Announcement(w.sys, e) == Some(true))
              && w.sys.queue != [] && t.IsOnline()
  {
  }

  /**
   The documentation has the queue replay in order, but only actions submitted while offline wait
   behind it: one submitted online never enters the queue, and can finish before anything queued moves.
   */
  lemma OnlineSubmissionsOvertakeTheQueue(w: World, e: Event)
    requires Possible(w, e) && e.Submit?
    ensures var s, t := w.sys, Next(w.sys, e);
            && (s.IsOnline() <==> t.queue == s.queue)
            && (!s.IsOnline() ==> Ids(t.queue) == Ids(s.queue) + [e.id])
            && (s.IsOnline() && e.kind in s.executors ==>
                  var done := ImmediateDone(|s.inflight|);
                  && Possible(Step(w, e), done)
                  && Next(t, done) == s
                  && Step(Step(w, e), done).hist.settled == w.hist.settled)
  {
    var s, t := w.sys, Next(w.sys, e);
    if s.IsOnline() {
      assert Removed(t.inflight, |s.inflight|) == s.inflight;
    } else {
      IdsAppend(s.queue, NewAction(e.id, e.kind, e.payload, e.now, e.maxRetries));
    }
  }

  // ------------------------------------------------- in runs whose restarts follow a successful write

  lemma LedgerHolds(disk: Option<seq<Action>>, es: seq<Event>)
    requires Distinct(Restored(disk)) && Run(Start(disk), es) && CleanRestarts(Start(disk), es)
    ensures Safe(After(Start(disk), es)) && Ledger(After(Start(disk), es))
  {
    StartIsSafe(disk);
    StartHasLedger(disk);
    RunIsSafe(Start(disk), es);
    RunKeepsLedger(Start(disk), es);
  }

  /** What drains completed or dropped, in order, followed by the queue, is what was loaded or enqueued. */
  lemma FifoConservation(disk: Option<seq<Action>>, es: seq<Event>)
    requires Distinct(Restored(disk)) && Run(Start(disk), es) && CleanRestarts(Start(disk), es)
    ensures var w := After(Start(disk), es);
            SettledIds(w.hist.settled) + Ids(w.sys.queue) == w.hist.born && NoDup(w.hist.born)
  {
    LedgerHolds(disk, es);
  }

  lemma BornIsAccountedFor(w: World, id: ActionId)
    requires Safe(w) && Ledger(w) && w.hist.synced && id in w.hist.born
    ensures || (exists a :: a in Restored(w.sys.disk) && a.id == id)
            || (exists x :: x in w.hist.settled && x.action.id == id && x.Completed?)
            || (exists x :: x in w.hist.settled && x.action.id == id && x.Dropped?
                            && x.action.retries >= x.action.maxRetries)
  {
    var n := |w.hist.settled|;
    IdsIndex(w.sys.queue);
    SettledIdsIndex(w.hist.settled);
    var i :| 0 <= i < |w.hist.born| && w.hist.born[i] == id;
    if i < n {
      var x := w.hist.settled[i];
      assert x in w.hist.settled && x.action.id == id && SettledEntry(w.hist, x);
    } else {
      assert w.hist.born[i] == Ids(w.sys.queue)[i - n];
      assert w.sys.queue[i - n] in w.sys.queue;
    }
  }

  /** The last write having succeeded, an enqueued action is in the file, or was completed, or was dropped at its limit. */
  lemma Durability(disk: Option<seq<Action>>, es: seq<Event>, id: ActionId)
    requires Distinct(Restored(disk)) && Run(Start(disk), es) && CleanRestarts(Start(disk), es)
    requires After(Start(disk), es).hist.synced && id in After(Start(disk), es).hist.born
    ensures var w := After(Start(disk), es);
            || (exists a :: a in Restored(w.sys.disk) && a.id == id)
            || (exists x :: x in w.hist.settled && x.action.id == id && x.Completed?)
            || (exists x :: x in w.hist.settled && x.action.id == id && x.Dropped?
                            && x.action.retries >= x.action.maxRetries)
  {
    LedgerHolds(disk, es);
    BornIsAccountedFor(After(Start(disk), es), id);
  }

  /** The failures an action may suffer in all, from its retry count at birth. */
  function Limit(base: nat, maxRetries: int): nat {
    if maxRetries - base < 1 then 1 else maxRetries - base
  }

  /** An id stands for at most one failed immediate execution, and then for an action born without retries. */
  ghost predicate OneTry(h: History) {
    forall id :: h.tried[id] <= 1 && (h.tried[id] == 1 ==> id in h.used && id in h.base && h.base[id] == 0)
  }

  lemma TryStep(w: World, e: Event)
    requires OneTry(w.hist) && Possible(w, e)
    ensures OneTry(Step(w, e).hist)
  {
  }

  lemma {:induction false} RunTriesOnce(w: World, es: seq<Event>)
    requires OneTry(w.hist) && Run(w, es)
    ensures OneTry(After(w, es).hist)
    decreases |es|
  {
    if es != [] {
      TryStep(w, es[0]);
      RunTriesOnce(Step(w, es[0]), es[1..]);
    }
  }

  /**
   Drains call an action's executor at most its limit of times, plus once for every call a restart
   interrupted; an action is dropped after exactly its limit of failures, and completed after fewer.
   An action that was queued because its immediate execution failed costs that one attempt more.
   */
  lemma AttemptBound(disk: Option<seq<Action>>, es: seq<Event>, x: Settlement)
    requires Distinct(Restored(disk)) && Run(Start(disk), es) && CleanRestarts(Start(disk), es)
    requires x in After(Start(disk), es).hist.settled
    ensures var h := After(Start(disk), es).hist;
            var id := x.action.id;
            && id in h.base
            && h.starts[id] <= Limit(h.base[id], x.action.maxRetries) + h.cuts[id]
            && (x.Dropped? ==> h.fails[id] == Limit(h.base[id], x.action.maxRetries))
            && (x.Completed? ==> h.fails[id] < Limit(h.base[id], x.action.maxRetries))
            && h.tried[id] + h.starts[id] <= Limit(h.base[id], x.action.maxRetries) + h.cuts[id] + 1
            && h.tried[id] <= 1 && (h.tried[id] == 1 ==> h.base[id] == 0)
  {
    LedgerHolds(disk, es);
    RunTriesOnce(Start(disk), es);
    assert SettledEntry(After(Start(disk), es).hist, x);
  }

  lemma QueuedAttemptBound(disk: Option<seq<Action>>, es: seq<Event>, a: Action)
    requires Distinct(Restored(disk)) && Run(Start(disk), es) && CleanRestarts(Start(disk), es)
    requires a in After(Start(disk), es).sys.queue
    ensures var h := After(Start(disk), es).hist;
            && a.id in h.base
            && h.fails[a.id] < Limit(h.base[a.id], a.maxRetries)
            && h.starts[a.id] <= Limit(h.base[a.id], a.maxRetries) + h.cuts[a.id]
  {
    LedgerHolds(disk, es);
    assert QueuedEntry(After(Start(disk), es), a);
  }

  /**
   Why the write matters: an action accepted while its write failed is gone after a restart,
   neither completed nor dropped.
   */
  lemma UnwrittenActionIsLost(id: ActionId, kind: Kind, payload: string, now: nat)
    ensures var es := [SetForcedOffline(true), Submit(id, kind, payload, now, None, false), Restart];
            && Run(Start(None), es)
            && After(Start(None), es).hist.born == [id]
            && After(Start(None), es).hist.settled == []
            && After(Start(None), es).sys.queue == []
  {
    var e0, e1, e2 := SetForcedOffline(true), Submit(id, kind, payload, now, None, false), Restart;
    var w0 := Start(None);
    var w1 := Step(w0, e0);
    var w2 := Step(w1, e1);
    assert [e0, e1, e2][1..] == [e1, e2];
    assert [e1, e2][1..] == [e2];
    assert After(w2, [e2]) == Step(w2, e2);
    assert After(w1, [e1, e2]) == After(w2, [e2]);
  }

  // ------------------------------------------------- termination of drains

  predicate IsDrainStep(e: Event) {
    e.ExecDone? || e.ExecFailed? || e.Wake?
  }

  function DrainSteps(es: seq<Event>): nat {
    if es == [] then 0 else (if IsDrainStep(es[0]) then 1 else 0) + DrainSteps(es[1..])
  }

  /** The attempts a step adds to the queue's budget by enqueuing. */
  function Enqueued(s: Sys, e: Event): nat
    requires Enabled(s, e)
  {
    var t := Next(s, e);
    if (e.Submit? || e.ImmediateFailed?) && |t.queue| > |s.queue| then Attempts(t.queue[|s.queue|]) else 0
  }

  function TotalEnqueued(w: World, es: seq<Event>): nat
    requires Run(w, es)
    decreases |es|
  {
    if es == [] then 0 else Enqueued(w.sys, es[0]) + TotalEnqueued(Step(w, es[0]), es[1..])
  }

  /** Two steps per remaining attempt, and one for a pause under way. */
  function Load(s: Sys): nat {
    2 * Budget(s.queue) + if Sleeping in s.frames then 1 else 0
  }

  /** A queue that stays, under a drain that is not put to sleep. */
  lemma SameLoad(s: Sys, t: Sys)
    requires t.queue == s.queue && (Sleeping in t.frames ==> Sleeping in s.frames)
    ensures Load(t) <= Load(s)
  {
  }

  lemma EnqueueLoad(w: World, e: Event)
    requires Possible(w, e) && (e.Submit? || e.ImmediateFailed?)
    ensures Load(Next(w.sys, e)) == Load(w.sys) + 2 * Enqueued(w.sys, e)
  {
    var s, t := w.sys, Next(w.sys, e);
    if t.queue != s.queue {
      BudgetAppend(s.queue, t.queue[|s.queue|]);
    }
  }

  lemma AttemptLoad(w: World, e: Event)
    requires Safe(w) && Possible(w, e) && (e.ExecDone? || e.ExecFailed?)
    ensures Load(Next(w.sys, e)) < Load(w.sys)
  {
    assert w.sys.frames == [w.sys.frames[0]];
    if e.ExecDone? {
      AttemptCosts(w.sys.queue, "");
      assert Removed(w.sys.frames, e.k) == [];
    } else {
      AttemptCosts(w.sys.queue, e.error);
    }
  }

  lemma WakeLoad(w: World, e: Event)
    requires Safe(w) && Possible(w, e) && e.Wake?
    ensures Load(Next(w.sys, e)) < Load(w.sys)
  {
    assert w.sys.frames[e.k] in w.sys.frames;
    assert Removed(w.sys.frames, e.k) == [];
  }

  lemma StatusLoad(w: World, e: Event)
    requires Safe(w) && Possible(w, e) && (e.SetForcedOffline? || e.Probe?)
    ensures Load(Next(w.sys, e)) <= Load(w.sys)
  {
    SameLoad(w.sys, Next(w.sys, e));
  }

  lemma LoadStep(w: World, e: Event)
    requires Safe(w) && Possible(w, e) && !e.Restart?
    ensures (if IsDrainStep(e) then 1 else 0) + Load(Next(w.sys, e)) <= Load(w.sys) + 2 * Enqueued(w.sys, e)
  {
    match e
    case Submit(_, _, _, _, _, _) => EnqueueLoad(w, e);
    case ImmediateFailed(_, _, _, _) => EnqueueLoad(w, e);
    case ExecDone(_, _) => AttemptLoad(w, e);
    case ExecFailed(_, _, _) => AttemptLoad(w, e);
    case Wake(_) => WakeLoad(w, e);
    case SetForcedOffline(_) => StatusLoad(w, e);
    case Probe(_) => StatusLoad(w, e);
    case Register(_) => SameLoad(w.sys, Next(w.sys, e));
    case ImmediateDone(_) => SameLoad(w.sys, Next(w.sys, e));
    case CallDrain => SameLoad(w.sys, Next(w.sys, e));
  }

  /** Without restarts, the work of all drains together is paid for by the queue and what is enqueued. */
  lemma {:induction false} DrainWorkIsBounded(w: World, es: seq<Event>)
    requires Safe(w) && Run(w, es) && forall e :: e in es ==> !e.Restart?
    ensures DrainSteps(es) + Load(After(w, es).sys) <= Load(w.sys) + 2 * TotalEnqueued(w, es)
    decreases |es|
  {
    if es != [] {
      assert es[0] in es;
      LoadStep(w, es[0]);
      StepIsSafe(w, es[0]);
      DrainWorkIsBounded(Step(w, es[0]), es[1..]);
    }
  }

  /** Everything that may happen around a drain, short of going offline, restarting and enqueuing. */
  predicate LeavesAlone(e: Event) {
    match e
    case Restart => false
    case ImmediateFailed(_, _, _, _) => false
    case SetForcedOffline(enabled) => !enabled
    case Probe(reachable) => reachable
    case _ => true
  }

  /** Online, and not idle over a queue. */
  ghost predicate Working(s: Sys) {
    s.IsOnline() && (s.frames != [] || s.queue == [])
  }

  lemma StatusKeepsWorking(w: World, e: Event)
    requires Safe(w) && Possible(w, e) && Working(w.sys) && LeavesAlone(e) && (e.SetForcedOffline? || e.Probe?)
    ensures Next(w.sys, e).IsOnline() && Next(w.sys, e).frames == w.sys.frames && Next(w.sys, e).queue == w.sys.queue
  {
  }

  lemma DrainStepKeepsWorking(w: World, e: Event)
    requires Safe(w) && Possible(w, e) && Working(w.sys) && (IsDrainStep(e) || e.CallDrain?)
    ensures Working(Next(w.sys, e))
  {
    if IsDrainStep(e) && !e.ExecFailed? {
      assert Removed(w.sys.frames, e.k) == [];
    }
  }

  lemma WorkingStep(w: World, e: Event)
    requires Safe(w) && Possible(w, e) && Working(w.sys) && LeavesAlone(e)
    ensures Working(Next(w.sys, e)) && Enqueued(w.sys, e) == 0
  {
    match e
    case SetForcedOffline(_) => StatusKeepsWorking(w, e);
    case Probe(_) => StatusKeepsWorking(w, e);
    case CallDrain => DrainStepKeepsWorking(w, e);
    case Wake(_) => DrainStepKeepsWorking(w, e);
    case ExecDone(_, _) => DrainStepKeepsWorking(w, e);
    case ExecFailed(_, _, _) => DrainStepKeepsWorking(w, e);
    case _ =>
  }

  lemma CanGoOn(w: World)
    requires Safe(w) && w.sys.frames != []
    ensures exists e :: IsDrainStep(e) && Possible(w, e)
  {
    var e := if w.sys.frames[0].Sleeping? then Wake(0) else ExecFailed(0, "", true);
    assert IsDrainStep(e) && Possible(w, e);
  }

  /**
   Whatever happens around it, a drain that stays online while nothing is enqueued takes at most
   `Load` steps, can always take one until it ends, and when it has ended the queue is empty.
   */
  lemma {:induction false} DrainLeftAloneEmptiesTheQueue(w: World, es: seq<Event>)
    requires Safe(w) && Run(w, es) && Working(w.sys)
    requires forall e :: e in es ==> LeavesAlone(e)
    ensures DrainSteps(es) <= Load(w.sys)
    ensures var t := After(w, es);
            && t.sys.IsOnline()
            && (t.sys.frames == [] ==> t.sys.queue == [])
            && (t.sys.frames != [] ==> exists e :: IsDrainStep(e) && Possible(t, e))
    decreases |es|
  {
    if es == [] {
      if w.sys.frames != [] {
        CanGoOn(w);
      }
    } else {
      assert es[0] in es;
      WorkingStep(w, es[0]);
      LoadStep(w, es[0]);
      StepIsSafe(w, es[0]);
      DrainLeftAloneEmptiesTheQueue(Step(w, es[0]), es[1..]);
    }
  }
}
