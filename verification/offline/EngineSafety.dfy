/** What holds in every state of every run, whatever fails, overlaps or restarts. */
module OfflineSafety {
  import opened Options
  import opened OfflineQueue
  import opened OfflineEngine

  ghost predicate KnownIds(q: seq<Action>, used: set<ActionId>) {
    Distinct(q) && forall a :: a in q ==> a.id in used
  }

  /** At most one drain is active, exactly when the flag is set, and it awaits the queue's head. */
  ghost predicate SingleFlight(s: Sys) {
    && |s.frames| <= 1
    && (s.draining <==> |s.frames| == 1)
    && forall f :: f in s.frames && f.Executing? ==> |s.queue| > 0 && s.queue[0] == f.action
  }

  /** Online and idle, nothing that was queued at the last online edge is still queued. */
  ghost predicate NoLostWakeup(w: World) {
    w.sys.IsOnline() && w.sys.frames == [] ==> forall a :: a in w.sys.queue ==> a.id !in w.hist.edgeIds
  }

  /** Announcements alternate, starting with offline, and the last one is the present status. */
  ghost predicate Alternating(w: World) {
    && (forall i :: 0 <= i < |w.hist.announced| ==> w.hist.announced[i] == (i % 2 == 1))
    && (w.sys.IsOnline() <==> |w.hist.announced| % 2 == 0)
  }

  ghost predicate Safe(w: World) {
    && KnownIds(w.sys.queue, w.hist.used)
    && KnownIds(Restored(w.sys.disk), w.hist.used)
    && w.hist.edgeIds <= w.hist.used
    && SingleFlight(w.sys)
    && NoLostWakeup(w)
    && Alternating(w)
    && (w.hist.synced ==> Restored(w.sys.disk) == w.sys.queue)
  }

  lemma StartIsSafe(disk: Option<seq<Action>>)
    requires Distinct(Restored(disk))
    ensures Safe(Start(disk))
  {
  }

  // The blocks that test the loop.

  /** `t` differs from `s` in its drain at most, keeps it single, and is idle only if there is nothing to do. */
  ghost predicate Drained(s: Sys, t: Sys) {
    && t == s.(draining := t.draining, frames := t.frames)
    && SingleFlight(t)
    && (t.frames == [] ==> !s.IsOnline() || s.queue == [])
  }

  lemma LoopTestIs(s: Sys)
    ensures Drained(s, LoopTest(s.(draining := true), []))
  {
  }

  lemma DrainIs(s: Sys)
    requires SingleFlight(s)
    ensures Drained(s, Drain(s)) && (s.frames != [] ==> Drain(s) == s)
  {
    LoopTestIs(s);
  }

  lemma DrainedIsSafe(w: World, e: Event)
    requires Safe(w) && Possible(w, e) && (e.CallDrain? || e.Wake?)
    requires Drained(w.sys, Next(w.sys, e))
    ensures Safe(Step(w, e))
  {
  }

  lemma CallDrainIsSafe(w: World, e: Event)
    requires Safe(w) && Possible(w, e) && e.CallDrain?
    ensures Safe(Step(w, e))
  {
    DrainIs(w.sys);
    DrainedIsSafe(w, e);
  }

  lemma WakeIsSafe(w: World, e: Event)
    requires Safe(w) && Possible(w, e) && e.Wake?
    ensures Safe(Step(w, e))
  {
    assert Removed(w.sys.frames, e.k) == [];
    LoopTestIs(w.sys);
    assert w.sys.(draining := true) == w.sys;
    DrainedIsSafe(w, e);
  }

  lemma RestartIsSafe(w: World, e: Event)
    requires Safe(w) && Possible(w, e) && e.Restart?
    ensures Safe(Step(w, e))
  {
  }

  /** The status handler, once a flag of `s` has become that of `f`. */
  lemma StatusIs(s: Sys, f: Sys)
    requires SingleFlight(s) && f == s.(online := f.online, forcedOffline := f.forcedOffline)
    ensures var t := StatusChange(f, s.IsOnline());
            && t == f.(draining := t.draining, frames := t.frames)
            && SingleFlight(t)
            && (t.frames == [] ==> s.frames == [] && (Difference(s.IsOnline(), f.IsOnline()) == Some(true) ==> s.queue == []))
  {
    DrainIs(f);
  }

  lemma StatusKeepsWakeup(w: World, e: Event)
    requires Safe(w) && Possible(w, e) && (e.SetForcedOffline? || e.Probe?)
    requires Next(w.sys, e).queue == w.sys.queue
    requires Next(w.sys, e).IsOnline() == Announcement(w.sys, e).GetOr(w.sys.IsOnline())
    requires Next(w.sys, e).frames == [] ==>
               w.sys.frames == [] && (Announcement(w.sys, e) == Some(true) ==> w.sys.queue == [])
    ensures NoLostWakeup(Step(w, e)) && Step(w, e).hist.edgeIds <= Step(w, e).hist.used
  {
  }

  lemma StatusKeepsAlternating(w: World, e: Event)
    requires Alternating(w) && Possible(w, e) && (e.SetForcedOffline? || e.Probe?)
    requires Next(w.sys, e).IsOnline() == Announcement(w.sys, e).GetOr(w.sys.IsOnline())
    ensures Alternating(Step(w, e))
  {
    var a := Announcement(w.sys, e);
    assert Step(w, e).hist.announced == w.hist.announced + if a.Some? then [a.value] else [];
  }

  lemma StatusStepIsSafe(w: World, e: Event)
    requires Safe(w) && Possible(w, e)
    requires e.SetForcedOffline? || e.Probe?
    ensures Safe(Step(w, e))
  {
    StatusIs(w.sys, if e.Probe? then w.sys.(online := e.reachable) else w.sys.(forcedOffline := e.enabled));
    StatusKeepsWakeup(w, e);
    StatusKeepsAlternating(w, e);
  }

  // The other blocks.

  lemma EnqueueStepIsSafe(w: World, e: Event)
    requires Safe(w) && Possible(w, e)
    requires e.ImmediateFailed? || (e.Submit? && !w.sys.IsOnline())
    ensures Safe(Step(w, e))
  {
    var q, t := w.sys.queue, Next(w.sys, e);
    assert t.queue == q + [t.queue[|q|]] && t.queue[|q|].id == e.id;
    assert KnownIds(t.queue, Step(w, e).hist.used);
    assert SingleFlight(t);
  }

  lemma QuietStepIsSafe(w: World, e: Event)
    requires Safe(w) && Possible(w, e)
    requires e.ImmediateDone? || e.Register? || (e.Submit? && w.sys.IsOnline())
    ensures Safe(Step(w, e))
  {
    var s, t := w.sys, Next(w.sys, e);
    assert t == s.(inflight := t.inflight, executors := t.executors);
  }

  lemma DoneIs(w: World, e: Event)
    requires Safe(w) && Possible(w, e) && e.ExecDone?
    ensures w.sys.queue != [] && Drained(Saved(w.sys, w.sys.queue[1..], e.wrote), Next(w.sys, e))
  {
    var s := w.sys;
    CompletedHead(s.queue);
    assert Removed(s.frames, e.k) == [];
    var after := Saved(s, s.queue[1..], e.wrote);
    LoopTestIs(after);
    assert after.(draining := true) == after;
  }

  lemma DoneStepIsSafe(w: World, e: Event)
    requires Safe(w) && Possible(w, e) && e.ExecDone?
    ensures Safe(Step(w, e))
  {
    DoneIs(w, e);
    TailIsKnown(w.sys.queue, w.hist.used);
  }

  lemma TailIsKnown(q: seq<Action>, used: set<ActionId>)
    requires q != [] && KnownIds(q, used)
    ensures KnownIds(q[1..], used)
  {
  }

  lemma FailedStepIsSafe(w: World, e: Event)
    requires Safe(w) && Possible(w, e) && e.ExecFailed?
    ensures Safe(Step(w, e))
  {
    var s, t := w.sys, Next(w.sys, e);
    FailedHead(s.queue, e.error);
    assert t.frames == [Sleeping];
    assert KnownIds(t.queue, w.hist.used);
  }

  lemma StepIsSafe(w: World, e: Event)
    requires Safe(w) && Possible(w, e)
    ensures Safe(Step(w, e))
  {
    match e
    case SetForcedOffline(_) => StatusStepIsSafe(w, e);
    case Probe(_) => StatusStepIsSafe(w, e);
    case Submit(_, _, _, _, _, _) => if w.sys.IsOnline() { QuietStepIsSafe(w, e); } else { EnqueueStepIsSafe(w, e); }
    case ImmediateFailed(_, _, _, _) => EnqueueStepIsSafe(w, e);
    case ImmediateDone(_) => QuietStepIsSafe(w, e);
    case Register(_) => QuietStepIsSafe(w, e);
    case ExecDone(_, _) => DoneStepIsSafe(w, e);
    case ExecFailed(_, _, _) => FailedStepIsSafe(w, e);
    case CallDrain => CallDrainIsSafe(w, e);
    case Wake(_) => WakeIsSafe(w, e);
    case Restart => RestartIsSafe(w, e);
  }

  /** Every state of every run is safe. */
  lemma {:induction false} RunIsSafe(w: World, es: seq<Event>)
    requires Safe(w) && Run(w, es)
    ensures Safe(After(w, es))
    decreases |es|
  {
    if es != [] {
      StepIsSafe(w, es[0]);
      RunIsSafe(Step(w, es[0]), es[1..]);
    }
  }
}
