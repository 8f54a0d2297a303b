/** What was asked for is what is queued, executed and settled; only registered executors complete it. */
module OfflineOrigins {
  import opened Options
  import opened OfflineQueue
  import opened OfflineEngine
  import opened OfflineSafety
  import opened OfflineLedger

  /** What a caller asks for; without a limit of its own, five failures are allowed. */
  datatype Ask = Ask(kind: Kind, payload: string, limit: int)

  /** Per id, the request it stands for, through re-queuing; and every kind an executor was registered for. */
  datatype Origins = Origins(asked: map<ActionId, Ask>, registered: set<Kind>)

  predicate Meets(a: Action, ask: Ask) {
    a.kind == ask.kind && a.payload == ask.payload && a.maxRetries == ask.limit
  }

  ghost predicate Asked(o: Origins, a: Action) {
    a.id in o.asked && Meets(a, o.asked[a.id])
  }

  function Note(o: Origins, s: Sys, e: Event): Origins
    requires Enabled(s, e)
  {
    match e
    case Register(kind) => o.(registered := o.registered + {kind})
    case Submit(id, kind, payload, _, maxRetries, _) =>
      o.(asked := o.asked[id := Ask(kind, payload, if maxRetries.Some? then maxRetries.value else 5)])
    case ImmediateFailed(k, id, _, _) =>
      var before := s.inflight[k].action.id;
      if before in o.asked then o.(asked := o.asked[id := o.asked[before]]) else o
    case _ => o
  }

  function NotesAfter(w: World, o: Origins, es: seq<Event>): Origins
    requires Run(w, es)
    decreases |es|
  {
    if es == [] then o else NotesAfter(Step(w, es[0]), Note(o, w.sys, es[0]), es[1..])
  }

  function AskedAtStart(q: seq<Action>): map<ActionId, Ask> {
    map a | a in q :: a.id := match Find(q, a.id)
                              case Some(i) => Ask(q[i].kind, q[i].payload, q[i].maxRetries)
                              case None => Ask(a.kind, a.payload, a.maxRetries)
  }

  function FirstNotes(disk: Option<seq<Action>>): Origins {
    Origins(AskedAtStart(Restored(disk)), {})
  }

  // ------------------------------------------------- one block at a time

  /** A fresh action for what was asked: no attempts yet and no error. */
  predicate Unattempted(a: Action, id: ActionId, ask: Ask, now: nat) {
    a.id == id && Meets(a, ask) && a.timestamp == now && a.retries == 0 && a.lastError == None
  }

  /** A submission is queued as asked when offline, and started as asked when online. */
  lemma SubmissionIsAsAsked(s: Sys, id: ActionId, kind: Kind, payload: string, now: nat, maxRetries: Option<int>, wrote: bool)
    ensures var t := Next(s, Submit(id, kind, payload, now, maxRetries, wrote));
            var ask := Ask(kind, payload, if maxRetries.Some? then maxRetries.value else 5);
            if s.IsOnline() then
              && |t.inflight| == |s.inflight| + 1 && t.inflight[..|s.inflight|] == s.inflight
              && Unattempted(t.inflight[|s.inflight|].action, id, ask, now)
              && (t.inflight[|s.inflight|].callable <==> kind in s.executors)
            else
              && |t.queue| == |s.queue| + 1 && t.queue[..|s.queue|] == s.queue
              && Unattempted(t.queue[|s.queue|], id, ask, now)
  {
  }

  /** A failed immediate execution is queued as the same request under a new id. */
  lemma RequeuedAsAsked(s: Sys, k: nat, id: ActionId, now: nat, wrote: bool)
    requires k < |s.inflight|
    ensures var t, a := Next(s, ImmediateFailed(k, id, now, wrote)), s.inflight[k].action;
            && |t.queue| == |s.queue| + 1 && t.queue[..|s.queue|] == s.queue
            && Unattempted(t.queue[|s.queue|], id, Ask(a.kind, a.payload, a.maxRetries), now)
            && t.disk == (if wrote then Some(t.queue) else s.disk)
            && t.inflight == s.inflight[..k] + s.inflight[k + 1..]
  {
  }

  /** Registering adds one executor and keeps the others; nothing but a restart takes any away. */
  lemma ExecutorsStay(s: Sys, e: Event)
    requires Enabled(s, e)
    ensures Next(s, e).executors == match e
                                    case Register(kind) => s.executors + {kind}
                                    case Restart => {}
                                    case _ => s.executors
  {
  }

  /** A drain that starts awaits the executor of the head, which can succeed if and only if there is one. */
  lemma StartedDrainAwaitsHead(s: Sys, wrote: bool)
    requires SingleFlight(s) && s.frames == [] && s.IsOnline() && s.queue != []
    ensures var t := Next(s, CallDrain);
            && |t.frames| == 1 && t.frames[0].Executing? && t.frames[0].action == s.queue[0]
            && (Enabled(t, ExecDone(0, wrote)) <==> s.queue[0].kind in s.executors)
  {
  }

  // ------------------------------------------------- every run

  ghost predicate AllAsked(o: Origins, q: seq<Action>) {
    forall a :: a in q ==> Asked(o, a)
  }

  ghost predicate InFlightAsked(s: Sys, o: Origins) {
    && (forall f :: f in s.frames && f.Executing? ==> Asked(o, f.action) && (f.callable ==> f.action.kind in s.executors))
    && (forall i :: i in s.inflight ==> Asked(o, i.action) && (i.callable ==> i.action.kind in s.executors))
  }

  ghost predicate SettledAsked(settled: seq<Settlement>, o: Origins) {
    forall x :: x in settled ==> Asked(o, x.action) && (x.Completed? ==> x.action.kind in o.registered)
  }

  ghost predicate Faithful(w: World, o: Origins) {
    && (forall id :: id in o.asked ==> id in w.hist.used)
    && AllAsked(o, w.sys.queue) && AllAsked(o, Restored(w.sys.disk))
    && InFlightAsked(w.sys, o) && SettledAsked(w.hist.settled, o)
    && w.sys.executors <= o.registered
  }

  /** Later notes keep the earlier ones. */
  ghost predicate Extends(n: Origins, o: Origins) {
    && o.registered <= n.registered
    && forall id :: id in o.asked ==> id in n.asked && n.asked[id] == o.asked[id]
  }

  lemma NotesGrow(w: World, o: Origins, e: Event)
    requires Possible(w, e) && forall id :: id in o.asked ==> id in w.hist.used
    ensures Extends(Note(o, w.sys, e), o)
    ensures forall id :: id in Note(o, w.sys, e).asked ==> id in Step(w, e).hist.used
  {
  }

  lemma AskedStays(n: Origins, o: Origins, q: seq<Action>)
    requires Extends(n, o) && AllAsked(o, q)
    ensures AllAsked(n, q)
  {
  }

  lemma FlightStaysAsked(w: World, o: Origins, n: Origins)
    requires Faithful(w, o) && Extends(n, o)
    ensures InFlightAsked(w.sys, n) && SettledAsked(w.hist.settled, n)
    ensures AllAsked(n, w.sys.queue) && AllAsked(n, Restored(w.sys.disk))
  {
  }

  lemma EnqueueKeepsFaith(w: World, o: Origins, e: Event)
    requires Faithful(w, o) && Possible(w, e) && (e.ImmediateFailed? || (e.Submit? && !w.sys.IsOnline()))
    ensures Faithful(Step(w, e), Note(o, w.sys, e))
  {
    var n, t := Note(o, w.sys, e), Next(w.sys, e);
    NotesGrow(w, o, e);
    FlightStaysAsked(w, o, n);
    if e.ImmediateFailed? {
      RequeuedAsAsked(w.sys, e.k, e.id, e.now, e.wrote);
      assert w.sys.inflight[e.k] in w.sys.inflight;
    }
    assert t.queue == w.sys.queue + [t.queue[|w.sys.queue|]] && Asked(n, t.queue[|w.sys.queue|]);
    assert forall i :: i in t.inflight ==> i in w.sys.inflight;
  }

  lemma StartKeepsFaith(w: World, o: Origins, e: Event)
    requires Faithful(w, o) && Possible(w, e) && e.Submit? && w.sys.IsOnline()
    ensures Faithful(Step(w, e), Note(o, w.sys, e))
  {
    NotesGrow(w, o, e);
    FlightStaysAsked(w, o, Note(o, w.sys, e));
  }

  /** Blocks that add nothing to the queue, and settle at most what was asked for. */
  lemma QuietKeepsFaith(w: World, o: Origins, e: Event)
    requires Faithful(w, o) && Possible(w, e)
    requires e.Register? || e.ImmediateDone? || e.Restart?
    ensures Faithful(Step(w, e), Note(o, w.sys, e))
  {
    NotesGrow(w, o, e);
    FlightStaysAsked(w, o, Note(o, w.sys, e));
    if e.ImmediateDone? {
      assert forall i :: i in Next(w.sys, e).inflight ==> i in w.sys.inflight;
    }
  }

  lemma LoopTestAsked(s: Sys, rest: seq<Frame>, o: Origins)
    requires AllAsked(o, s.queue) && InFlightAsked(s.(frames := rest), o)
    ensures InFlightAsked(LoopTest(s, rest), o)
  {
    if |s.queue| > 0 && s.IsOnline() {
      assert s.queue[0] in s.queue;
    }
  }

  lemma StatusKeepsFaith(w: World, o: Origins, e: Event)
    requires Faithful(w, o) && Possible(w, e) && (e.SetForcedOffline? || e.Probe? || e.CallDrain?)
    ensures Faithful(Step(w, e), Note(o, w.sys, e))
  {
    var s := if e.Probe? then w.sys.(online := e.reachable)
             else if e.SetForcedOffline? then w.sys.(forcedOffline := e.enabled) else w.sys;
    LoopTestAsked(s.(draining := true), s.frames, o);
  }

  lemma WakeKeepsFaith(w: World, o: Origins, e: Event)
    requires Safe(w) && Faithful(w, o) && Possible(w, e) && e.Wake?
    ensures Faithful(Step(w, e), Note(o, w.sys, e))
  {
    assert Removed(w.sys.frames, e.k) == [];
    LoopTestAsked(w.sys, [], o);
  }

  lemma DoneKeepsFaith(w: World, o: Origins, e: Event)
    requires Safe(w) && Faithful(w, o) && Possible(w, e) && e.ExecDone?
    ensures Faithful(Step(w, e), Note(o, w.sys, e))
  {
    assert Removed(w.sys.frames, e.k) == [];
    assert w.sys.frames[e.k] in w.sys.frames;
    var rest := Without(w.sys.queue, w.sys.frames[e.k].action.id);
    assert AllAsked(o, rest);
    LoopTestAsked(Saved(w.sys, rest, e.wrote), [], o);
  }

  lemma FailedKeepsFaith(w: World, o: Origins, e: Event)
    requires Safe(w) && Faithful(w, o) && Possible(w, e) && e.ExecFailed?
    ensures Faithful(Step(w, e), Note(o, w.sys, e))
  {
    var q, t := w.sys.queue, Step(w, e);
    FailedIs(w, e);
    FailedHead(q, e.error);
    assert q[0] in q;
    forall a | a in t.sys.queue
      ensures Asked(o, a)
    {
      assert a in q || a == Failed(q[0], e.error);
    }
  }

  lemma StepKeepsFaith(w: World, o: Origins, e: Event)
    requires Safe(w) && Faithful(w, o) && Possible(w, e)
    ensures Faithful(Step(w, e), Note(o, w.sys, e))
  {
    match e
    case Submit(_, _, _, _, _, _) => if w.sys.IsOnline() { StartKeepsFaith(w, o, e); } else { EnqueueKeepsFaith(w, o, e); }
    case ImmediateFailed(_, _, _, _) => EnqueueKeepsFaith(w, o, e);
    case SetForcedOffline(_) => StatusKeepsFaith(w, o, e);
    case Probe(_) => StatusKeepsFaith(w, o, e);
    case CallDrain => StatusKeepsFaith(w, o, e);
    case Wake(_) => WakeKeepsFaith(w, o, e);
    case ExecDone(_, _) => DoneKeepsFaith(w, o, e);
    case ExecFailed(_, _, _) => FailedKeepsFaith(w, o, e);
    case Register(_) => QuietKeepsFaith(w, o, e);
    case ImmediateDone(_) => QuietKeepsFaith(w, o, e);
    case Restart => QuietKeepsFaith(w, o, e);
  }

  lemma {:induction false} RunKeepsFaith(w: World, o: Origins, es: seq<Event>)
    requires Safe(w) && Faithful(w, o) && Run(w, es)
    ensures Faithful(After(w, es), NotesAfter(w, o, es))
    decreases |es|
  {
    if es != [] {
      StepIsSafe(w, es[0]);
      StepKeepsFaith(w, o, es[0]);
      RunKeepsFaith(Step(w, es[0]), Note(o, w.sys, es[0]), es[1..]);
    }
  }

  lemma StartIsFaithful(disk: Option<seq<Action>>)
    requires Distinct(Restored(disk))
    ensures Faithful(Start(disk), FirstNotes(disk))
  {
    var q := Restored(disk);
    forall a | a in q
      ensures Asked(FirstNotes(disk), a)
    {
      var k :| 0 <= k < |q| && q[k] == a;
      FindInDistinct(q, k);
    }
  }

  // ------------------------------------------------- theorems

  /** Queued, saved, being executed, or settled. */
  ghost predicate Somewhere(w: World, a: Action) {
    || a in w.sys.queue || a in Restored(w.sys.disk)
    || (exists f :: f in w.sys.frames && f.Executing? && f.action == a)
    || (exists i :: i in w.sys.inflight && i.action == a)
    || (exists x :: x in w.hist.settled && x.action == a)
  }

  lemma FaithfulMeans(w: World, o: Origins, a: Action)
    requires Faithful(w, o) && Somewhere(w, a)
    ensures Asked(o, a)
  {
  }

  /**
   In every run, an action that is queued, saved, being executed or settled is of the kind, the payload
   and the limit that were asked for under its id, or before its immediate execution failed.
   */
  lemma ActionsAreAsAsked(disk: Option<seq<Action>>, es: seq<Event>, a: Action)
    requires Distinct(Restored(disk)) && Run(Start(disk), es)
    requires Somewhere(After(Start(disk), es), a)
    ensures var o := NotesAfter(Start(disk), FirstNotes(disk), es);
            a.id in o.asked && a.kind == o.asked[a.id].kind && a.payload == o.asked[a.id].payload
            && a.maxRetries == o.asked[a.id].limit
  {
    StartIsSafe(disk);
    StartIsFaithful(disk);
    RunKeepsFaith(Start(disk), FirstNotes(disk), es);
    FaithfulMeans(After(Start(disk), es), NotesAfter(Start(disk), FirstNotes(disk), es), a);
  }

  /** In every run, drains complete only actions for whose kind an executor was registered. */
  lemma CompletedHadAnExecutor(disk: Option<seq<Action>>, es: seq<Event>, x: Settlement)
    requires Distinct(Restored(disk)) && Run(Start(disk), es)
    requires x in After(Start(disk), es).hist.settled && x.Completed?
    ensures x.action.kind in NotesAfter(Start(disk), FirstNotes(disk), es).registered
  {
    StartIsSafe(disk);
    StartIsFaithful(disk);
    RunKeepsFaith(Start(disk), FirstNotes(disk), es);
  }
}
