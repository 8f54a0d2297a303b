/** What a restart loses and what it brings back, in every run, whichever writes fail. */
module OfflineDisk {
  import opened Options
  import opened OfflineQueue
  import opened OfflineEngine
  import opened OfflineSafety
  import opened OfflineLedger

  /** Since the last successful write or restart, in order: ids enqueued, and ids completed or dropped. */
  datatype Gap = Gap(unsaved: seq<ActionId>, gone: seq<ActionId>)

  const NO_GAP := Gap([], [])

  function Write(g: Gap, wrote: bool): Gap {
    if wrote then NO_GAP else g
  }

  function Track(g: Gap, s: Sys, e: Event): Gap
    requires Enabled(s, e)
  {
    match e
    case Submit(id, _, _, _, _, wrote) =>
      if s.IsOnline() then g else Write(g.(unsaved := g.unsaved + [id]), wrote)
    case ImmediateFailed(_, id, _, wrote) =>
      Write(g.(unsaved := g.unsaved + [id]), wrote)
    case ExecDone(k, wrote) =>
      Write(g.(gone := g.gone + [s.frames[k].action.id]), wrote)
    case ExecFailed(k, error, wrote) =>
      (match Find(s.queue, s.frames[k].action.id)
       case None => g
       case Some(i) =>
         var a := Failed(s.queue[i], error);
         Write(if a.retries >= a.maxRetries then g.(gone := g.gone + [a.id]) else g, wrote))
    case Restart => NO_GAP
    case _ => g
  }

  function GapAfter(w: World, g: Gap, es: seq<Event>): Gap
    requires Run(w, es)
    decreases |es|
  {
    if es == [] then g else GapAfter(Step(w, es[0]), Track(g, w.sys, es[0]), es[1..])
  }

  // ------------------------------------------------- the balance of file and array

  /** The saved ids, then the unsaved ones, are the settled ids, then the queued ones. */
  ghost predicate Balance(saved: seq<ActionId>, g: Gap, queued: seq<ActionId>, used: set<ActionId>) {
    && saved + g.unsaved == g.gone + queued
    && NoDup(saved + g.unsaved)
    && forall i :: 0 <= i < |saved + g.unsaved| ==> (saved + g.unsaved)[i] in used
  }

  lemma Saving(saved: seq<ActionId>, g: Gap, queued: seq<ActionId>, used: set<ActionId>, wrote: bool)
    requires Balance(saved, g, queued, used)
    ensures Balance(if wrote then queued else saved, Write(g, wrote), queued, used)
  {
    if wrote {
      assert queued + [] == queued == [] + queued;
      assert forall i :: 0 <= i < |queued| ==> queued[i] == (g.gone + queued)[|g.gone| + i];
    }
  }

  lemma Enqueuing(saved: seq<ActionId>, g: Gap, queued: seq<ActionId>, used: set<ActionId>, id: ActionId)
    requires Balance(saved, g, queued, used) && id !in used
    ensures Balance(saved, g.(unsaved := g.unsaved + [id]), queued + [id], used + {id})
  {
    assert saved + (g.unsaved + [id]) == (saved + g.unsaved) + [id] == g.gone + (queued + [id]);
  }

  lemma Settling(saved: seq<ActionId>, g: Gap, queued: seq<ActionId>, used: set<ActionId>)
    requires Balance(saved, g, queued, used) && queued != []
    ensures Balance(saved, g.(gone := g.gone + [queued[0]]), queued[1..], used)
  {
    assert queued == [queued[0]] + queued[1..];
    assert g.gone + queued == (g.gone + [queued[0]]) + queued[1..];
  }

  lemma Restarting(saved: seq<ActionId>, g: Gap, queued: seq<ActionId>, used: set<ActionId>)
    requires Balance(saved, g, queued, used)
    ensures Balance(saved, NO_GAP, saved, used)
  {
    assert saved + [] == saved == [] + saved;
    assert forall i :: 0 <= i < |saved| ==> saved[i] == (saved + g.unsaved)[i];
  }

  function SavedIds(s: Sys): seq<ActionId> {
    Ids(Restored(s.disk))
  }

  ghost predicate Accounted(w: World, g: Gap) {
    Balance(SavedIds(w.sys), g, Ids(w.sys.queue), w.hist.used)
  }

  lemma EnqueueKeepsAccount(w: World, g: Gap, e: Event)
    requires Accounted(w, g) && Possible(w, e) && (e.ImmediateFailed? || (e.Submit? && !w.sys.IsOnline()))
    ensures Accounted(Step(w, e), Track(g, w.sys, e))
  {
    var q, t := w.sys.queue, Next(w.sys, e).queue;
    IdsAppend(q, t[|q|]);
    assert t == q + [t[|q|]];
    Enqueuing(SavedIds(w.sys), g, Ids(q), w.hist.used, e.id);
    Saving(SavedIds(w.sys), g.(unsaved := g.unsaved + [e.id]), Ids(t), w.hist.used + {e.id}, e.wrote);
  }

  lemma DoneKeepsAccount(w: World, g: Gap, e: Event)
    requires Safe(w) && Accounted(w, g) && Possible(w, e) && e.ExecDone?
    ensures Accounted(Step(w, e), Track(g, w.sys, e))
  {
    var q := w.sys.queue;
    CompletedHead(q);
    Settling(SavedIds(w.sys), g, Ids(q), w.hist.used);
    Saving(SavedIds(w.sys), g.(gone := g.gone + [q[0].id]), Ids(q[1..]), w.hist.used, e.wrote);
  }

  lemma FailedTrack(w: World, g: Gap, e: Event)
    requires Safe(w) && Possible(w, e) && e.ExecFailed?
    ensures w.sys.queue != []
    ensures var a, t := Failed(w.sys.queue[0], e.error), Next(w.sys, e);
            && Track(g, w.sys, e) == Write(if a.retries >= a.maxRetries then g.(gone := g.gone + [a.id]) else g, e.wrote)
            && t.disk == if e.wrote then Some(t.queue) else w.sys.disk
  {
    FindInDistinct(w.sys.queue, 0);
  }

  lemma FailedKeepsAccount(w: World, g: Gap, e: Event)
    requires Safe(w) && Accounted(w, g) && Possible(w, e) && e.ExecFailed?
    ensures Accounted(Step(w, e), Track(g, w.sys, e))
  {
    var q := w.sys.queue;
    FailedIs(w, e);
    FailedTrack(w, g, e);
    var a := Failed(q[0], e.error);
    var kept, after := Ids(Step(w, e).sys.queue), g;
    if a.retries >= a.maxRetries {
      assert [] + q[1..] == q[1..];
      Settling(SavedIds(w.sys), g, Ids(q), w.hist.used);
      after := g.(gone := g.gone + [a.id]);
    } else {
      IdsRewriteHead(q, a);
    }
    Saving(SavedIds(w.sys), after, kept, w.hist.used, e.wrote);
  }

  lemma RestKeepsAccount(w: World, g: Gap, e: Event)
    requires Accounted(w, g) && Possible(w, e)
    requires !e.ImmediateFailed? && !e.ExecDone? && !e.ExecFailed? && (e.Submit? ==> w.sys.IsOnline())
    ensures Accounted(Step(w, e), Track(g, w.sys, e))
  {
    if e.Restart? {
      Restarting(SavedIds(w.sys), g, Ids(w.sys.queue), w.hist.used);
    } else {
      assert Next(w.sys, e).queue == w.sys.queue && Next(w.sys, e).disk == w.sys.disk;
    }
  }

  lemma StepKeepsAccount(w: World, g: Gap, e: Event)
    requires Safe(w) && Accounted(w, g) && Possible(w, e)
    ensures Accounted(Step(w, e), Track(g, w.sys, e))
  {
    if e.ImmediateFailed? || (e.Submit? && !w.sys.IsOnline()) {
      EnqueueKeepsAccount(w, g, e);
    } else if e.ExecDone? {
      DoneKeepsAccount(w, g, e);
    } else if e.ExecFailed? {
      FailedKeepsAccount(w, g, e);
    } else {
      RestKeepsAccount(w, g, e);
    }
  }

  lemma {:induction false} RunKeepsAccount(w: World, g: Gap, es: seq<Event>)
    requires Safe(w) && Accounted(w, g) && Run(w, es)
    ensures Accounted(After(w, es), GapAfter(w, g, es))
    decreases |es|
  {
    if es != [] {
      StepIsSafe(w, es[0]);
      StepKeepsAccount(w, g, es[0]);
      RunKeepsAccount(Step(w, es[0]), Track(g, w.sys, es[0]), es[1..]);
    }
  }

  // ------------------------------------------------- the gap in terms of the history

  predicate IsTail(t: seq<ActionId>, s: seq<ActionId>) {
    |t| <= |s| && t == s[|s| - |t|..]
  }

  /** The gap holds the last actions enqueued and settled, and is empty after a successful write. */
  ghost predicate Recent(h: History, g: Gap) {
    IsTail(g.unsaved, h.born) && IsTail(g.gone, SettledIds(h.settled)) && (h.synced ==> g == NO_GAP)
  }

  lemma TailAppend(t: seq<ActionId>, s: seq<ActionId>, id: ActionId)
    requires IsTail(t, s)
    ensures IsTail(t + [id], s + [id]) && IsTail([], s + [id])
  {
  }

  lemma EnqueueKeepsRecent(w: World, g: Gap, e: Event)
    requires Recent(w.hist, g) && Possible(w, e) && (e.Submit? || e.ImmediateFailed?)
    ensures Recent(Step(w, e).hist, Track(g, w.sys, e))
  {
    TailAppend(g.unsaved, w.hist.born, e.id);
  }

  lemma SettledTail(gone: seq<ActionId>, settled: seq<Settlement>, x: Settlement)
    requires IsTail(gone, SettledIds(settled))
    ensures IsTail(gone + [x.action.id], SettledIds(settled + [x])) && IsTail([], SettledIds(settled + [x]))
  {
    SettledIdsAppend(settled, x);
    TailAppend(gone, SettledIds(settled), x.action.id);
  }

  lemma DoneKeepsRecent(w: World, g: Gap, e: Event)
    requires Recent(w.hist, g) && Possible(w, e) && e.ExecDone?
    ensures Recent(Step(w, e).hist, Track(g, w.sys, e))
  {
    SettledTail(g.gone, w.hist.settled, Completed(w.sys.frames[e.k].action));
  }

  lemma FailedKeepsRecent(w: World, g: Gap, e: Event)
    requires Recent(w.hist, g) && Possible(w, e) && e.ExecFailed?
    ensures Recent(Step(w, e).hist, Track(g, w.sys, e))
  {
    var found := Find(w.sys.queue, w.sys.frames[e.k].action.id);
    if found.Some? {
      SettledTail(g.gone, w.hist.settled, Dropped(Failed(w.sys.queue[found.value], e.error)));
    }
  }

  lemma StepKeepsRecent(w: World, g: Gap, e: Event)
    requires Recent(w.hist, g) && Possible(w, e)
    ensures Recent(Step(w, e).hist, Track(g, w.sys, e))
  {
    match e
    case Submit(_, _, _, _, _, _) => EnqueueKeepsRecent(w, g, e);
    case ImmediateFailed(_, _, _, _) => EnqueueKeepsRecent(w, g, e);
    case ExecDone(_, _) => DoneKeepsRecent(w, g, e);
    case ExecFailed(_, _, _) => FailedKeepsRecent(w, g, e);
    case _ =>
  }

  lemma {:induction false} RunKeepsRecent(w: World, g: Gap, es: seq<Event>)
    requires Recent(w.hist, g) && Run(w, es)
    ensures Recent(After(w, es).hist, GapAfter(w, g, es))
    decreases |es|
  {
    if es != [] {
      StepKeepsRecent(w, g, es[0]);
      RunKeepsRecent(Step(w, es[0]), Track(g, w.sys, es[0]), es[1..]);
    }
  }

  // ------------------------------------------------- theorems

  lemma StartIsAccounted(disk: Option<seq<Action>>)
    requires Distinct(Restored(disk))
    ensures Accounted(Start(disk), NO_GAP) && Recent(Start(disk).hist, NO_GAP)
  {
    var q := Restored(disk);
    DistinctIds(q);
    assert Ids(q) + [] == Ids(q) == [] + Ids(q);
  }

  /**
   Whatever writes fail and whatever restarts intervene: what the file holds, followed by what was
   enqueued since the last successful write, is what was settled since then, followed by the queue.
   */
  lemma FileAndQueueBalance(disk: Option<seq<Action>>, es: seq<Event>)
    requires Distinct(Restored(disk)) && Run(Start(disk), es)
    ensures var w, g := After(Start(disk), es), GapAfter(Start(disk), NO_GAP, es);
            && SavedIds(w.sys) + g.unsaved == g.gone + Ids(w.sys.queue)
            && NoDup(SavedIds(w.sys) + g.unsaved)
            && Recent(w.hist, g)
  {
    StartIsSafe(disk);
    StartIsAccounted(disk);
    RunKeepsAccount(Start(disk), NO_GAP, es);
    RunKeepsRecent(Start(disk), NO_GAP, es);
  }

  /**
   A restart at any point loses a queued action if and only if it was enqueued since the last
   successful write, and brings a settled action back if and only if it was settled since then
   but not enqueued since then.
   */
  lemma RestartExactly(disk: Option<seq<Action>>, es: seq<Event>, id: ActionId)
    requires Distinct(Restored(disk)) && Run(Start(disk), es)
    ensures var s, g := After(Start(disk), es).sys, GapAfter(Start(disk), NO_GAP, es);
            var reloaded := Ids(Next(s, Restart).queue);
            && (id in Ids(s.queue) ==> (id in reloaded <==> id !in g.unsaved))
            && (id !in Ids(s.queue) ==> (id in reloaded <==> id in g.gone && id !in g.unsaved))
  {
    FileAndQueueBalance(disk, es);
    RestartAt(After(Start(disk), es).sys, GapAfter(Start(disk), NO_GAP, es), id);
  }

  lemma RestartAt(s: Sys, g: Gap, id: ActionId)
    requires SavedIds(s) + g.unsaved == g.gone + Ids(s.queue) && NoDup(SavedIds(s) + g.unsaved)
    ensures var reloaded := Ids(Next(s, Restart).queue);
            && (id in Ids(s.queue) ==> (id in reloaded <==> id !in g.unsaved))
            && (id !in Ids(s.queue) ==> (id in reloaded <==> id in g.gone && id !in g.unsaved))
  {
    assert Ids(Next(s, Restart).queue) == SavedIds(s);
    BalanceMembers(SavedIds(s), g, Ids(s.queue), id);
  }

  lemma BalanceMembers(saved: seq<ActionId>, g: Gap, queued: seq<ActionId>, id: ActionId)
    requires saved + g.unsaved == g.gone + queued && NoDup(saved + g.unsaved)
    ensures id in saved <==> (id in g.gone || id in queued) && id !in g.unsaved
  {
    SplitIds(saved + g.unsaved, saved, g.unsaved);
    assert id in saved + g.unsaved <==> id in saved || id in g.unsaved;
    assert id in g.gone + queued <==> id in g.gone || id in queued;
  }

  /** A restart reloads the very queue it interrupted if and only if both lists are the same, as after a successful write. */
  lemma RestartIsHarmless(disk: Option<seq<Action>>, es: seq<Event>)
    requires Distinct(Restored(disk)) && Run(Start(disk), es)
    ensures var w, g := After(Start(disk), es), GapAfter(Start(disk), NO_GAP, es);
            && (Ids(Next(w.sys, Restart).queue) == Ids(w.sys.queue) <==> g.unsaved == g.gone)
            && (w.hist.synced ==> g.unsaved == g.gone)
  {
    FileAndQueueBalance(disk, es);
    HarmlessAt(After(Start(disk), es).sys, GapAfter(Start(disk), NO_GAP, es));
  }

  lemma HarmlessAt(s: Sys, g: Gap)
    requires SavedIds(s) + g.unsaved == g.gone + Ids(s.queue) && NoDup(SavedIds(s) + g.unsaved)
    ensures Ids(Next(s, Restart).queue) == Ids(s.queue) <==> g.unsaved == g.gone
  {
    assert Ids(Next(s, Restart).queue) == SavedIds(s);
    SameIffSame(SavedIds(s), g, Ids(s.queue));
  }

  lemma SameIffSame(saved: seq<ActionId>, g: Gap, queued: seq<ActionId>)
    requires saved + g.unsaved == g.gone + queued && NoDup(saved + g.unsaved)
    ensures saved == queued <==> g.unsaved == g.gone
  {
    var all := saved + g.unsaved;
    if saved != [] && g.gone != [] {
      assert all[0] == g.gone[0] == saved[0];
      if queued != [] {
        assert all[|g.gone|] == queued[0];
      }
      if g.unsaved != [] {
        assert all[|saved|] == g.unsaved[0];
      }
    } else if saved == [] {
      assert all == g.unsaved;
      assert g.unsaved == g.gone ==> |queued| == 0;
    } else {
      assert all == queued;
      assert saved == queued ==> |g.unsaved| == 0;
      assert g.unsaved == g.gone ==> all == saved;
    }
  }

  // ------------------------------------------------- the fate of every action

  /** The queued actions an event forgets: at a restart, the unsaved ones. */
  function LostBy(s: Sys, g: Gap, e: Event): set<ActionId> {
    if e.Restart? then set id | id in g.unsaved && id in Ids(s.queue) else {}
  }

  function Lost(w: World, g: Gap, es: seq<Event>): set<ActionId>
    requires Run(w, es)
    decreases |es|
  {
    if es == [] then {}
    else LostBy(w.sys, g, es[0]) + Lost(Step(w, es[0]), Track(g, w.sys, es[0]), es[1..])
  }

  ghost predicate Traced(w: World, lost: set<ActionId>) {
    forall id :: id in w.hist.born ==> id in Ids(w.sys.queue) || id in SettledIds(w.hist.settled) || id in lost
  }

  ghost predicate DropsAtLimit(h: History) {
    forall x :: x in h.settled && x.Dropped? ==> x.action.retries >= x.action.maxRetries
  }

  lemma TracedEnqueue(w: World, e: Event, lost: set<ActionId>)
    requires Traced(w, lost) && Possible(w, e) && (e.ImmediateFailed? || (e.Submit? && !w.sys.IsOnline()))
    ensures Traced(Step(w, e), lost)
  {
    var q, t := w.sys.queue, Next(w.sys, e).queue;
    IdsAppend(q, t[|q|]);
    assert t == q + [t[|q|]];
  }

  lemma SettledIdsAppend(settled: seq<Settlement>, x: Settlement)
    ensures SettledIds(settled + [x]) == SettledIds(settled) + [x.action.id]
  {
    assert (settled + [x])[..|settled|] == settled;
  }

  lemma TracedDone(w: World, e: Event, lost: set<ActionId>)
    requires Safe(w) && Traced(w, lost) && Possible(w, e) && e.ExecDone?
    ensures Traced(Step(w, e), lost)
  {
    var q := w.sys.queue;
    CompletedHead(q);
    SettledIdsAppend(w.hist.settled, Completed(q[0]));
    assert Ids(q) == [q[0].id] + Ids(q[1..]);
  }

  lemma TracedFailed(w: World, e: Event, lost: set<ActionId>)
    requires Safe(w) && Traced(w, lost) && Possible(w, e) && e.ExecFailed?
    ensures Traced(Step(w, e), lost)
  {
    var q := w.sys.queue;
    FailedIs(w, e);
    var a := Failed(q[0], e.error);
    if a.retries >= a.maxRetries {
      assert [] + q[1..] == q[1..];
      SettledIdsAppend(w.hist.settled, Dropped(a));
      assert Ids(q) == [q[0].id] + Ids(q[1..]);
    } else {
      IdsRewriteHead(q, a);
    }
  }

  lemma TracedRestart(w: World, g: Gap, lost: set<ActionId>)
    requires Accounted(w, g) && Traced(w, lost)
    ensures Traced(Step(w, Restart), lost + LostBy(w.sys, g, Restart))
  {
    var t := Step(w, Restart);
    forall id | id in t.hist.born
      ensures id in Ids(t.sys.queue) || id in SettledIds(t.hist.settled) || id in lost + LostBy(w.sys, g, Restart)
    {
      RestartAt(w.sys, g, id);
    }
  }

  lemma StepKeepsTraced(w: World, g: Gap, e: Event, lost: set<ActionId>)
    requires Safe(w) && Accounted(w, g) && Traced(w, lost) && Possible(w, e)
    ensures Traced(Step(w, e), lost + LostBy(w.sys, g, e))
  {
    assert !e.Restart? ==> lost + LostBy(w.sys, g, e) == lost;
    match e
    case Submit(_, _, _, _, _, _) => if !w.sys.IsOnline() { TracedEnqueue(w, e, lost); }
    case ImmediateFailed(_, _, _, _) => TracedEnqueue(w, e, lost);
    case ExecDone(_, _) => TracedDone(w, e, lost);
    case ExecFailed(_, _, _) => TracedFailed(w, e, lost);
    case Restart => TracedRestart(w, g, lost);
    case _ => assert Next(w.sys, e).queue == w.sys.queue;
  }

  lemma {:induction false} RunKeepsTraced(w: World, g: Gap, es: seq<Event>, lost: set<ActionId>)
    requires Safe(w) && Accounted(w, g) && Traced(w, lost) && Run(w, es)
    ensures Traced(After(w, es), lost + Lost(w, g, es))
    decreases |es|
  {
    if es == [] {
      assert lost + {} == lost;
    } else {
      var more := lost + LostBy(w.sys, g, es[0]);
      StepIsSafe(w, es[0]);
      StepKeepsAccount(w, g, es[0]);
      StepKeepsTraced(w, g, es[0], lost);
      RunKeepsTraced(Step(w, es[0]), Track(g, w.sys, es[0]), es[1..], more);
      assert more + Lost(Step(w, es[0]), Track(g, w.sys, es[0]), es[1..]) == lost + Lost(w, g, es);
    }
  }

  lemma {:induction false} RunDropsAtLimit(w: World, es: seq<Event>)
    requires DropsAtLimit(w.hist) && Run(w, es)
    ensures DropsAtLimit(After(w, es).hist)
    decreases |es|
  {
    if es != [] {
      RunDropsAtLimit(Step(w, es[0]), es[1..]);
    }
  }

  // What is lost stays lost: it is in none of the other places.

  ghost predicate Separate(saved: seq<ActionId>, g: Gap, queued: seq<ActionId>, settled: seq<ActionId>,
                           used: set<ActionId>, lost: set<ActionId>) {
    && (forall id :: id in settled ==> id in used)
    && (forall id :: id in g.unsaved && id in settled ==> id in g.gone)
    && (forall id :: id in lost ==> id in used && id !in saved && id !in queued && id !in settled)
  }

  lemma SeparateSaving(saved: seq<ActionId>, g: Gap, queued: seq<ActionId>, settled: seq<ActionId>,
                       used: set<ActionId>, lost: set<ActionId>, wrote: bool)
    requires Separate(saved, g, queued, settled, used, lost)
    ensures Separate(if wrote then queued else saved, Write(g, wrote), queued, settled, used, lost)
  {
  }

  lemma SeparateEnqueuing(saved: seq<ActionId>, g: Gap, queued: seq<ActionId>, settled: seq<ActionId>,
                          used: set<ActionId>, lost: set<ActionId>, id: ActionId)
    requires Separate(saved, g, queued, settled, used, lost) && id !in used
    ensures Separate(saved, g.(unsaved := g.unsaved + [id]), queued + [id], settled, used + {id}, lost)
  {
  }

  lemma SeparateSettling(saved: seq<ActionId>, g: Gap, queued: seq<ActionId>, settled: seq<ActionId>,
                         used: set<ActionId>, lost: set<ActionId>)
    requires Separate(saved, g, queued, settled, used, lost) && Balance(saved, g, queued, used) && queued != []
    ensures Separate(saved, g.(gone := g.gone + [queued[0]]), queued[1..], settled + [queued[0]], used, lost)
  {
    assert queued[0] == (g.gone + queued)[|g.gone|];
    assert queued[0] in queued && queued[0] in used;
    assert forall id :: id in queued[1..] ==> id in queued;
  }

  lemma SeparateRestarting(saved: seq<ActionId>, g: Gap, queued: seq<ActionId>, settled: seq<ActionId>,
                           used: set<ActionId>, lost: set<ActionId>)
    requires Separate(saved, g, queued, settled, used, lost) && Balance(saved, g, queued, used)
    ensures Separate(saved, NO_GAP, saved, settled, used, lost + set id | id in g.unsaved && id in queued)
  {
    SplitIds(saved + g.unsaved, saved, g.unsaved);
    SplitIds(g.gone + queued, g.gone, queued);
    forall id | id in g.unsaved
      ensures id in used && id !in saved
    {
      var i :| 0 <= i < |g.unsaved| && g.unsaved[i] == id;
      assert (saved + g.unsaved)[|saved| + i] == id;
    }
  }

  ghost predicate LostApart(w: World, g: Gap, lost: set<ActionId>) {
    Separate(SavedIds(w.sys), g, Ids(w.sys.queue), SettledIds(w.hist.settled), w.hist.used, lost)
  }

  lemma EnqueueKeepsLost(w: World, g: Gap, e: Event, lost: set<ActionId>)
    requires LostApart(w, g, lost) && Possible(w, e) && (e.ImmediateFailed? || (e.Submit? && !w.sys.IsOnline()))
    ensures LostApart(Step(w, e), Track(g, w.sys, e), lost)
  {
    var q, t := w.sys.queue, Next(w.sys, e).queue;
    var saved, settled := SavedIds(w.sys), SettledIds(w.hist.settled);
    IdsAppend(q, t[|q|]);
    assert t == q + [t[|q|]];
    SeparateEnqueuing(saved, g, Ids(q), settled, w.hist.used, lost, e.id);
    SeparateSaving(saved, g.(unsaved := g.unsaved + [e.id]), Ids(t), settled, w.hist.used + {e.id}, lost, e.wrote);
  }

  lemma DoneKeepsLost(w: World, g: Gap, e: Event, lost: set<ActionId>)
    requires Safe(w) && Accounted(w, g) && LostApart(w, g, lost) && Possible(w, e) && e.ExecDone?
    ensures LostApart(Step(w, e), Track(g, w.sys, e), lost)
  {
    var q, saved, settled := w.sys.queue, SavedIds(w.sys), SettledIds(w.hist.settled);
    CompletedHead(q);
    SettledIdsAppend(w.hist.settled, Completed(q[0]));
    SeparateSettling(saved, g, Ids(q), settled, w.hist.used, lost);
    SeparateSaving(saved, g.(gone := g.gone + [q[0].id]), Ids(q[1..]), settled + [q[0].id], w.hist.used, lost, e.wrote);
  }

  lemma FailedKeepsLost(w: World, g: Gap, e: Event, lost: set<ActionId>)
    requires Safe(w) && Accounted(w, g) && LostApart(w, g, lost) && Possible(w, e) && e.ExecFailed?
    ensures LostApart(Step(w, e), Track(g, w.sys, e), lost)
  {
    var q, saved, settled := w.sys.queue, SavedIds(w.sys), SettledIds(w.hist.settled);
    FailedIs(w, e);
    FailedTrack(w, g, e);
    var a := Failed(q[0], e.error);
    var after := g;
    if a.retries >= a.maxRetries {
      assert [] + q[1..] == q[1..];
      SettledIdsAppend(w.hist.settled, Dropped(a));
      SeparateSettling(saved, g, Ids(q), settled, w.hist.used, lost);
      settled, after := settled + [a.id], g.(gone := g.gone + [a.id]);
    } else {
      IdsRewriteHead(q, a);
    }
    SeparateSaving(saved, after, Ids(Step(w, e).sys.queue), settled, w.hist.used, lost, e.wrote);
  }

  lemma StepKeepsLost(w: World, g: Gap, e: Event, lost: set<ActionId>)
    requires Safe(w) && Accounted(w, g) && LostApart(w, g, lost) && Possible(w, e)
    ensures LostApart(Step(w, e), Track(g, w.sys, e), lost + LostBy(w.sys, g, e))
  {
    assert !e.Restart? ==> lost + LostBy(w.sys, g, e) == lost;
    if e.ImmediateFailed? || (e.Submit? && !w.sys.IsOnline()) {
      EnqueueKeepsLost(w, g, e, lost);
    } else if e.ExecDone? {
      DoneKeepsLost(w, g, e, lost);
    } else if e.ExecFailed? {
      FailedKeepsLost(w, g, e, lost);
    } else if e.Restart? {
      SeparateRestarting(SavedIds(w.sys), g, Ids(w.sys.queue), SettledIds(w.hist.settled), w.hist.used, lost);
    } else {
      assert Next(w.sys, e).queue == w.sys.queue && Next(w.sys, e).disk == w.sys.disk;
    }
  }

  lemma {:induction false} RunKeepsLost(w: World, g: Gap, es: seq<Event>, lost: set<ActionId>)
    requires Safe(w) && Accounted(w, g) && LostApart(w, g, lost) && Run(w, es)
    ensures LostApart(After(w, es), GapAfter(w, g, es), lost + Lost(w, g, es))
    decreases |es|
  {
    if es == [] {
      assert lost + {} == lost;
    } else {
      var more := lost + LostBy(w.sys, g, es[0]);
      StepIsSafe(w, es[0]);
      StepKeepsAccount(w, g, es[0]);
      StepKeepsLost(w, g, es[0], lost);
      RunKeepsLost(Step(w, es[0]), Track(g, w.sys, es[0]), es[1..], more);
      assert more + Lost(Step(w, es[0]), Track(g, w.sys, es[0]), es[1..]) == lost + Lost(w, g, es);
    }
  }

  lemma AllTraced(disk: Option<seq<Action>>, es: seq<Event>)
    requires Distinct(Restored(disk)) && Run(Start(disk), es)
    ensures Traced(After(Start(disk), es), Lost(Start(disk), NO_GAP, es))
  {
    StartIsSafe(disk);
    StartIsAccounted(disk);
    assert Traced(Start(disk), {});
    RunKeepsTraced(Start(disk), NO_GAP, es, {});
    assert {} + Lost(Start(disk), NO_GAP, es) == Lost(Start(disk), NO_GAP, es);
  }

  lemma AllLostApart(disk: Option<seq<Action>>, es: seq<Event>)
    requires Distinct(Restored(disk)) && Run(Start(disk), es)
    ensures LostApart(After(Start(disk), es), GapAfter(Start(disk), NO_GAP, es), Lost(Start(disk), NO_GAP, es))
  {
    StartLost(disk);
    LostApartFrom(Start(disk), NO_GAP, es);
  }

  lemma LostApartFrom(w: World, g: Gap, es: seq<Event>)
    requires Safe(w) && Accounted(w, g) && LostApart(w, g, {}) && Run(w, es)
    ensures LostApart(After(w, es), GapAfter(w, g, es), Lost(w, g, es))
  {
    var lost := Lost(w, g, es);
    assert {} + lost == lost;
    RunKeepsLost(w, g, es, {});
  }

  /**
   An action was forgotten, queued and unsaved when a restart came, if and only if it is in none of the
   places where an action can be accounted for: the file, the queue, and what was completed or dropped.
   */
  lemma LostExactly(disk: Option<seq<Action>>, es: seq<Event>, id: ActionId)
    requires Distinct(Restored(disk)) && Run(Start(disk), es) && id in After(Start(disk), es).hist.born
    ensures var w := After(Start(disk), es);
            id in Lost(Start(disk), NO_GAP, es) <==>
              id !in SavedIds(w.sys) && id !in Ids(w.sys.queue) && id !in SettledIds(w.hist.settled)
  {
    AllTraced(disk, es);
    AllLostApart(disk, es);
    LostAt(After(Start(disk), es), GapAfter(Start(disk), NO_GAP, es), Lost(Start(disk), NO_GAP, es), id);
  }

  lemma StartLost(disk: Option<seq<Action>>)
    requires Distinct(Restored(disk))
    ensures Safe(Start(disk)) && Accounted(Start(disk), NO_GAP) && LostApart(Start(disk), NO_GAP, {})
  {
    StartIsSafe(disk);
    StartIsAccounted(disk);
  }

  lemma LostAt(w: World, g: Gap, lost: set<ActionId>, id: ActionId)
    requires Traced(w, lost) && LostApart(w, g, lost) && id in w.hist.born
    ensures id in lost <==> id !in SavedIds(w.sys) && id !in Ids(w.sys.queue) && id !in SettledIds(w.hist.settled)
  {
  }

  /**
   In every run, whatever writes fail and whenever it restarts, each action ever loaded or enqueued is
   in the file, or still queued though not yet saved, or was completed, or was dropped at its limit,
   or was queued and unsaved when a restart came.
   */
  lemma EveryFate(disk: Option<seq<Action>>, es: seq<Event>, id: ActionId)
    requires Distinct(Restored(disk)) && Run(Start(disk), es) && id in After(Start(disk), es).hist.born
    ensures var w, g := After(Start(disk), es), GapAfter(Start(disk), NO_GAP, es);
            || id in SavedIds(w.sys)
            || (id in Ids(w.sys.queue) && id in g.unsaved)
            || (exists x :: x in w.hist.settled && x.action.id == id &&
                            (x.Dropped? ==> x.action.retries >= x.action.maxRetries))
            || id in Lost(Start(disk), NO_GAP, es)
  {
    StartIsSafe(disk);
    StartIsAccounted(disk);
    AllTraced(disk, es);
    RunDropsAtLimit(Start(disk), es);
    RunKeepsAccount(Start(disk), NO_GAP, es);
    FateAt(After(Start(disk), es), GapAfter(Start(disk), NO_GAP, es), Lost(Start(disk), NO_GAP, es), id);
  }

  lemma FateAt(w: World, g: Gap, lost: set<ActionId>, id: ActionId)
    requires Accounted(w, g) && Traced(w, lost) && DropsAtLimit(w.hist) && id in w.hist.born
    ensures || id in SavedIds(w.sys)
            || (id in Ids(w.sys.queue) && id in g.unsaved)
            || (exists x :: x in w.hist.settled && x.action.id == id &&
                            (x.Dropped? ==> x.action.retries >= x.action.maxRetries))
            || id in lost
  {
    BalanceMembers(SavedIds(w.sys), g, Ids(w.sys.queue), id);
    if id in SettledIds(w.hist.settled) {
      SettledMember(w.hist.settled, id);
    }
  }

  lemma SettledMember(settled: seq<Settlement>, id: ActionId)
    requires id in SettledIds(settled)
    ensures exists x :: x in settled && x.action.id == id
  {
    SettledIdsIndex(settled);
    var i :| 0 <= i < |SettledIds(settled)| && SettledIds(settled)[i] == id;
    assert settled[i] in settled;
  }

  // ------------------------------------------------- an action carried out twice

  ghost predicate Reachable(disk: Option<seq<Action>>, w: World) {
    exists es :: Run(Start(disk), es) && After(Start(disk), es) == w
  }

  lemma {:induction false} OneMore(w: World, es: seq<Event>, e: Event)
    requires Run(w, es) && Possible(After(w, es), e)
    ensures Run(w, es + [e]) && After(w, es + [e]) == Step(After(w, es), e)
    decreases |es|
  {
    if es == [] {
      assert [] + [e] == [e];
      assert [e][1..] == [];
    } else {
      assert (es + [e])[1..] == es[1..] + [e];
      OneMore(Step(w, es[0]), es[1..], e);
    }
  }

  lemma Reach(disk: Option<seq<Action>>, w: World, e: Event)
    requires Reachable(disk, w) && Possible(w, e)
    ensures Reachable(disk, Step(w, e))
  {
    var es :| Run(Start(disk), es) && After(Start(disk), es) == w;
    OneMore(Start(disk), es, e);
  }

  /** An online process awaiting the executor of its only action, which the file holds too. */
  ghost predicate Carrying(w: World, a: Action, settled: seq<Settlement>, starts: nat) {
    && w.sys == Sys([a], Some([a]), true, false, true, [Executing(a, true)], [], {a.kind})
    && w.hist.settled == settled && w.hist.starts[a.id] == starts
  }

  /** A start or restart, forced offline, with the action's executor registered. */
  ghost predicate Ready(w: World, a: Action, settled: seq<Settlement>, starts: nat) {
    && w.sys == Boot(Some([a])).(forcedOffline := true, executors := {a.kind})
    && w.hist.settled == settled && w.hist.starts[a.id] == starts
  }

  lemma GetReady(disk: Option<seq<Action>>, w: World, a: Action) returns (v: World)
    requires Reachable(disk, w) && w.sys == Boot(Some([a]))
    ensures Reachable(disk, v) && Ready(v, a, w.hist.settled, w.hist.starts[a.id])
  {
    Reach(disk, w, SetForcedOffline(true));
    v := Step(w, SetForcedOffline(true));
    assert v.sys == Boot(Some([a])).(forcedOffline := true);
    Reach(disk, v, Register(a.kind));
    v := Step(v, Register(a.kind));
  }

  lemma Awakened(s: Sys, a: Action)
    requires s == Boot(Some([a])).(forcedOffline := true, executors := {a.kind})
    ensures Next(s, SetForcedOffline(false)) == Sys([a], Some([a]), true, false, true, [Executing(a, true)], [], {a.kind})
    ensures Started(s, SetForcedOffline(false)) == multiset{a.id}
  {
  }

  lemma GoOnline(disk: Option<seq<Action>>, w: World, a: Action, settled: seq<Settlement>, starts: nat) returns (v: World)
    requires Reachable(disk, w) && Ready(w, a, settled, starts)
    ensures Reachable(disk, v) && Carrying(v, a, settled, starts + 1)
  {
    Awakened(w.sys, a);
    Reach(disk, w, SetForcedOffline(false));
    v := Step(w, SetForcedOffline(false));
  }

  /** An action queued offline and written, and then a restart. */
  lemma Prepared(id: ActionId, kind: Kind, payload: string, now: nat) returns (v: World)
    ensures Reachable(None, v) && v.sys == Boot(Some([NewAction(id, kind, payload, now, None)]))
    ensures v.hist.settled == [] && v.hist.starts == multiset{}
  {
    var w := Start(None);
    assert Run(w, []) && After(w, []) == w;
    Reach(None, w, SetForcedOffline(true));
    var w1 := Step(w, SetForcedOffline(true));
    var submit := Submit(id, kind, payload, now, None, true);
    Reach(None, w1, submit);
    var w2 := Step(w1, submit);
    assert w2.sys.queue == [NewAction(id, kind, payload, now, None)];
    Reach(None, w2, Restart);
    v := Step(w2, Restart);
  }

  /** The executor succeeds, the write of the completion fails, and the process restarts. */
  lemma CompletedUnwritten(disk: Option<seq<Action>>, w: World, a: Action) returns (v: World)
    requires Reachable(disk, w) && Carrying(w, a, [], 1)
    ensures Reachable(disk, v) && v.sys == Boot(Some([a]))
    ensures v.hist.settled == [Completed(a)] && v.hist.starts[a.id] == 1
  {
    assert Removed(w.sys.frames, 0) == [];
    Reach(disk, w, ExecDone(0, false));
    var w1 := Step(w, ExecDone(0, false));
    assert w1.sys.queue == [];
    Reach(disk, w1, Restart);
    v := Step(w1, Restart);
  }

  /** The twin of a lost action: one already completed whose executor is called again after a restart. */
  lemma CompletedActionRunsAgain(id: ActionId, kind: Kind, payload: string, now: nat)
    ensures var a := NewAction(id, kind, payload, now, None);
            exists w :: Reachable(None, w) && Carrying(w, a, [Completed(a)], 2)
  {
    var a := NewAction(id, kind, payload, now, None);
    var w := Prepared(id, kind, payload, now);
    w := GetReady(None, w, a);
    w := GoOnline(None, w, a, [], 0);
    w := CompletedUnwritten(None, w, a);
    w := GetReady(None, w, a);
    w := GoOnline(None, w, a, [Completed(a)], 1);
    assert Carrying(w, a, [Completed(a)], 2);
  }
}
