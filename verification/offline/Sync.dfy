/** The sync engine as an object over the queue and the detector. */
module Sync {
  import opened Options
  import opened OfflineQueue
  import opened Connectivity
  import opened OfflineEngine

  datatype Submission = Queued | Started

  /**
   Each method is one block of the program between two suspension points and performs one event
   of the step system. `frames` and `inflight` hold what the suspended calls keep alive.
   */
  class SyncEngine {
    const queue: OfflineQueue
    const detector: ConnectivityDetector
    var executors: set<Kind>
    var draining: bool
    var frames: seq<Frame>
    var inflight: seq<Immediate>

    constructor (queue: OfflineQueue, detector: ConnectivityDetector)
      ensures this.queue == queue && this.detector == detector
      ensures executors == {} && !draining && frames == [] && inflight == []
    {
      this.queue, this.detector := queue, detector;
      executors, draining, frames, inflight := {}, false, [], [];
    }

    /** The state of the step system. */
    ghost function View(): Sys
      reads this, queue, detector
    {
      Sys(queue.queue, queue.disk, detector.online, detector.forcedOffline, draining, frames, inflight, executors)
    }

    method RegisterExecutor(kind: Kind)
      modifies this`executors
      ensures View() == Next(old(View()), Register(kind))
    {
      executors := executors + {kind};
    }

    method ExecuteOrQueue(id: ActionId, kind: Kind, payload: string, now: nat, maxRetries: Option<int>, wrote: bool)
      returns (r: Submission)
      modifies this`inflight, queue
      ensures View() == Next(old(View()), Submit(id, kind, payload, now, maxRetries, wrote))
      ensures r == if detector.IsOnline() then Started else Queued
    {
      if detector.IsOnline() {
        var action := Action(id, kind, payload, now, 0, maxRetries.GetOr(5), None);
        inflight := inflight + [Immediate(action, kind in executors)];
        r := Started;
      } else {
        var _ := queue.Enqueue(id, kind, payload, now, maxRetries, wrote);
        r := Queued;
      }
    }

    /** The awaited immediate execution ends; a failure is queued as a new action. */
    method ImmediateSettled(k: nat, ok: bool, id: ActionId, now: nat, wrote: bool)
      requires k < |inflight| && (ok ==> inflight[k].callable)
      modifies this`inflight, queue
      ensures View() == Next(old(View()), if ok then ImmediateDone(k) else ImmediateFailed(k, id, now, wrote))
    {
      var action := inflight[k].action;
      inflight := inflight[..k] + inflight[k + 1..];
      if !ok {
        var _ := queue.Enqueue(id, action.kind, action.payload, now, Some(action.maxRetries), wrote);
      }
    }

    /** The `while` test of a drain call whose own frame has been taken off `frames`. */
    method LoopTop()
      modifies this`frames, this`draining
      ensures View() == LoopTest(old(View()), old(frames))
    {
      var length := queue.Length();
      if length > 0 && detector.IsOnline() {
        var head := queue.Peek();
        frames := frames + [Executing(head.value, head.value.kind in executors)];
      } else {
        draining := false;
      }
    }

    method Drain()
      modifies this`frames, this`draining
      ensures View() == Next(old(View()), CallDrain)
    {
      if draining {
        return;
      }
      draining := true;
      LoopTop();
    }

    /** The handler registered with the detector. */
    method OnStatusChange(online: bool)
      modifies this`frames, this`draining
      ensures View() == if online && |queue.queue| > 0 then Next(old(View()), CallDrain) else old(View())
    {
      var length := queue.Length();
      if online && length > 0 {
        Drain();
      }
    }

    /** The switch: what the detector announces is handed to the handler. */
    method SetForcedOffline(enabled: bool) returns (announced: Option<bool>)
      modifies detector, this`frames, this`draining
      ensures View() == Next(old(View()), Event.SetForcedOffline(enabled))
      ensures announced == Announcement(old(View()), Event.SetForcedOffline(enabled))
    {
      announced := detector.SetForcedOffline(enabled);
      if announced.Some? {
        OnStatusChange(announced.value);
      }
    }

    /** A probe that has answered, likewise. */
    method Check(reachable: bool) returns (announced: Option<bool>)
      modifies detector, this`frames, this`draining
      ensures View() == Next(old(View()), Probe(reachable))
      ensures announced == Announcement(old(View()), Probe(reachable))
    {
      announced := detector.Check(reachable);
      if announced.Some? {
        OnStatusChange(announced.value);
      }
    }

    /** The awaited executor of a drain call resolves: the action is complete, and the loop goes on. */
    method ExecutorDone(k: nat, wrote: bool)
      requires k < |frames| && frames[k].Executing? && frames[k].callable
      modifies this`frames, this`draining, queue
      ensures View() == Next(old(View()), ExecDone(k, wrote))
    {
      var action := frames[k].action;
      frames := frames[..k] + frames[k + 1..];
      queue.MarkComplete(action.id, wrote);
      LoopTop();
    }

    /** The awaited executor rejects: the failure is recorded and the call pauses. */
    method ExecutorFailed(k: nat, error: string, wrote: bool)
      requires k < |frames| && frames[k].Executing?
      modifies this`frames, queue
      ensures View() == Next(old(View()), ExecFailed(k, error, wrote))
    {
      queue.MarkFailed(frames[k].action.id, error, wrote);
      frames := frames[k := Sleeping];
    }

    method PauseOver(k: nat)
      requires k < |frames| && frames[k].Sleeping?
      modifies this`frames, this`draining
      ensures View() == Next(old(View()), Wake(k))
    {
      frames := frames[..k] + frames[k + 1..];
      LoopTop();
    }

    /** An executor call: its outcome is arbitrary, except that a missing executor always throws. */
    method Execute(action: Action) returns (ok: bool)
      ensures ok ==> action.kind in executors
    {
      ok := *;
      if action.kind !in executors {
        ok := false;
      }
    }

    /**
     What others do while a drain awaits something: probes and the switch change the status at will,
     and the next few of the actions in `later` are enqueued. Other `drain()` calls return at once.
     */
    method Meanwhile(later: seq<Action>, next: nat) returns (stop: nat)
      requires next <= |later| && forall a :: a in later ==> IsNew(a)
      modifies queue, detector
      ensures next <= stop <= |later| && queue.queue == old(queue.queue) + later[next..stop]
    {
      var reachable: bool, enabled: bool := *, *;
      var _ := detector.Check(reachable);
      var _ := detector.SetForcedOffline(enabled);
      var upTo: nat :| next <= upTo <= |later|;
      stop := next;
      while stop < upTo
        invariant next <= stop <= upTo
        invariant queue.queue == old(queue.queue) + later[next..stop]
      {
        var a := later[stop];
        var wrote: bool := *;
        assert a in later;
        var _ := queue.Enqueue(a.id, a.kind, a.payload, a.timestamp, Some(a.maxRetries), wrote);
        assert later[next..stop + 1] == later[next..stop] + [a];
        stop := stop + 1;
      }
    }

    /**
     The whole of `drain()` as its loop, while executors succeed or fail, writes succeed or not, the
     status changes and the finitely many actions in `later` arrive, at any of its awaits. The call
     ends, with an empty queue or offline; it has worked through the queue in order, and has completed
     or dropped everything before the action it stopped at.
     */
    method DrainLoop(later: seq<Action>) returns (completed: nat, ghost settled: seq<Settlement>, arrived: nat)
      requires !draining && frames == [] && Distinct(queue.queue + later)
      requires forall a :: a in later ==> IsNew(a)
      modifies this`draining, queue, detector
      ensures !draining && (queue.queue == [] || !detector.IsOnline())
      ensures arrived <= |later|
      ensures Progress(Ids(old(queue.queue)) + Ids(later[..arrived]), settled, queue.queue, executors)
      ensures completed == CountCompleted(settled)
    {
      draining := true;
      completed, settled, arrived := 0, [], 0;
      ghost var ids := Ids(queue.queue);
      NoProgressYet(queue.queue, later, executors);
      while |queue.queue| > 0 && detector.IsOnline()
        invariant arrived <= |later|
        invariant Distinct(queue.queue + later[arrived..])
        invariant Progress(ids + Ids(later[..arrived]), settled, queue.queue, executors)
        invariant completed == CountCompleted(settled)
        decreases Budget(queue.queue) + Budget(later[arrived..])
      {
        var head := queue.Peek();
        var action := head.value;
        var ok := Execute(action);
        ghost var before, already := queue.queue, arrived;
        arrived := Meanwhile(later, arrived);
        Arrival(ids, settled, before, later, already, arrived, executors);
        var wrote: bool := *;
        ghost var q := queue.queue;
        if ok {
          queue.MarkComplete(action.id, wrote);
          completed := completed + 1;
          settled := CompletionProgress(ids + Ids(later[..arrived]), settled, q, executors);
          StaysDistinct(q, later[arrived..], queue.queue);
        } else {
          queue.MarkFailed(action.id, "", wrote);
          settled := FailureProgress(ids + Ids(later[..arrived]), settled, q, "", executors);
          StaysDistinct(q, later[arrived..], queue.queue);
          before, already := queue.queue, arrived;
          arrived := Meanwhile(later, arrived);
          Arrival(ids, settled, before, later, already, arrived, executors);
        }
      }
      draining := false;
    }
  }

  /** As `enqueue` creates it. */
  predicate IsNew(a: Action) {
    a.retries == 0 && a.lastError == None
  }

  /**
   `ids` is the settled actions' ids, in order, and then the remaining ones'; whatever was dropped
   had reached its limit, and whatever completed had an executor.
   */
  ghost predicate Progress(ids: seq<ActionId>, settled: seq<Settlement>, rest: seq<Action>, executors: set<Kind>) {
    && Distinct(rest)
    && ids == SettledIds(settled) + Ids(rest)
    && forall x :: x in settled ==>
         if x.Dropped? then x.action.retries >= x.action.maxRetries else x.action.kind in executors
  }

  function CountCompleted(settled: seq<Settlement>): nat {
    if settled == [] then 0
    else CountCompleted(settled[..|settled| - 1]) + if settled[|settled| - 1].Completed? then 1 else 0
  }

  lemma NoProgressYet(q: seq<Action>, later: seq<Action>, executors: set<Kind>)
    requires Distinct(q + later)
    ensures Distinct(q + later[0..]) && Progress(Ids(q) + Ids(later[..0]), [], q, executors)
  {
    DistinctParts(q, later);
    assert later[0..] == later;
  }

  lemma DistinctParts(q: seq<Action>, r: seq<Action>)
    requires Distinct(q + r)
    ensures Distinct(q) && Distinct(r)
  {
    assert forall i :: 0 <= i < |q| ==> (q + r)[i] == q[i];
    assert forall i :: 0 <= i < |r| ==> (q + r)[|q| + i] == r[i];
  }

  lemma {:induction false} IdsConcat(q: seq<Action>, r: seq<Action>)
    ensures Ids(q + r) == Ids(q) + Ids(r)
    ensures Budget(q + r) == Budget(q) + Budget(r)
  {
    if q == [] {
      assert [] + r == r;
    } else {
      assert (q + r)[1..] == q[1..] + r;
      IdsConcat(q[1..], r);
    }
  }

  lemma Regroup(a: seq<ActionId>, b: seq<ActionId>, c: seq<ActionId>, d: seq<ActionId>, e: seq<ActionId>)
    requires a + b == c + d
    ensures a + (b + e) == c + (d + e)
  {
    assert a + (b + e) == (a + b) + e;
    assert c + (d + e) == (c + d) + e;
  }

  lemma ArrivalProgress(ids: seq<ActionId>, settled: seq<Settlement>, q: seq<Action>, earlier: seq<Action>,
                        arrivals: seq<Action>, executors: set<Kind>)
    requires Distinct(q + arrivals) && Progress(ids + Ids(earlier), settled, q, executors)
    ensures Progress(ids + Ids(earlier + arrivals), settled, q + arrivals, executors)
  {
    IdsConcat(earlier, arrivals);
    IdsConcat(q, arrivals);
    DistinctParts(q, arrivals);
    Regroup(ids, Ids(earlier), SettledIds(settled), Ids(q), Ids(arrivals));
  }

  lemma ArrivalBudget(q: seq<Action>, arrivals: seq<Action>, rest: seq<Action>)
    ensures Budget(q + arrivals) + Budget(rest) == Budget(q) + Budget(arrivals + rest)
  {
    IdsConcat(q, arrivals);
    IdsConcat(arrivals, rest);
  }

  /** Arrivals extend the ids and the queue alike, and cost the budget nothing that was not expected. */
  lemma Arrival(ids: seq<ActionId>, settled: seq<Settlement>, q: seq<Action>, later: seq<Action>, i: nat, j: nat,
                executors: set<Kind>)
    requires i <= j <= |later| && Distinct(q + later[i..])
    requires Progress(ids + Ids(later[..i]), settled, q, executors)
    ensures var r := q + later[i..j];
            && Distinct(r + later[j..])
            && Progress(ids + Ids(later[..j]), settled, r, executors)
            && Budget(r) + Budget(later[j..]) == Budget(q) + Budget(later[i..])
  {
    var arrivals := later[i..j];
    assert later[..j] == later[..i] + arrivals;
    assert later[i..] == arrivals + later[j..];
    assert q + later[i..] == (q + arrivals) + later[j..];
    DistinctParts(q + arrivals, later[j..]);
    ArrivalProgress(ids, settled, q, later[..i], arrivals, executors);
    ArrivalBudget(q, arrivals, later[j..]);
  }

  /** After an attempt the queue holds the same actions or the same but its head, by id. */
  lemma StaysDistinct(q: seq<Action>, later: seq<Action>, r: seq<Action>)
    requires q != [] && Distinct(q + later)
    requires r == q[1..] || (r != [] && r[1..] == q[1..] && r[0].id == q[0].id)
    ensures Distinct(r + later)
  {
    var d := |q| - |r|;
    forall k | 0 <= k < |r + later|
      ensures (r + later)[k].id == (q + later)[d + k].id
    {
      if 0 < k < |r| {
        assert r[k] == q[d + k];
      }
    }
  }

  lemma MoveToSettled(ids: seq<ActionId>, settled: seq<Settlement>, x: Settlement, rest: seq<ActionId>)
    requires ids == SettledIds(settled) + ([x.action.id] + rest)
    ensures ids == SettledIds(settled + [x]) + rest
    ensures CountCompleted(settled + [x]) == CountCompleted(settled) + if x.Completed? then 1 else 0
  {
  }

  lemma CompletionProgress(ids: seq<ActionId>, settled: seq<Settlement>, q: seq<Action>, executors: set<Kind>)
    returns (r: seq<Settlement>)
    requires Progress(ids, settled, q, executors) && q != [] && q[0].kind in executors
    ensures Progress(ids, r, Without(q, q[0].id), executors)
    ensures CountCompleted(r) == CountCompleted(settled) + 1
    ensures Without(q, q[0].id) == q[1..]
    ensures Budget(Without(q, q[0].id)) < Budget(q)
  {
    CompletedHead(q);
    AttemptCosts(q, "");
    MoveToSettled(ids, settled, Completed(q[0]), Ids(q[1..]));
    r := settled + [Completed(q[0])];
  }

  lemma FailureProgress(ids: seq<ActionId>, settled: seq<Settlement>, q: seq<Action>, error: string, executors: set<Kind>)
    returns (r: seq<Settlement>)
    requires Progress(ids, settled, q, executors) && q != []
    ensures Progress(ids, r, MarkedFailed(q, q[0].id, error), executors)
    ensures CountCompleted(r) == CountCompleted(settled)
    ensures var after := MarkedFailed(q, q[0].id, error);
            after == q[1..] || (after != [] && after[1..] == q[1..] && after[0].id == q[0].id)
    ensures Budget(MarkedFailed(q, q[0].id, error)) < Budget(q)
  {
    FailedHead(q, error);
    AttemptCosts(q, error);
    var a := Failed(q[0], error);
    if a.retries >= a.maxRetries {
      MoveToSettled(ids, settled, Dropped(a), Ids(q[1..]));
      r := settled + [Dropped(a)];
    } else {
      r := settled;
      IdsRewriteHead(q, a);
    }
  }
}
