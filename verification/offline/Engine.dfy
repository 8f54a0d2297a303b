/**
 The offline subsystem as a step system. Every event is one uninterrupted block of the
 program, from one suspension point to the next; a `drain()` call that is suspended inside
 its loop is a frame, and nothing here limits how many frames there are.
 */
module OfflineEngine {
  import opened Options
  import opened OfflineQueue

  /** A suspended `drain()` call: awaiting the executor of `action`, or in the pause after a failure. */
  datatype Frame = Executing(action: Action, callable: bool) | Sleeping

  /** An immediate execution started by `executeOrQueue`. */
  datatype Immediate = Immediate(action: Action, callable: bool)

  datatype Sys = Sys(
    queue: seq<Action>,
    disk: Option<seq<Action>>,
    online: bool,
    forcedOffline: bool,
    draining: bool,
    frames: seq<Frame>,
    inflight: seq<Immediate>,
    executors: set<Kind>)
  {
    predicate IsOnline() {
      online && !forcedOffline
    }
  }

  datatype Event =
    | Register(kind: Kind)
    | Submit(id: ActionId, kind: Kind, payload: string, now: nat, maxRetries: Option<int>, wrote: bool)
    | ImmediateDone(k: nat)
    | ImmediateFailed(k: nat, id: ActionId, now: nat, wrote: bool)
    | SetForcedOffline(enabled: bool)
    | Probe(reachable: bool)
    | CallDrain
    | ExecDone(k: nat, wrote: bool)
    | ExecFailed(k: nat, error: string, wrote: bool)
    | Wake(k: nat)
    | Restart

  function Boot(disk: Option<seq<Action>>): Sys {
    Sys(Restored(disk), disk, true, false, false, [], [], {})
  }

  function Removed<T>(s: seq<T>, k: nat): seq<T>
    requires k < |s|
  {
    s[..k] + s[k + 1..]
  }

  function Saved(s: Sys, queue: seq<Action>, wrote: bool): Sys {
    s.(queue := queue, disk := if wrote then Some(queue) else s.disk)
  }

  /** The loop test of one drain call, the other suspended calls being `rest`. */
  function LoopTest(s: Sys, rest: seq<Frame>): Sys {
    if |s.queue| > 0 && s.IsOnline() then
      s.(frames := rest + [Executing(s.queue[0], s.queue[0].kind in s.executors)])
    else
      s.(frames := rest, draining := false)
  }

  function Drain(s: Sys): Sys {
    if s.draining then s else LoopTest(s.(draining := true), s.frames)
  }

  /** The status handler installed by the sync engine, called only for a change of status. */
  function StatusChange(s: Sys, wasOnline: bool): Sys {
    if wasOnline != s.IsOnline() && s.IsOnline() && |s.queue| > 0 then Drain(s) else s
  }

  predicate Enabled(s: Sys, e: Event) {
    match e
    case ImmediateDone(k) => k < |s.inflight| && s.inflight[k].callable
    case ImmediateFailed(k, _, _, _) => k < |s.inflight|
    case ExecDone(k, _) => k < |s.frames| && s.frames[k].Executing? && s.frames[k].callable
    case ExecFailed(k, _, _) => k < |s.frames| && s.frames[k].Executing?
    case Wake(k) => k < |s.frames| && s.frames[k].Sleeping?
    case _ => true
  }

  function Next(s: Sys, e: Event): Sys
    requires Enabled(s, e)
  {
    match e
    case Register(kind) =>
      s.(executors := s.executors + {kind})
    case Submit(id, kind, payload, now, maxRetries, wrote) =>
      var action := NewAction(id, kind, payload, now, maxRetries);
      if s.IsOnline() then s.(inflight := s.inflight + [Immediate(action, kind in s.executors)])
      else Saved(s, s.queue + [action], wrote)
    case ImmediateDone(k) =>
      s.(inflight := Removed(s.inflight, k))
    case ImmediateFailed(k, id, now, wrote) =>
      var a := s.inflight[k].action;
      var action := NewAction(id, a.kind, a.payload, now, Some(a.maxRetries));
      Saved(s.(inflight := Removed(s.inflight, k)), s.queue + [action], wrote)
    case SetForcedOffline(enabled) =>
      StatusChange(s.(forcedOffline := enabled), s.IsOnline())
    case Probe(reachable) =>
      StatusChange(s.(online := reachable), s.IsOnline())
    case CallDrain =>
      Drain(s)
    case ExecDone(k, wrote) =>
      LoopTest(Saved(s, Without(s.queue, s.frames[k].action.id), wrote), Removed(s.frames, k))
    case ExecFailed(k, error, wrote) =>
      var id := s.frames[k].action.id;
      var found := Find(s.queue, id).Some?;
      Saved(s, MarkedFailed(s.queue, id, error), wrote && found).(frames := s.frames[k := Sleeping])
    case Wake(k) =>
      LoopTest(s, Removed(s.frames, k))
    case Restart =>
      Boot(s.disk)
  }

  /** What the detector announces: a difference of status, and nothing else. */
  function Difference(wasOnline: bool, nowOnline: bool): Option<bool> {
    if wasOnline != nowOnline then Some(nowOnline) else None
  }

  /** The announcement an event makes; only the switch and the probe make any. */
  function Announcement(s: Sys, e: Event): Option<bool> {
    match e
    case SetForcedOffline(enabled) => Difference(s.IsOnline(), s.online && !enabled)
    case Probe(reachable) => Difference(s.IsOnline(), reachable && !s.forcedOffline)
    case _ => None
  }

  // ---------------------------------------------------------------- history

  datatype Settlement = Completed(action: Action) | Dropped(action: Action)

  /**
   What an observer of the whole run remembers.
   `born`: ids of the actions first loaded, then of those enqueued, in order;
   `settled`: actions removed by drains, in order; `used`: ids already generated;
   `synced`: the last write to the queue file succeeded;
   `edgeIds`: ids queued when this process last went online; `announced`: its status announcements;
   `starts`, `fails`, `cuts`: per id, executor calls made by drains, failures recorded, and calls
   interrupted by a restart; `tried`: per id, immediate executions that failed before the action was
   queued under that id; `base`: the retry count each action was born with.
   */
  datatype History = History(
    born: seq<ActionId>,
    settled: seq<Settlement>,
    used: set<ActionId>,
    synced: bool,
    edgeIds: set<ActionId>,
    announced: seq<bool>,
    starts: multiset<ActionId>,
    fails: multiset<ActionId>,
    cuts: multiset<ActionId>,
    tried: multiset<ActionId>,
    base: map<ActionId, nat>)

  datatype World = World(sys: Sys, hist: History)

  function IdSet(q: seq<Action>): set<ActionId> {
    set a | a in q :: a.id
  }

  function SettledIds(settled: seq<Settlement>): seq<ActionId> {
    if settled == [] then []
    else SettledIds(settled[..|settled| - 1]) + [settled[|settled| - 1].action.id]
  }

  lemma {:induction false} SettledIdsIndex(settled: seq<Settlement>)
    ensures |SettledIds(settled)| == |settled|
    ensures forall i :: 0 <= i < |settled| ==> SettledIds(settled)[i] == settled[i].action.id
  {
    if settled != [] {
      SettledIdsIndex(settled[..|settled| - 1]);
    }
  }

  function BaseOf(q: seq<Action>): map<ActionId, nat> {
    map a | a in q :: a.id := match Find(q, a.id) case Some(i) => q[i].retries case None => 0
  }

  function CutIds(frames: seq<Frame>): multiset<ActionId> {
    if frames == [] then multiset{}
    else (if frames[0].Executing? then multiset{frames[0].action.id} else multiset{}) + CutIds(frames[1..])
  }

  /** The first start of the program on whatever queue file it finds. */
  function Start(disk: Option<seq<Action>>): World {
    var q := Restored(disk);
    World(Boot(disk),
          History(Ids(q), [], IdSet(q), true, {}, [], multiset{}, multiset{}, multiset{}, multiset{}, BaseOf(q)))
  }

  /** Whether the event runs a drain call's loop test. */
  predicate TestsLoop(s: Sys, e: Event)
    requires Enabled(s, e)
  {
    match e
    case CallDrain => !s.draining
    case SetForcedOffline(enabled) => !s.draining && !s.IsOnline() && s.online && !enabled && |s.queue| > 0
    case Probe(reachable) => !s.draining && !s.IsOnline() && reachable && !s.forcedOffline && |s.queue| > 0
    case ExecDone(_, _) => true
    case Wake(_) => true
    case _ => false
  }

  /** The ids of the executor calls this event makes on behalf of a drain. */
  function Started(s: Sys, e: Event): multiset<ActionId>
    requires Enabled(s, e)
  {
    var t := Next(s, e);
    if TestsLoop(s, e) && |t.queue| > 0 && t.IsOnline() then multiset{t.queue[0].id} else multiset{}
  }

  function Record(h: History, s: Sys, e: Event): History
    requires Enabled(s, e)
  {
    var announcement := Announcement(s, e);
    var h := h.(
      starts := h.starts + Started(s, e),
      announced := if announcement.Some? then h.announced + [announcement.value] else h.announced,
      edgeIds := if announcement == Some(true) then IdSet(s.queue) else h.edgeIds);
    match e
    case Submit(id, _, _, _, _, wrote) =>
      if s.IsOnline() then h.(used := h.used + {id})
      else h.(used := h.used + {id}, born := h.born + [id], base := h.base[id := 0], synced := wrote)
    case ImmediateFailed(_, id, _, wrote) =>
      h.(used := h.used + {id}, born := h.born + [id], base := h.base[id := 0], synced := wrote,
         tried := h.tried + multiset{id})
    case ExecDone(k, wrote) =>
      h.(settled := h.settled + [Completed(s.frames[k].action)], synced := wrote)
    case ExecFailed(k, error, wrote) =>
      (match Find(s.queue, s.frames[k].action.id)
       case None => h
       case Some(i) =>
         var a := Failed(s.queue[i], error);
         var h := h.(fails := h.fails + multiset{a.id}, synced := wrote);
         if a.retries >= a.maxRetries then h.(settled := h.settled + [Dropped(a)]) else h)
    case Restart =>
      h.(synced := true, edgeIds := {}, announced := [], cuts := h.cuts + CutIds(s.frames))
    case _ => h
  }

  /** The ids an event generates are new. */
  predicate Fresh(h: History, e: Event) {
    match e
    case Submit(id, _, _, _, _, _) => id !in h.used
    case ImmediateFailed(_, id, _, _) => id !in h.used
    case _ => true
  }

  predicate Possible(w: World, e: Event) {
    Enabled(w.sys, e) && Fresh(w.hist, e)
  }

  function Step(w: World, e: Event): World
    requires Possible(w, e)
  {
    World(Next(w.sys, e), Record(w.hist, w.sys, e))
  }

  predicate Run(w: World, es: seq<Event>)
    decreases |es|
  {
    es == [] || (Possible(w, es[0]) && Run(Step(w, es[0]), es[1..]))
  }

  function After(w: World, es: seq<Event>): World
    requires Run(w, es)
    decreases |es|
  {
    if es == [] then w else After(Step(w, es[0]), es[1..])
  }

  /** Every restart in the run happens after a successful last write. */
  predicate CleanRestarts(w: World, es: seq<Event>)
    requires Run(w, es)
    decreases |es|
  {
    es == [] || ((es[0].Restart? ==> w.hist.synced) && CleanRestarts(Step(w, es[0]), es[1..]))
  }
}
