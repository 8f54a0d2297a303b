/**
 The persistent FIFO of deferred actions. The functions say what each operation does to
 the in-memory array; the class is the array together with the JSON file it is saved to.
 */
module OfflineQueue {
  import opened Options
  import opened Sequences

  type ActionId = nat

  datatype Kind =
    | GithubMerge
    | GithubComment
    | GithubRequestChanges
    | GithubClosePr
    | GithubApprovePr
    | OgStorageUpload
    | OgChainRecordReview
    | OgChainUpdateReputation
    | OgChainEvolveInft
    | KeeperhubWorkflow

  datatype Action = Action(
    id: ActionId,
    kind: Kind,
    payload: string,
    timestamp: nat,
    retries: nat,
    maxRetries: int,
    lastError: Option<string>)

  const DEFAULT_MAX_RETRIES := 5

  function NewAction(id: ActionId, kind: Kind, payload: string, now: nat, maxRetries: Option<int>): Action {
    Action(id, kind, payload, now, 0, maxRetries.GetOr(DEFAULT_MAX_RETRIES), None)
  }

  function Ids(q: seq<Action>): seq<ActionId> {
    if q == [] then [] else [q[0].id] + Ids(q[1..])
  }

  lemma {:induction false} IdsIndex(q: seq<Action>)
    ensures |Ids(q)| == |q|
    ensures forall i :: 0 <= i < |q| ==> Ids(q)[i] == q[i].id
  {
    if q != [] {
      IdsIndex(q[1..]);
    }
  }

  lemma {:induction false} IdsAppend(q: seq<Action>, a: Action)
    ensures Ids(q + [a]) == Ids(q) + [a.id]
  {
    if q == [] {
      assert [] + [a] == [a];
    } else {
      assert (q + [a])[1..] == q[1..] + [a];
      IdsAppend(q[1..], a);
    }
  }

  /** Re-writing the head keeps the ids. */
  lemma IdsRewriteHead(q: seq<Action>, a: Action)
    requires q != [] && a.id == q[0].id
    ensures Ids([a] + q[1..]) == Ids(q)
  {
  }

  ghost predicate Distinct(q: seq<Action>) {
    forall i, j :: 0 <= i < j < |q| ==> q[i].id != q[j].id
  }

  function OtherThan(id: ActionId): Action -> bool {
    (a: Action) => a.id != id
  }

  /** `queue.filter(a => a.id !== id)` */
  function Without(q: seq<Action>, id: ActionId): (r: seq<Action>)
    ensures forall a :: a in r <==> a in q && a.id != id
    ensures |r| <= |q|
  {
    FilterMembers(q, OtherThan(id));
    Filter(q, OtherThan(id))
  }

  /** `queue.find(a => a.id === id)`, as an index. */
  function Find(q: seq<Action>, id: ActionId): (r: Option<nat>)
    ensures r.Some? ==> r.value < |q| && q[r.value].id == id
    ensures r.Some? ==> forall j :: 0 <= j < r.value ==> q[j].id != id
    ensures r.None? ==> forall a :: a in q ==> a.id != id
  {
    if q == [] then None
    else if q[0].id == id then Some(0)
    else match Find(q[1..], id)
      case None => None
      case Some(i) => Some(i + 1)
  }

  function Failed(a: Action, error: string): Action {
    a.(retries := a.retries + 1, lastError := Some(error))
  }

  /** The array after `markFailed(id, error)`. */
  function MarkedFailed(q: seq<Action>, id: ActionId, error: string): seq<Action> {
    match Find(q, id)
    case None => q
    case Some(i) =>
      var a := Failed(q[i], error);
      if a.retries >= a.maxRetries then Without(q[i := a], id) else q[i := a]
  }

  /** With distinct ids, filtering out an action's id removes that action and nothing else. */
  lemma WithoutOne(q: seq<Action>, i: nat)
    requires i < |q| && Distinct(q)
    ensures Without(q, q[i].id) == q[..i] + q[i + 1..]
  {
    OthersDiffer(q, i);
    assert q == q[..i] + ([q[i]] + q[i + 1..]);
    FilterOne(q[..i], q[i], q[i + 1..], OtherThan(q[i].id));
  }

  lemma OthersDiffer(q: seq<Action>, i: nat)
    requires i < |q| && Distinct(q)
    ensures forall a :: a in q[..i] ==> a.id != q[i].id
    ensures forall a :: a in q[i + 1..] ==> a.id != q[i].id
  {
  }

  lemma CompletedHead(q: seq<Action>)
    requires q != [] && Distinct(q)
    ensures Without(q, q[0].id) == q[1..]
  {
    WithoutOne(q, 0);
  }

  /** An action that has failed once more: one retry more, the error noted, all else as it was. */
  ghost predicate FailedOnce(a: Action, b: Action, error: string) {
    && b.retries == a.retries + 1 && b.lastError == Some(error)
    && b.id == a.id && b.kind == a.kind && b.payload == a.payload
    && b.timestamp == a.timestamp && b.maxRetries == a.maxRetries
  }

  /**
   With distinct ids, `markFailed` touches the one action it names: it is removed if that was the last
   failure its limit allows, and otherwise stays in place, failed once more.
   */
  lemma MarkedFailedOne(q: seq<Action>, i: nat, error: string)
    requires i < |q| && Distinct(q)
    ensures var r := MarkedFailed(q, q[i].id, error);
            if q[i].retries + 1 >= q[i].maxRetries then r == q[..i] + q[i + 1..]
            else |r| == |q| && FailedOnce(q[i], r[i], error) && r[..i] == q[..i] && r[i + 1..] == q[i + 1..]
  {
    var a := Failed(q[i], error);
    assert Find(q, q[i].id) == Some(i);
    var changed := q[i := a];
    WithoutOne(changed, i);
    assert changed[..i] == q[..i] && changed[i + 1..] == q[i + 1..];
  }

  lemma MarkedFailedUnknown(q: seq<Action>, id: ActionId, error: string)
    requires forall a :: a in q ==> a.id != id
    ensures MarkedFailed(q, id, error) == q
  {
  }

  /** With distinct ids, a failure of the head either drops exactly the head or re-writes it in place. */
  lemma FailedHead(q: seq<Action>, error: string)
    requires q != [] && Distinct(q)
    ensures var a := Failed(q[0], error);
            && FailedOnce(q[0], a, error)
            && MarkedFailed(q, q[0].id, error) == if a.retries >= a.maxRetries then q[1..] else [a] + q[1..]
  {
    var a := Failed(q[0], error);
    assert q[0 := a] == [a] + q[1..];
    CompletedHead([a] + q[1..]);
  }

  /** The attempts a queued action may still cost: at least one, however small its limit. */
  function Attempts(a: Action): nat {
    if a.maxRetries - a.retries < 1 then 1 else a.maxRetries - a.retries
  }

  function Budget(q: seq<Action>): nat {
    if q == [] then 0 else Attempts(q[0]) + Budget(q[1..])
  }

  lemma {:induction false} BudgetAppend(q: seq<Action>, a: Action)
    ensures Budget(q + [a]) == Budget(q) + Attempts(a)
  {
    if q == [] {
      assert [] + [a] == [a];
    } else {
      assert (q + [a])[1..] == q[1..] + [a];
      BudgetAppend(q[1..], a);
    }
  }

  /** Whatever the outcome, an attempt at the head costs at least one unit of budget. */
  lemma AttemptCosts(q: seq<Action>, error: string)
    requires q != [] && Distinct(q)
    ensures Budget(Without(q, q[0].id)) < Budget(q)
    ensures Budget(MarkedFailed(q, q[0].id, error)) < Budget(q)
  {
    CompletedHead(q);
    FailedHead(q, error);
    var a := Failed(q[0], error);
    assert ([a] + q[1..])[1..] == q[1..];
  }

  /** What a restarted process loads: the saved array, or nothing when no readable file exists. */
  function Restored(disk: Option<seq<Action>>): seq<Action> {
    disk.GetOr([])
  }

  /**
   The queue object. `disk` is the content of the queue file; `wrote` in each operation is
   the outcome of its write, which `persist` swallows.
   */
  class OfflineQueue {
    var queue: seq<Action>
    var disk: Option<seq<Action>>

    constructor (file: Option<seq<Action>>)
      ensures queue == Restored(file) && disk == file
    {
      queue := Restored(file);
      disk := file;
    }

    method Persist(wrote: bool)
      modifies this`disk
      ensures disk == if wrote then Some(queue) else old(disk)
    {
      if wrote {
        disk := Some(queue);
      }
    }

    method Enqueue(id: ActionId, kind: Kind, payload: string, now: nat, maxRetries: Option<int>, wrote: bool)
      returns (action: Action)
      modifies this
      ensures action == NewAction(id, kind, payload, now, maxRetries)
      ensures queue == old(queue) + [action]
      ensures disk == if wrote then Some(queue) else old(disk)
    {
      action := NewAction(id, kind, payload, now, maxRetries);
      queue := queue + [action];
      Persist(wrote);
    }

    method Peek() returns (head: Option<Action>)
      ensures head == if queue == [] then None else Some(queue[0])
    {
      head := if |queue| > 0 then Some(queue[0]) else None;
    }

    method Length() returns (n: nat)
      ensures n == |queue|
    {
      n := |queue|;
    }

    /** Removes the head without saving the file. */
    method Dequeue() returns (head: Option<Action>)
      modifies this`queue
      ensures head == if old(queue) == [] then None else Some(old(queue)[0])
      ensures queue == if old(queue) == [] then [] else old(queue)[1..]
    {
      if queue == [] {
        head := None;
      } else {
        head := Some(queue[0]);
        queue := queue[1..];
      }
    }

    method MarkFailed(id: ActionId, error: string, wrote: bool)
      modifies this
      ensures queue == MarkedFailed(old(queue), id, error)
      ensures disk == if wrote && Find(old(queue), id).Some? then Some(queue) else old(disk)
    {
      var found := Find(queue, id);
      if found.None? {
        return;
      }
      var action := Failed(queue[found.value], error);
      queue := queue[found.value := action];
      if action.retries >= action.maxRetries {
        queue := Without(queue, id);
      }
      Persist(wrote);
    }

    method MarkComplete(id: ActionId, wrote: bool)
      modifies this
      ensures queue == Without(old(queue), id)
      ensures disk == if wrote then Some(queue) else old(disk)
    {
      queue := Without(queue, id);
      Persist(wrote);
    }
  }
}
