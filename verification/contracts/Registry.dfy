/** The on-chain registry: one unchangeable record per reviewed pull request. */
module Registry {
  import opened Rounding

  /** Account addresses; 0 is the zero address. */
  type Address = nat
  type Hash = nat

  const MAX_UINT: int := 0x1_0000_0000_0000_0000_0000_0000_0000_0000_0000_0000_0000_0000_0000_0000_0000_0000 - 1

  datatype Review = Review(
    prHash: Hash,
    reviewerAgents: seq<Address>,
    approved: bool,
    storageRoot: string,
    teeProofId: string,
    timestamp: nat,
    confidenceScore: nat,
    exploitsFound: nat,
    exploitsMitigated: nat)

  /** Every record stored has its `exists` flag set, so it is the presence of the entry. */
  datatype Book = Book(owner: Address, approved: set<Address>, reviews: map<Hash, Review>, hashes: seq<Hash>) {
    predicate MayWrite(sender: Address) {
      sender in approved || sender == owner
    }
  }

  /** The timestamp of a submitted review is the block's, not the caller's. */
  datatype Call =
    | ApproveCaller(caller: Address)
    | RevokeCaller(caller: Address)
    | TransferOwnership(newOwner: Address)
    | RecordReview(review: Review)

  datatype Revert = NotOwner | NotApprovedCaller | ReviewAlreadyExists(h: Hash) | ReviewNotFound(h: Hash)
    | InvalidAddress | ArithmeticOverflow

  datatype Outcome<T> = Done(value: T) | Reverted(reason: Revert)

  datatype Tx = Tx(sender: Address, now: nat, call: Call)

  function Deployed(sender: Address): Book {
    Book(sender, {sender}, map[], [])
  }

  /** Why a transaction reverts, if it does. */
  function Check(b: Book, t: Tx): Outcome<()> {
    match t.call
    case ApproveCaller(caller) =>
      if t.sender != b.owner then Reverted(NotOwner) else if caller == 0 then Reverted(InvalidAddress) else Done(())
    case RevokeCaller(_) =>
      if t.sender != b.owner then Reverted(NotOwner) else Done(())
    case TransferOwnership(newOwner) =>
      if t.sender != b.owner then Reverted(NotOwner) else if newOwner == 0 then Reverted(InvalidAddress) else Done(())
    case RecordReview(review) =>
      if !b.MayWrite(t.sender) then Reverted(NotApprovedCaller)
      else if review.prHash in b.reviews then Reverted(ReviewAlreadyExists(review.prHash))
      else Done(())
  }

  function Apply(b: Book, t: Tx): Book {
    if Check(b, t).Reverted? then b
    else
      match t.call
      case ApproveCaller(caller) => b.(approved := b.approved + {caller})
      case RevokeCaller(caller) => b.(approved := b.approved - {caller})
      case TransferOwnership(newOwner) => b.(owner := newOwner)
      case RecordReview(review) =>
        b.(reviews := b.reviews[review.prHash := review.(timestamp := t.now)], hashes := b.hashes + [review.prHash])
  }

  function Run(b: Book, txs: seq<Tx>): Book {
    if txs == [] then b else Apply(Run(b, txs[..|txs| - 1]), txs[|txs| - 1])
  }

  /** The transactions that stored a record, in order, each as the record it stored. */
  function Recorded(b: Book, txs: seq<Tx>): seq<Review> {
    if txs == [] then []
    else
      var t := txs[|txs| - 1];
      Recorded(b, txs[..|txs| - 1]) +
      if t.call.RecordReview? && Check(Run(b, txs[..|txs| - 1]), t).Done? then [t.call.review.(timestamp := t.now)] else []
  }

  /** The list and the mapping agree: distinct hashes, in recording order, each mapped to the record stored for it. */
  ghost predicate Consistent(b: Book, records: seq<Review>) {
    && |b.hashes| == |records|
    && (forall i :: 0 <= i < |records| ==>
          b.hashes[i] == records[i].prHash && b.hashes[i] in b.reviews && b.reviews[b.hashes[i]] == records[i])
    && (forall h :: h in b.reviews ==> h in b.hashes)
    && (forall i, j :: 0 <= i < j < |b.hashes| ==> b.hashes[i] != b.hashes[j])
  }

  lemma ApplyKeepsConsistent(b: Book, t: Tx, records: seq<Review>)
    requires Consistent(b, records)
    ensures Consistent(Apply(b, t),
                       if t.call.RecordReview? && Check(b, t).Done? then records + [t.call.review.(timestamp := t.now)]
                       else records)
  {
  }

  /** After any sequence of transactions the registry holds exactly the stored records, one per hash. */
  lemma {:induction false} RegistryIsConsistent(deployer: Address, txs: seq<Tx>)
    ensures Consistent(Run(Deployed(deployer), txs), Recorded(Deployed(deployer), txs))
  {
    if txs != [] {
      RegistryIsConsistent(deployer, txs[..|txs| - 1]);
      ApplyKeepsConsistent(Run(Deployed(deployer), txs[..|txs| - 1]), txs[|txs| - 1],
                           Recorded(Deployed(deployer), txs[..|txs| - 1]));
    }
  }

  /** No later transaction, whoever sends it, changes or removes a record. */
  lemma {:induction false} RecordsNeverChange(b: Book, txs: seq<Tx>, h: Hash)
    requires h in b.reviews
    ensures h in Run(b, txs).reviews && Run(b, txs).reviews[h] == b.reviews[h]
    ensures b.hashes <= Run(b, txs).hashes
  {
    if txs != [] {
      RecordsNeverChange(b, txs[..|txs| - 1], h);
    }
  }

  /** Who may write after a call of the owner: an approval adds one account, a revocation removes one, a transfer replaces the owner. */
  lemma OwnerDecidesWhoWrites(b: Book, sender: Address, now: nat, a: Address, x: Address)
    requires sender == b.owner
    ensures a != 0 ==> (Apply(b, Tx(sender, now, ApproveCaller(a))).MayWrite(x) <==> x == a || x == b.owner || x in b.approved)
    ensures Apply(b, Tx(sender, now, RevokeCaller(a))).MayWrite(x) <==> x == b.owner || (x in b.approved && x != a)
    ensures a != 0 ==> (Apply(b, Tx(sender, now, TransferOwnership(a))).MayWrite(x) <==> x == a || x in b.approved)
    ensures Check(b, Tx(sender, now, RevokeCaller(a))) == Done(())
    ensures Check(b, Tx(sender, now, ApproveCaller(a))) == if a == 0 then Reverted(InvalidAddress) else Done(())
    ensures Check(b, Tx(sender, now, TransferOwnership(a))) == if a == 0 then Reverted(InvalidAddress) else Done(())
  {
  }

  /** None of these calls touches a record, nor the owner and the approvals beyond what it names. */
  lemma OwnerCallsKeepTheRest(b: Book, sender: Address, now: nat, a: Address)
    ensures var c := Apply(b, Tx(sender, now, ApproveCaller(a))); c.owner == b.owner && c.reviews == b.reviews && c.hashes == b.hashes
    ensures var c := Apply(b, Tx(sender, now, RevokeCaller(a))); c.owner == b.owner && c.reviews == b.reviews && c.hashes == b.hashes
    ensures var c := Apply(b, Tx(sender, now, TransferOwnership(a)));
            c.approved == b.approved && c.reviews == b.reviews && c.hashes == b.hashes
  {
  }

  /** The deployer owns the registry and is approved, and so may write even after giving it away. */
  lemma DeployerStaysApproved(deployer: Address, now: nat, heir: Address, x: Address)
    requires heir != 0
    ensures var b := Apply(Deployed(deployer), Tx(deployer, now, TransferOwnership(heir)));
            b.owner == heir && (b.MayWrite(x) <==> x == deployer || x == heir)
  {
  }

  lemma OthersDecideNothing(b: Book, sender: Address, now: nat, a: Address)
    requires sender != b.owner
    ensures Check(b, Tx(sender, now, ApproveCaller(a))) == Reverted(NotOwner)
    ensures Check(b, Tx(sender, now, RevokeCaller(a))) == Reverted(NotOwner)
    ensures Check(b, Tx(sender, now, TransferOwnership(a))) == Reverted(NotOwner)
  {
  }

  /** The first record for a hash by an account that may write is stored as submitted, with the block's time; a second is refused. */
  lemma FirstRecordIsStored(b: Book, sender: Address, now: nat, review: Review)
    requires sender == b.owner || sender in b.approved
    ensures var (h, t) := (review.prHash, Tx(sender, now, RecordReview(review)));
            if h in b.reviews then Check(b, t) == Reverted(ReviewAlreadyExists(h))
            else
              && Check(b, t) == Done(())
              && h in Apply(b, t).reviews
              && var stored := Apply(b, t).reviews[h];
                 && stored.prHash == h && stored.reviewerAgents == review.reviewerAgents
                 && stored.approved == review.approved && stored.storageRoot == review.storageRoot
                 && stored.teeProofId == review.teeProofId && stored.confidenceScore == review.confidenceScore
                 && stored.exploitsFound == review.exploitsFound && stored.exploitsMitigated == review.exploitsMitigated
                 && stored.timestamp == now
  {
  }

  lemma StrangersRecordNothing(b: Book, sender: Address, now: nat, review: Review)
    requires sender != b.owner && sender !in b.approved
    ensures Check(b, Tx(sender, now, RecordReview(review))) == Reverted(NotApprovedCaller)
  {
  }

  /** Accounts that are neither owner nor approved change nothing, whatever they call together. */
  lemma {:induction false} OutsidersChangeNothing(b: Book, txs: seq<Tx>)
    requires forall t :: t in txs ==> !b.MayWrite(t.sender)
    ensures Run(b, txs) == b && Recorded(b, txs) == []
  {
    if txs != [] {
      assert txs[|txs| - 1] in txs;
      assert forall t :: t in txs[..|txs| - 1] ==> t in txs;
      OutsidersChangeNothing(b, txs[..|txs| - 1]);
    }
  }

  function ApprovedCount(records: seq<Review>): (n: nat)
    ensures n <= |records|
  {
    if records == [] then 0
    else ApprovedCount(records[..|records| - 1]) + if records[|records| - 1].approved then 1 else 0
  }

  /** Checked arithmetic: the product may overflow, the division rounds down. */
  function Share(a: nat, n: nat): Outcome<nat>
    requires n > 0
  {
    if a * 10000 > MAX_UINT then Reverted(ArithmeticOverflow) else Done(a * 10000 / n)
  }

  /** The positions of the approving records. */
  ghost function Approving(records: seq<Review>): set<int> {
    set i | 0 <= i < |records| && records[i].approved
  }

  /** The count is that of the approving records. */
  lemma {:induction false} CountsApprovals(records: seq<Review>)
    ensures ApprovedCount(records) == |Approving(records)|
  {
    if records != [] {
      var n := |records| - 1;
      CountsApprovals(records[..n]);
      assert Approving(records) == Approving(records[..n]) + if records[n].approved then {n} else {};
    }
  }

  /** The share is in basis points, rounded down, and reverts exactly on overflow. */
  lemma ShareRoundsDown(a: nat, n: nat)
    requires n > 0
    ensures Share(a, n) == Reverted(ArithmeticOverflow) <==> a * 10000 > MAX_UINT
    ensures Share(a, n).Done? ==> Share(a, n).value * n <= 10000 * a < (Share(a, n).value + 1) * n
    ensures Share(a, n).Done? || Share(a, n) == Reverted(ArithmeticOverflow)
  {
    Quotient(a * 10000, n);
  }

  class AdversaRegistry {
    var owner: Address
    var reviews: map<Hash, Review>
    var approvedCallers: set<Address>
    var allPRHashes: seq<Hash>

    constructor (sender: Address)
      ensures View() == Deployed(sender)
    {
      owner, approvedCallers, reviews, allPRHashes := sender, {sender}, map[], [];
    }

    function View(): Book
      reads this
    {
      Book(owner, approvedCallers, reviews, allPRHashes)
    }

    method ApproveCallerTx(sender: Address, now: nat, caller: Address) returns (outcome: Outcome<()>)
      modifies this
      ensures outcome == Check(old(View()), Tx(sender, now, ApproveCaller(caller)))
      ensures View() == Apply(old(View()), Tx(sender, now, ApproveCaller(caller)))
    {
      if sender != owner { return Reverted(NotOwner); }
      if caller == 0 { return Reverted(InvalidAddress); }
      approvedCallers := approvedCallers + {caller};
      outcome := Done(());
    }

    method RevokeCallerTx(sender: Address, now: nat, caller: Address) returns (outcome: Outcome<()>)
      modifies this
      ensures outcome == Check(old(View()), Tx(sender, now, RevokeCaller(caller)))
      ensures View() == Apply(old(View()), Tx(sender, now, RevokeCaller(caller)))
    {
      if sender != owner { return Reverted(NotOwner); }
      approvedCallers := approvedCallers - {caller};
      outcome := Done(());
    }

    method TransferOwnershipTx(sender: Address, now: nat, newOwner: Address) returns (outcome: Outcome<()>)
      modifies this
      ensures outcome == Check(old(View()), Tx(sender, now, TransferOwnership(newOwner)))
      ensures View() == Apply(old(View()), Tx(sender, now, TransferOwnership(newOwner)))
    {
      if sender != owner { return Reverted(NotOwner); }
      if newOwner == 0 { return Reverted(InvalidAddress); }
      owner := newOwner;
      outcome := Done(());
    }

    method RecordReviewTx(sender: Address, now: nat, review: Review) returns (outcome: Outcome<()>)
      modifies this
      ensures outcome == Check(old(View()), Tx(sender, now, RecordReview(review)))
      ensures View() == Apply(old(View()), Tx(sender, now, RecordReview(review)))
    {
      if sender !in approvedCallers && sender != owner { return Reverted(NotApprovedCaller); }
      if review.prHash in reviews { return Reverted(ReviewAlreadyExists(review.prHash)); }
      reviews := reviews[review.prHash := review.(timestamp := now)];
      allPRHashes := allPRHashes + [review.prHash];
      outcome := Done(());
    }

    method GetReview(h: Hash) returns (outcome: Outcome<Review>)
      ensures outcome == if h in reviews then Done(reviews[h]) else Reverted(ReviewNotFound(h))
    {
      if h !in reviews { return Reverted(ReviewNotFound(h)); }
      outcome := Done(reviews[h]);
    }

    method GetTotalReviews() returns (n: nat)
      ensures n == |allPRHashes|
    {
      n := |allPRHashes|;
    }

    /** The counting loop returns the rounded-down share of approved records, in basis points. */
    method GetApprovalRate(ghost records: seq<Review>) returns (outcome: Outcome<nat>)
      requires Consistent(View(), records)
      ensures outcome == if records == [] then Done(0) else Share(ApprovedCount(records), |records|)
    {
      if |allPRHashes| == 0 {
        return Done(0);
      }
      var approved := 0;
      for i := 0 to |allPRHashes|
        invariant approved == ApprovedCount(records[..i])
      {
        assert records[..i + 1][..i] == records[..i];
        assert reviews[allPRHashes[i]] == records[i];
        if reviews[allPRHashes[i]].approved {
          approved := approved + 1;
        }
      }
      assert records[..|records|] == records;
      outcome := Share(approved, |allPRHashes|);
    }
  }
}
