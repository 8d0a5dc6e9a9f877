/** When blocks are sent, and when new ones may be made (`TransactionSender`,
    `ITransactionPattern`). */
module Sending {
  import opened Ledger
  import opened Replicas
  import opened ChainReplication

  const REQUIRED_COMMITS: nat := 2
  const MAX_BLOCKS_PENDING: nat := 50

  // ---- what can be sent ----

  /** The commits that the sender sees from block `i` on, up to the first one that is
      not on the main chain yet. */
  function Scan(committed: seq<bool>, present: set<nat>, i: nat): (r: seq<nat>)
    ensures forall j | 0 <= j < |r| :: i <= r[j] < |committed| && committed[r[j]] && r[j] in present
    ensures forall j, k | 0 <= j < k < |r| :: r[j] < r[k]
    decreases |committed| - i
  {
    var c := NextMarked(committed, i);
    NextMarkedRange(committed, if i <= |committed| then i else 0);
    if i >= |committed| || c == -1 || c !in present then []
    else [c] + Scan(committed, present, c + 1)
  }

  /** The last block that has been sent after one more pass. */
  function AfterPass(committed: seq<bool>, present: set<nat>, alreadySent: nat): nat {
    var scan := Scan(committed, present, alreadySent + 1);
    if |scan| < REQUIRED_COMMITS then alreadySent else scan[|scan| - REQUIRED_COMMITS]
  }

  /** Commits at or after block `b` that are on the main chain. */
  ghost function CommitsFrom(committed: seq<bool>, present: set<nat>, b: nat): set<nat> {
    set c: nat | b <= c < |committed| && committed[c] && c in present
  }

  lemma ScanStep(committed: seq<bool>, present: set<nat>, i: nat, next: int)
    requires i < |committed| && next == NextMarked(committed, i)
    ensures if next == -1 || next !in present then Scan(committed, present, i) == []
            else i <= next < |committed| && Scan(committed, present, i) == [next] + Scan(committed, present, next + 1)
  {
    NextMarkedRange(committed, i);
  }

  /** Scanning on from a commit that was seen gives the rest of the scan. */
  lemma {:induction false} ScanFrom(committed: seq<bool>, present: set<nat>, i: nat, n: nat)
    requires n < |Scan(committed, present, i)|
    ensures Scan(committed, present, Scan(committed, present, i)[n] + 1) == Scan(committed, present, i)[n + 1..]
    decreases n
  {
    var scan := Scan(committed, present, i);
    if n > 0 {
      ScanFrom(committed, present, scan[0] + 1, n - 1);
      assert scan[1..][n..] == scan[n + 1..];
    }
  }

  /** A pass never leaves enough commits to send more. */
  lemma {:induction false} PassExhausts(committed: seq<bool>, present: set<nat>, alreadySent: nat)
    ensures |Scan(committed, present, AfterPass(committed, present, alreadySent) + 1)| < REQUIRED_COMMITS
    ensures AfterPass(committed, present, alreadySent) >= alreadySent
  {
    var scan := Scan(committed, present, alreadySent + 1);
    if |scan| >= REQUIRED_COMMITS {
      ScanFrom(committed, present, alreadySent + 1, |scan| - REQUIRED_COMMITS);
    }
  }

  /** What a pass sends has the required commits. */
  lemma PassIsSafe(committed: seq<bool>, present: set<nat>, alreadySent: nat)
    ensures var after := AfterPass(committed, present, alreadySent);
            after != alreadySent ==>
              && after < |committed| && committed[after]
              && |CommitsFrom(committed, present, after)| >= REQUIRED_COMMITS
  {
    var scan := Scan(committed, present, alreadySent + 1);
    if |scan| >= REQUIRED_COMMITS {
      var a, b := scan[|scan| - 2], scan[|scan| - 1];
      SubsetSize({a, b}, CommitsFrom(committed, present, a));
    }
  }

  /** What the scan has seen, and everything before it, is on the main chain. */
  lemma {:induction false} ScanSkipsNothing(committed: seq<bool>, present: set<nat>, i: nat, j: nat, x: nat)
    requires j < |Scan(committed, present, i)| && i <= x <= Scan(committed, present, i)[j] && committed[x]
    ensures x in Scan(committed, present, i) && x in present
    decreases j
  {
    var next := NextMarked(committed, i);
    NextMarkedIsLeast(committed, i, x);
    ScanStep(committed, present, i, next);
    if x > next {
      ScanSkipsNothing(committed, present, next + 1, j - 1, x);
    }
  }

  /** A commit is seen when it and all before it are on the main chain. */
  lemma {:induction false} ScanFinds(committed: seq<bool>, present: set<nat>, i: nat, d: nat) returns (j: nat)
    requires i <= d < |committed| && committed[d]
    requires forall x | i <= x <= d && committed[x] :: x in present
    ensures j < |Scan(committed, present, i)| && Scan(committed, present, i)[j] == d
    decreases d - i
  {
    var next := NextMarked(committed, i);
    NextMarkedIsLeast(committed, i, d);
    NextMarkedRange(committed, i);
    assert committed[next] && next in present;
    ScanStep(committed, present, i, next);
    if next < d {
      j := ScanFinds(committed, present, next + 1, d);
      j := j + 1;
    } else {
      j := 0;
    }
  }

  /** A pass sends a block exactly when two commits at or after it, and all commits before
      those, are on the main chain. */
  lemma {:induction false} PassSendsIff(committed: seq<bool>, present: set<nat>, alreadySent: nat, b: nat)
    requires alreadySent < b
    ensures b <= AfterPass(committed, present, alreadySent) <==>
            exists c, d :: b <= c < d < |committed| && Released(committed, present, alreadySent, c, d)
  {
    var scan := Scan(committed, present, alreadySent + 1);
    if b <= AfterPass(committed, present, alreadySent) {
      var c, d := scan[|scan| - 2], scan[|scan| - 1];
      forall x | alreadySent < x <= d && committed[x]
        ensures x in present
      {
        ScanSkipsNothing(committed, present, alreadySent + 1, |scan| - 1, x);
      }
      assert Released(committed, present, alreadySent, c, d);
    }
    if c, d :| b <= c < d < |committed| && Released(committed, present, alreadySent, c, d) {
      ReleasedIsSent(committed, present, alreadySent, c, d);
    }
  }

  lemma {:induction false} ReleasedIsSent(committed: seq<bool>, present: set<nat>, alreadySent: nat, c: nat, d: nat)
    requires alreadySent < c < d < |committed| && Released(committed, present, alreadySent, c, d)
    ensures c <= AfterPass(committed, present, alreadySent)
  {
    var i := ScanFinds(committed, present, alreadySent + 1, c);
    var j := ScanFinds(committed, present, alreadySent + 1, d);
    LastButOne(Scan(committed, present, alreadySent + 1), i, j);
  }

  lemma LastButOne(scan: seq<nat>, i: nat, j: nat)
    requires (forall j, k | 0 <= j < k < |scan| :: scan[j] < scan[k]) && i < |scan| && j < |scan| && scan[i] < scan[j]
    ensures |scan| >= 2 && scan[i] <= scan[|scan| - 2]
  {
  }

  /** `c` and `d` are committed, and no commit up to `d` is missing. */
  ghost predicate Released(committed: seq<bool>, present: set<nat>, alreadySent: nat, c: nat, d: nat)
    requires c < d < |committed|
  {
    committed[c] && committed[d] && forall x: nat | alreadySent < x <= d && committed[x] :: x in present
  }

  /** Every block a pass sends has a next committed block, which proof construction needs, and
      which has been seen on the main chain. */
  lemma {:induction false} PassSendsFinal(committed: seq<bool>, present: set<nat>, alreadySent: nat, b: nat)
    requires alreadySent < b <= AfterPass(committed, present, alreadySent)
    ensures b <= NextMarked(committed, b) <= AfterPass(committed, present, alreadySent)
    ensures NextMarked(committed, b) in present
  {
    var scan := Scan(committed, present, alreadySent + 1);
    var next := NextMarked(committed, b);
    PassIsSafe(committed, present, alreadySent);
    NextMarkedIsLeast(committed, b, AfterPass(committed, present, alreadySent));
    NextMarkedRange(committed, b);
    ScanSkipsNothing(committed, present, alreadySent + 1, |scan| - 2, next);
  }

  /** Later commits and later knowledge only add to them. */
  lemma CommitsGrow(a: seq<bool>, b: seq<bool>, p: set<nat>, q: set<nat>, from: nat, to: nat)
    requires |a| <= |b| && p <= q && to <= from && forall c | 0 <= c < |a| && a[c] :: b[c]
    ensures |CommitsFrom(a, p, from)| <= |CommitsFrom(b, q, to)|
  {
    SubsetSize(CommitsFrom(a, p, from), CommitsFrom(b, q, to));
  }

  // ---- how many blocks wait ----

  /** Empty blocks at the end of the chain do not wait, except the first of them. */
  function QueueEnd(blocks: seq<Block>): (r: nat)
    requires blocks != []
    ensures r < |blocks|
  {
    var last := |blocks| - 1;
    if last == 0 || blocks[last].transactions != [] || blocks[last - 1].transactions != [] then last
    else QueueEnd(blocks[..last])
  }

  lemma {:induction false} QueueEndIs(blocks: seq<Block>, e: nat)
    requires e < |blocks|
    ensures e == QueueEnd(blocks) <==>
              && (forall i | e < i < |blocks| :: blocks[i].transactions == [])
              && (e == |blocks| - 1 || blocks[e].transactions == [])
              && (e == 0 || blocks[e].transactions != [] || blocks[e - 1].transactions != [])
    decreases |blocks|
  {
    var last := |blocks| - 1;
    if last > 0 && blocks[last].transactions == [] && blocks[last - 1].transactions == [] && e < last {
      QueueEndIs(blocks[..last], e);
    }
  }

  // ---- what the steps do ----

  datatype State = State(
    blocks: seq<Block>,
    committed: seq<bool>,
    lastCommitted: nat,
    present: set<nat>,         // own blocks whose abstracts we have seen on the main chain
    alreadySent: nat)

  predicate WellFormed(s: State) {
    |s.blocks| == |s.committed| > s.lastCommitted
  }

  function Waiting(s: State): int
    requires WellFormed(s)
  {
    QueueEnd(s.blocks) - s.alreadySent
  }

  function Appended(s: State, owner: NodeId, transactions: seq<Transaction>): State {
    s.(blocks := s.blocks + [Block(|s.blocks|, Some(owner), transactions)], committed := s.committed + [false])
  }

  /** Commits the tip: when forced, or when enough blocks have gathered. */
  function TipCommitted(s: State, force: bool, commitEvery: nat): State
    requires WellFormed(s)
  {
    var last := |s.blocks| - 1;
    if last == s.lastCommitted || !(force || last - s.lastCommitted >= commitEvery) then s
    else s.(committed := s.committed[last := true], lastCommitted := last)
  }

  /** One round of the transaction pattern.  `created` is the transaction it makes, if it
      picks an amount that it can pay. */
  function Acted(s: State, owner: NodeId, commitEvery: nat, created: Option<Transaction>): State
    requires WellFormed(s)
  {
    if Waiting(s) >= MAX_BLOCKS_PENDING || created.None? then s
    else TipCommitted(Appended(s, owner, [created.value]), false, commitEvery)
  }

  function Passed(s: State): State {
    s.(alreadySent := AfterPass(s.committed, s.present, s.alreadySent))
  }

  /** `k` empty committed blocks more. */
  ghost predicate Extended(a: State, b: State, k: nat) {
    && |b.blocks| == |a.blocks| + k && a.blocks <= b.blocks
    && |b.committed| == |a.committed| + k && a.committed <= b.committed
    && (forall i | |a.blocks| <= i < |b.blocks| :: b.blocks[i].transactions == [])
    && (forall i | |a.committed| <= i < |b.committed| :: b.committed[i])
    && b.present == a.present && b.alreadySent == a.alreadySent && b.lastCommitted == if k == 0 then a.lastCommitted else |b.blocks| - 1
  }

  // ---- the sender and the pattern ----

  class TransactionSender {
    const chain: Chain
    const commitEvery: nat
    var alreadySent: nat
    var present: set<nat>      // own blocks whose abstracts we have seen on the main chain
    var sent: seq<nat>         // the blocks handed to the socket, in order

    /** Blocks are sent once each, in order, up to a committed block, and each with
        enough commits at or after it. */
    ghost predicate Valid()
      reads this, chain, chain.blocks
    {
      && chain.Valid() && chain.isOwn && chain.blocks.elems != [] && chain.lastCommitted >= 0
      && alreadySent < |chain.committed| && (alreadySent > 0 ==> chain.committed[alreadySent])
      && |sent| == alreadySent && (forall i | 0 <= i < |sent| :: sent[i] == i + 1)
      && (forall b | b in sent :: |CommitsFrom(chain.committed, present, b)| >= REQUIRED_COMMITS)
    }

    ghost function Current(): (s: State)
      requires Valid()
      reads this, chain, chain.blocks
      ensures WellFormed(s)
    {
      State(chain.blocks.elems, chain.committed, chain.lastCommitted, present, alreadySent)
    }

    constructor (chain: Chain, commitEvery: nat)
      requires chain.Valid() && chain.isOwn && chain.blocks.elems != [] && chain.lastCommitted >= 0
      ensures Valid() && this.chain == chain && this.commitEvery == commitEvery
      ensures alreadySent == 0 && sent == [] && present == {}
    {
      this.chain, this.commitEvery := chain, commitEvery;
      alreadySent, sent, present := 0, [], {};
    }

    /** One pass: the scan for commits, and the blocks up to the last but `REQUIRED_COMMITS - 1` of them. */
    method SendAllBlocksThatCanBeSent()
      requires Valid()
      modifies this`alreadySent, this`sent
      ensures Valid()
      ensures Current() == Passed(old(Current())) && old(sent) <= sent
    {
      var committed := CommittedSince();
      if |committed| < REQUIRED_COMMITS {
        return;
      }
      PassIsSafe(chain.committed, present, alreadySent);
      SendUpTo(committed[|committed| - REQUIRED_COMMITS]);
    }

    /** The blocks that have been committed since the last batch we sent. */
    method CommittedSince() returns (committed: seq<nat>)
      requires chain.Valid() && chain.isOwn
      ensures committed == Scan(chain.committed, present, alreadySent + 1)
    {
      var lastBlockNr := |chain.blocks.elems| - 1;
      committed := [];
      var index := alreadySent + 1;
      ghost var marks, scan := chain.committed, Scan(chain.committed, present, index);
      ghost var rest := scan;
      while index <= lastBlockNr
        invariant index <= |marks| || committed == scan == []
        invariant rest == Scan(marks, present, index) && IsSplit(committed, rest, scan)
        decreases |marks| - index
      {
        var next := chain.next[index];
        ScanStep(marks, present, index, next);
        if next == -1 || next !in present {
          break;
        }
        MoveOver(committed, next, Scan(marks, present, next + 1), scan);
        committed := committed + [next];
        index := next + 1;
        rest := Scan(marks, present, index);
      }
    }

    ghost static predicate IsSplit(done: seq<nat>, rest: seq<nat>, all: seq<nat>) {
      done + rest == all
    }

    static lemma MoveOver(done: seq<nat>, x: nat, rest: seq<nat>, all: seq<nat>)
      requires IsSplit(done, [x] + rest, all)
      ensures IsSplit(done + [x], rest, all)
    {
      assert done + ([x] + rest) == (done + [x]) + rest;
    }

    method SendUpTo(lastToSend: nat)
      requires Valid() && alreadySent < lastToSend < |chain.committed| && chain.committed[lastToSend]
      requires |CommitsFrom(chain.committed, present, lastToSend)| >= REQUIRED_COMMITS
      modifies this`alreadySent, this`sent
      ensures Valid() && alreadySent == lastToSend && old(sent) <= sent
    {
      var blockNr := alreadySent + 1;
      while blockNr <= lastToSend
        invariant alreadySent < blockNr == alreadySent + 1 <= lastToSend + 1
        invariant |sent| == alreadySent && (forall i | 0 <= i < |sent| :: sent[i] == i + 1) && old(sent) <= sent
      {
        SendBlock(blockNr);
        blockNr := blockNr + 1;
      }
      forall b | b in sent
        ensures |CommitsFrom(chain.committed, present, b)| >= REQUIRED_COMMITS
      {
        CommitsGrow(chain.committed, chain.committed, present, present, lastToSend, b);
      }
    }

    /** Sending its transactions may fail: the block counts as sent all the same. */
    method SendBlock(number: nat)
      modifies this`alreadySent, this`sent
      ensures alreadySent == number && sent == old(sent) + [number]
    {
      alreadySent := number;
      sent := sent + [number];
    }

    /** The number of blocks that wait to be sent; not positive when all are. */
    method BlocksWaiting() returns (n: int)
      requires Valid()
      ensures n == Waiting(Current())
    {
      var blocks := chain.blocks.elems;
      var block := |blocks| - 1;
      var prev := block;
      while block >= 0 && |blocks[block].transactions| == 0
        invariant -1 <= block <= prev < |blocks| && (block == prev || block == prev - 1)
        invariant block == prev ==> prev == |blocks| - 1
        invariant prev < |blocks| - 1 || block < prev ==> blocks[prev].transactions == []
        invariant forall i | block < i < |blocks| :: blocks[i].transactions == []
        decreases block
      {
        prev := block;
        block := block - 1;
      }
      QueueEndIs(blocks, prev);
      return prev - alreadySent;
    }

    /** The main-chain cache has caught up with one of our abstracts. */
    method Learn(number: nat)
      requires Valid()
      modifies this`present
      ensures Valid() && present == old(present) + {number}
    {
      present := present + {number};
      forall b | b in sent
        ensures |CommitsFrom(chain.committed, present, b)| >= REQUIRED_COMMITS
      {
        CommitsGrow(chain.committed, chain.committed, old(present), present, b, b);
      }
    }

    /** One round of the transaction pattern. */
    method DoAction(created: Option<Transaction>)
      requires Valid()
      modifies chain, chain.blocks
      ensures Valid() && Current() == Acted(old(Current()), chain.owner, commitEvery, created)
    {
      var waiting := BlocksWaiting();
      if waiting >= MAX_BLOCKS_PENDING || created.None? {
        return;
      }
      Append([created.value]);
      CommitBlocks(false);
    }

    method Append(transactions: seq<Transaction>)
      requires Valid()
      modifies chain, chain.blocks
      ensures Valid() && Current() == Appended(old(Current()), chain.owner, transactions)
    {
      ghost var before := chain.committed;
      var ok := chain.AppendNewBlock(transactions);
      forall b | b in sent
        ensures |CommitsFrom(chain.committed, present, b)| >= REQUIRED_COMMITS
      {
        CommitsGrow(before, chain.committed, present, present, b, b);
      }
    }

    method CommitBlocks(force: bool)
      requires Valid()
      modifies chain
      ensures Valid() && Current() == TipCommitted(old(Current()), force, commitEvery)
    {
      var lastBlock, lastCommitted := |chain.blocks.elems| - 1, chain.lastCommitted;
      if lastBlock == lastCommitted {
        return;
      }
      if force || lastBlock - lastCommitted >= commitEvery {
        ghost var before := chain.committed;
        var ok := chain.Commit();
        forall b | b in sent
          ensures |CommitsFrom(chain.committed, present, b)| >= REQUIRED_COMMITS
        {
          CommitsGrow(before, chain.committed, present, present, b, b);
        }
      }
    }

    method CommitExtraEmpty()
      requires Valid()
      modifies chain, chain.blocks
      ensures Valid() && Extended(old(Current()), Current(), REQUIRED_COMMITS + 1)
    {
      for i := 0 to REQUIRED_COMMITS + 1
        invariant Valid() && Extended(old(Current()), Current(), i)
      {
        Append([]);
        CommitBlocks(true);
      }
    }

    /** Called once when the pattern stops. */
    method OnStop()
      requires Valid()
      modifies chain, chain.blocks
      ensures Valid() && Extended(TipCommitted(old(Current()), true, commitEvery), Current(), REQUIRED_COMMITS + 1)
    {
      CommitBlocks(true);
      CommitExtraEmpty();
    }
  }
}
