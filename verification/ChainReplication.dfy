/** One chain: the owner's commits and the updates of everybody else's copies (`Chain`, `Block.commit`).

    The next-committed pointer of block i is `next[i]`, the number of the block it
    points to, or -1 while it is null. */
module ChainReplication {
  import opened Ledger
  import opened AppendOnly
  import opened Replicas

  /** The first index at or after `i` that is marked, or -1. */
  function NextMarked(marks: seq<bool>, i: nat): int
    decreases |marks| - i
  {
    if i >= |marks| then -1
    else if marks[i] then i
    else NextMarked(marks, i + 1)
  }

  lemma {:induction false} NextMarkedIsLeast(marks: seq<bool>, i: nat, j: nat)
    requires i <= j < |marks|
    ensures NextMarked(marks, i) == j <==> marks[j] && forall k | i <= k < j :: !marks[k]
    ensures marks[j] ==> i <= NextMarked(marks, i) <= j
    decreases j - i
  {
    if i < j && !marks[i] {
      NextMarkedIsLeast(marks, i + 1, j);
    } else if !marks[i] {
      NextMarkedRange(marks, i + 1);
    }
  }

  lemma {:induction false} NextMarkedRange(marks: seq<bool>, i: nat)
    requires i <= |marks|
    ensures NextMarked(marks, i) == -1 || (i <= NextMarked(marks, i) < |marks| && marks[NextMarked(marks, i)])
    ensures NextMarked(marks, i) == -1 <==> forall k | i <= k < |marks| :: !marks[k]
    decreases |marks| - i
  {
    if i < |marks| && !marks[i] {
      NextMarkedRange(marks, i + 1);
    }
  }

  /** Every pointer leads to the least marked block at or after it, or is null. */
  ghost predicate PointsToNext(next: seq<int>, marks: seq<bool>) {
    && |next| == |marks|
    && forall i | 0 <= i < |next| :: next[i] == NextMarked(marks, i)
  }

  // ---- the owner commits ----

  /** The pointers after block `c` has been committed: its own, and the null ones
      right before it. */
  function CommitNext(next: seq<int>, c: nat): (r: seq<int>)
    requires c < |next|
  {
    seq(|next|, i requires 0 <= i < |next| =>
      if i == c || (i < c && forall j | i <= j < c :: next[j] == -1) then c else next[i])
  }

  /** Committing block `c` keeps the pointers right exactly when nothing after it is
      committed already, or the block before it is. */
  lemma CommitKeepsPointersIff(next: seq<int>, committed: seq<bool>, c: nat)
    requires PointsToNext(next, committed) && c < |next| && !committed[c]
    ensures PointsToNext(CommitNext(next, c), committed[c := true])
            <==> (forall d | c < d < |committed| :: !committed[d]) || c == 0 || committed[c - 1]
  {
    var after, marks := CommitNext(next, c), committed[c := true];
    if (forall d | c < d < |committed| :: !committed[d]) || c == 0 || committed[c - 1] {
      forall i | 0 <= i < |next|
        ensures after[i] == NextMarked(marks, i)
      {
        PointerAfterCommit(next, committed, c, i);
      }
    } else {
      var d :| c < d < |committed| && committed[d];
      NextMarkedIsLeast(committed, c - 1, d);
      NextMarkedIsLeast(marks, c - 1, c);
      assert after[c - 1] == next[c - 1];
      NextMarkedIsLeast(committed, c - 1, c);
    }
  }

  /** A block between two commits that is committed late: the block before it keeps its pointer. */
  lemma LateCommitMisleads()
    ensures var next, committed := [0, 3, 3, 3], [true, false, false, true];
            PointsToNext(next, committed) && !PointsToNext(CommitNext(next, 2), committed[2 := true])
  {
    var next, committed := [0, 3, 3, 3], [true, false, false, true];
    forall i | 0 <= i < 4
      ensures next[i] == NextMarked(committed, i)
    {
      NextMarkedIsLeast(committed, i, next[i]);
    }
    NextMarkedIsLeast(committed[2 := true], 1, 2);
    assert CommitNext(next, 2)[1] == 3;
  }

  lemma {:induction false} PointerAfterCommit(next: seq<int>, committed: seq<bool>, c: nat, i: nat)
    requires PointsToNext(next, committed) && c < |next| && !committed[c] && i < |next|
    requires (forall d | c < d < |committed| :: !committed[d]) || c == 0 || committed[c - 1]
    ensures CommitNext(next, c)[i] == NextMarked(committed[c := true], i)
  {
    var marks := committed[c := true];
    if i > c {
      SameMarksAfter(committed, marks, i);
    } else if i == c {
    } else if forall j | i <= j < c :: next[j] == -1 {
      forall j | i <= j < c
        ensures !committed[j]
      {
        NextMarkedIsLeast(committed, j, j);
      }
      NextMarkedIsLeast(marks, i, c);
    } else {
      var j :| i <= j < c && next[j] != -1;
      NextMarkedRange(committed, j);
      NextMarkedRange(committed, i);
      // Something in i..c is committed: either nothing is after c, or block c-1 is.
      var p := NextMarked(committed, i);
      NextMarkedIsLeast(committed, i, NextMarked(committed, j));
      if p > c {
        NextMarkedIsLeast(committed, i, c - 1);
        assert false;
      }
      NextMarkedIsLeast(committed, i, p);
      NextMarkedIsLeast(marks, i, p);
    }
  }

  lemma {:induction false} SameMarksAfter(a: seq<bool>, b: seq<bool>, i: nat)
    requires |a| == |b| && forall j | i <= j < |a| :: a[j] == b[j]
    ensures NextMarked(a, i) == NextMarked(b, i)
    decreases |a| - i
  {
    if i < |a| {
      SameMarksAfter(a, b, i + 1);
    }
  }

  lemma {:induction false} UnmarkedAppend(marks: seq<bool>, i: nat)
    requires i <= |marks|
    ensures NextMarked(marks + [false], i) == NextMarked(marks, i)
    decreases |marks| - i
  {
    if i < |marks| {
      UnmarkedAppend(marks, i + 1);
    }
  }

  // ---- a copy is updated ----

  /** The blocks of an update that are appended to a chain of length `n`. */
  function Accepted(updates: seq<Block>, n: nat): seq<Block>
    decreases |updates|
  {
    if updates == [] then []
    else if updates[0].number == n then [updates[0]] + Accepted(updates[1..], n + 1)
    else Accepted(updates[1..], n)
  }

  ghost predicate Contiguous(updates: seq<Block>) {
    forall i | 0 <= i < |updates| :: updates[i].number == updates[0].number + i
  }

  /** Of a contiguous update, the part past the end of the chain is appended, and
      nothing at all if the update leaves a gap. */
  lemma {:induction false} AcceptedIsSuffix(updates: seq<Block>, n: nat)
    requires Contiguous(updates) && updates != []
    ensures var first := updates[0].number;
            Accepted(updates, n) == if first <= n <= first + |updates| then From(updates, n - first) else []
    decreases |updates|
  {
    var rest := updates[1..];
    if rest != [] {
      assert forall i | 0 <= i < |rest| :: rest[i] == updates[i + 1];
      AcceptedIsSuffix(rest, if updates[0].number == n then n + 1 else n);
    }
  }

  /** Which of the appended blocks are committed as far as the updater can tell. */
  function Marks(blocks: seq<Block>, last: nat, cached: set<Block>): seq<bool> {
    seq(|blocks|, i requires 0 <= i < |blocks| => blocks[i].number == last || blocks[i] in cached)
  }

  /** The pointers of blocks appended behind `n` others. */
  function Pointers(marks: seq<bool>, n: nat): (r: seq<int>) {
    seq(|marks|, i requires 0 <= i < |marks| => var j := NextMarked(marks, i); if j == -1 then -1 else n + j)
  }

  class Chain {
    const isOwn: bool
    const owner: NodeId
    const blocks: AppendOnlyArrayList<Block>
    var next: seq<int>
    var committed: seq<bool>    // blocks of our own that we have committed
    var lastCommitted: int      // the number of the last committed block, or -1

    ghost predicate Valid()
      reads this, blocks
    {
      && Numbered(blocks.elems)
      && |next| == |blocks.elems| == |committed|
      && -1 <= lastCommitted
      && (isOwn ==>
            && PointsToNext(next, committed)
            && (lastCommitted >= 0 ==> lastCommitted < |committed| && committed[lastCommitted])
            && forall i | lastCommitted < i < |committed| :: !committed[i])
    }

    constructor (owner: NodeId, isOwn: bool)
      ensures Valid() && this.owner == owner && this.isOwn == isOwn && fresh(blocks)
      ensures blocks.elems == [] && next == [] && committed == [] && lastCommitted == -1
    {
      this.owner, this.isOwn := owner, isOwn;
      blocks := new AppendOnlyArrayList<Block>();
      next, committed, lastCommitted := [], [], -1;
    }

    /** The genesis block is on the main chain, and its own next committed block. */
    method SetGenesisBlock(genesis: Block) returns (ok: bool)
      requires Valid() && genesis.number == 0
      modifies this, blocks
      ensures Valid() && ok == (old(blocks.elems) == [])
      ensures !ok ==> unchanged(this) && unchanged(blocks)
      ensures ok ==> blocks.elems == [genesis] && next == [0] && committed == [true] && lastCommitted == 0
    {
      if |blocks.elems| != 0 {
        return false;
      }
      blocks.AddAll([genesis]);
      next, committed, lastCommitted := [0], [true], 0;
      return true;
    }

    /** Appends a block holding `transactions`; refused on a chain that is not ours or has no genesis block. */
    method AppendNewBlock(transactions: seq<Transaction>) returns (ok: bool)
      requires Valid()
      modifies this, blocks
      ensures Valid() && ok == (isOwn && old(blocks.elems) != [])
      ensures !ok ==> unchanged(this) && unchanged(blocks)
      ensures ok ==> blocks.elems == old(blocks.elems) + [Block(|old(blocks.elems)|, Some(owner), transactions)]
      ensures ok ==> committed == old(committed) + [false] && lastCommitted == old(lastCommitted)
    {
      if !isOwn || |blocks.elems| == 0 {
        return false;
      }
      forall i: nat | i <= |committed|
        ensures NextMarked(committed + [false], i) == NextMarked(committed, i)
      {
        UnmarkedAppend(committed, i);
      }
      blocks.AddAll([Block(|blocks.elems|, Some(owner), transactions)]);
      next, committed := next + [-1], committed + [false];
      return true;
    }

    /** Commits the tip, as `commitBlocks` and `commitExtraEmpty` do. */
    method Commit() returns (ok: bool)
      requires Valid() && isOwn && blocks.elems != []
      modifies this
      ensures Valid() && ok == !old(committed[|committed| - 1])
      ensures !ok ==> unchanged(this)
      ensures ok ==> committed == old(committed)[|old(committed)| - 1 := true] && lastCommitted == |committed| - 1
    {
      var c := |committed| - 1;
      if committed[c] {
        return false;
      }
      CommitKeepsPointersIff(next, committed, c);
      assert NextMarked(committed, c + 1) == -1;
      SetPointers(c);
      committed := committed[c := true];
      if c > lastCommitted {
        lastCommitted := c;
      }
      return true;
    }

    /** The backward walk of `Block.commit`. */
    method SetPointers(c: nat)
      requires c < |next| && next[c] == -1
      modifies this`next
      ensures next == CommitNext(old(next), c)
    {
      ghost var before := next;
      next := next[c := c];
      var prev := c - 1;
      while prev >= 0 && next[prev] == -1
        invariant -1 <= prev < c && |next| == |before|
        invariant forall i | 0 <= i < |next| :: next[i] == if prev < i <= c then c else before[i]
        invariant forall i | prev < i < c :: before[i] == -1
      {
        next := next[prev := c];
        prev := prev - 1;
      }
    }

    /** Applies blocks received from elsewhere. */
    method Update(updates: seq<Block>, cached: set<Block>) returns (ok: bool)
      requires Valid()
      modifies this, blocks
      ensures Valid() && ok == !isOwn
      ensures !ok || updates == [] ==> unchanged(this) && unchanged(blocks)
      ensures ok && updates != [] ==>
                var n, last := |old(blocks.elems)|, updates[|updates| - 1].number;
                var added := Accepted(updates, n);
                && blocks.elems == old(blocks.elems) + added
                && next == old(next) + Pointers(Marks(added, last, cached), n)
                && lastCommitted == if last > old(lastCommitted) then last else old(lastCommitted)
    {
      if isOwn {
        return false;
      }
      if updates == [] {
        return true;
      }
      var last := updates[|updates| - 1].number;
      var n := |blocks.elems|;
      var nextNr, lastBlockNr := n, n - 1;
      var toAdd: seq<Block>, pointers: seq<int> := [], [];
      for i := 0 to |updates|
        invariant unchanged(this) && unchanged(blocks)
        invariant nextNr == n + |toAdd| && |pointers| == |toAdd|
        invariant toAdd + Accepted(updates[i..], nextNr) == Accepted(updates, n)
        invariant forall k | 0 <= k < |toAdd| :: toAdd[k].number == n + k
        invariant n - 1 <= lastBlockNr < nextNr
        invariant PointersSoFar(toAdd, pointers, n, lastBlockNr, last, cached)
      {
        var block := updates[i];
        assert updates[i..][1..] == updates[i + 1..];
        if block.number != nextNr {
          continue;
        }
        ghost var before := toAdd;
        toAdd := toAdd + [block];
        pointers, lastBlockNr := FixNextCommitted(block, last, toAdd, pointers + [-1], n, lastBlockNr, cached, before);
        assert before + ([block] + Accepted(updates[i + 1..], nextNr + 1)) == toAdd + Accepted(updates[i + 1..], nextNr + 1);
        nextNr := nextNr + 1;
      }
      assert toAdd == Accepted(updates, n);
      blocks.AddAll(toAdd);
      AllPointersSet(toAdd, pointers, n, lastBlockNr, last, cached);
      next := next + pointers;
      committed := committed + seq(|toAdd|, _ => false);
      if last > lastCommitted {
        lastCommitted := last;
      }
      return true;
    }

    /** While updating: blocks up to `lastBlockNr` point where they should, later ones have no mark. */
    ghost predicate PointersSoFar(toAdd: seq<Block>, pointers: seq<int>, n: nat, lastBlockNr: int, last: nat, cached: set<Block>) {
      var marks := Marks(toAdd, last, cached);
      && |pointers| == |toAdd|
      && (forall k | 0 <= k <= lastBlockNr - n && k < |toAdd| :: NextMarked(marks, k) >= 0 && pointers[k] == n + NextMarked(marks, k))
      && (forall k | 0 <= k < |toAdd| && k > lastBlockNr - n :: !marks[k] && pointers[k] == -1)
    }

    lemma AllPointersSet(toAdd: seq<Block>, pointers: seq<int>, n: nat, lastBlockNr: int, last: nat, cached: set<Block>)
      requires PointersSoFar(toAdd, pointers, n, lastBlockNr, last, cached)
      ensures pointers == Pointers(Marks(toAdd, last, cached), n)
    {
      var marks := Marks(toAdd, last, cached);
      forall k | 0 <= k < |toAdd| && k > lastBlockNr - n
        ensures NextMarked(marks, k) == -1
      {
        NextMarkedRange(marks, k);
      }
    }

    /** Lets the new block, if it is committed, be the target of all pointers since the last such block. */
    method FixNextCommitted(block: Block, last: nat, toAdd: seq<Block>, given: seq<int>, n: nat, lastBlockNr: int,
                            cached: set<Block>, ghost before: seq<Block>)
      returns (pointers: seq<int>, newLast: int)
      requires toAdd == before + [block] && |given| == |toAdd| && given[|before|] == -1
      requires block.number == n + |before| && n - 1 <= lastBlockNr < n + |before|
      requires PointersSoFar(before, given[..|before|], n, lastBlockNr, last, cached)
      ensures PointersSoFar(toAdd, pointers, n, newLast, last, cached)
      ensures n - 1 <= newLast <= n + |before|
    {
      ghost var old_, marks := Marks(before, last, cached), Marks(toAdd, last, cached);
      assert forall k | 0 <= k < |before| :: marks[k] == old_[k] && given[..|before|][k] == given[k];
      forall k | 0 <= k < |before| && NextMarked(old_, k) >= 0
        ensures NextMarked(marks, k) == NextMarked(old_, k)
      {
        NextMarkedRange(old_, k);
        NextMarkedIsLeast(old_, k, NextMarked(old_, k));
        NextMarkedIsLeast(marks, k, NextMarked(old_, k));
      }
      pointers := given;
      if block.number != last && block !in cached {
        return given, lastBlockNr;
      }
      var prev := |toAdd| - 1;
      while prev >= 0 && n + prev > lastBlockNr
        invariant lastBlockNr - n <= prev <= |before| && |pointers| == |toAdd|
        invariant forall k | 0 <= k < |toAdd| :: pointers[k] == if k > prev then block.number else given[k]
      {
        pointers := pointers[prev := block.number];
        prev := prev - 1;
      }
      newLast := block.number;
      forall k | 0 <= k < |toAdd| && k > lastBlockNr - n
        ensures NextMarked(marks, k) == |before|
      {
        NextMarkedIsLeast(marks, k, |before|);
      }
    }
  }

  /** A contiguous update without a gap leaves no null pointer: each new block points
      to the least new block at or after it that is cached or ends the update. */
  lemma {:induction false} UpdatePointersSet(updates: seq<Block>, n: nat, cached: set<Block>, i: nat)
    requires Contiguous(updates) && updates != [] && i < |Accepted(updates, n)|
    ensures var added, last := Accepted(updates, n), updates[|updates| - 1].number;
            var j := Pointers(Marks(added, last, cached), n)[i] - n;
            && i <= j < |added| && added[|added| - 1].number == last
            && (added[j].number == last || added[j] in cached)
            && forall k | i <= k < j :: added[k].number != last && added[k] !in cached
  {
    AcceptedIsSuffix(updates, n);
    var added, last := Accepted(updates, n), updates[|updates| - 1].number;
    assert added[|added| - 1] == updates[|updates| - 1];
    var marks := Marks(added, last, cached);
    NextMarkedIsLeast(marks, i, |added| - 1);
    NextMarkedRange(marks, i);
    NextMarkedIsLeast(marks, i, NextMarked(marks, i));
    assert forall k | 0 <= k < |added| && !marks[k] :: added[k].number != last && added[k] !in cached;
  }
}
