/** Checking that a transaction, and everything it spends, sits in the chains a
    proof shows (`Proof.verify`). */
module ProofVerification {
  import opened Ledger

  /** A chain as the proof shows it.  `marked[i]`: block i has a next committed block or
      is itself on the main chain.  While the view is invalid only our own blocks show. */
  datatype Shown = Shown(valid: bool, blocks: seq<Block>, marked: seq<bool>)

  type Evidence = map<NodeId, Shown>

  function Chain(e: Evidence, k: NodeId): Shown {
    if k in e then e[k] else Shown(true, [], [])
  }

  ghost predicate WellFormed(e: Evidence) {
    forall k :: |Chain(e, k).blocks| == |Chain(e, k).marked|
  }

  ghost predicate SeenOnce(blocks: seq<Block>, t: Transaction) {
    exists i :: SeenOnlyAt(blocks, t, i)
  }

  ghost predicate SeenOnlyAt(blocks: seq<Block>, t: Transaction, i: int) {
    && 0 <= i < |blocks| && Contains(blocks[i], t)
    && forall j | 0 <= j < |blocks| && j != i :: !Contains(blocks[j], t)
  }

  ghost predicate MarkedFrom(c: Shown, block: nat)
    requires |c.blocks| == |c.marked|
  {
    exists i :: 0 <= i < |c.blocks| && c.blocks[i].number >= block && c.marked[i]
  }

  /** A block with number 0 counts as being on the main chain. */
  predicate GenesisShown(c: Shown)
    requires |c.blocks| == |c.marked|
  {
    |c.blocks| > 0 && (c.blocks[0].number == 0 || c.marked[0])
  }

  /** What verification decides when nothing has been verified before. */
  ghost predicate Verifies(e: Evidence, t: Transaction)
    requires WellFormed(e)
  {
    if t.sender.None? then t.block == 0 && GenesisShown(Chain(e, t.receiver))
    else
      var c := Chain(e, t.sender.value);
      && c.valid && SeenOnce(c.blocks, t) && MarkedFrom(c, t.block)
      && forall s | s in t.source :: Verifies(e, s)
  }

  /** `verified` are the transactions whose `locallyVerified` flag is set. */
  class ProofVerifier {
    const e: Evidence
    var verified: set<Transaction>

    constructor (e: Evidence, verified: set<Transaction>)
      ensures this.e == e && this.verified == verified
    {
      this.e, this.verified := e, verified;
    }

    ghost predicate Valid()
      reads this
    {
      WellFormed(e) && forall t | t in verified :: Verifies(e, t)
    }

    /** The transaction that was sent may not be a genesis transaction. */
    method VerifyProof(t: Transaction) returns (ok: bool)
      requires Valid()
      modifies this
      ensures Valid() && OnlyFlags(old(verified), t)
      ensures ok == (t.sender.Some? && Verifies(e, t))
    {
      if t.sender.None? {
        return false;
      }
      ok := Verify(t);
    }

    /** All new flags are on the history of `t`. */
    ghost predicate OnlyFlags(before: set<Transaction>, t: Transaction)
      reads this
    {
      before <= verified && forall x | x in verified :: x in before || InHistory(x, t)
    }

    /** The flags only save work: the answer is that of the plain recursion. */
    method Verify(t: Transaction) returns (ok: bool)
      requires Valid()
      modifies this
      ensures Valid() && OnlyFlags(old(verified), t)
      ensures ok == Verifies(e, t) && (ok ==> t in verified)
      decreases t, 1
    {
      if t in verified {
        return true;
      }
      if t.sender.None? {
        ok := t.block == 0 && GenesisShown(Chain(e, t.receiver));
        if ok {
          verified := verified + {t};
        }
        return;
      }
      ok := VerifyChainWithTransaction(t);
      if !ok {
        return;
      }
      ok := VerifySourceTransactions(t);
      if ok {
        verified := verified + {t};
      }
    }

    method VerifyChainWithTransaction(t: Transaction) returns (ok: bool)
      requires WellFormed(e) && t.sender.Some?
      ensures var c := Chain(e, t.sender.value);
              ok == (c.valid && SeenOnce(c.blocks, t) && MarkedFrom(c, t.block))
    {
      var c := Chain(e, t.sender.value);
      if !c.valid {
        return false;
      }
      var seen, absmark := false, false;
      ghost var at := -1;
      for i := 0 to |c.blocks|
        invariant seen ==> 0 <= at < i && Contains(c.blocks[at], t)
        invariant forall j | 0 <= j < i && j != at :: !Contains(c.blocks[j], t)
        invariant !seen ==> at == -1
        invariant absmark <==> exists j :: 0 <= j < i && c.blocks[j].number >= t.block && c.marked[j]
      {
        if Contains(c.blocks[i], t) {
          if seen {
            TwiceIsNotOnce(c.blocks, t, at, i);
            return false;
          }
          seen, at := true, i;
        }
        if !absmark && c.blocks[i].number >= t.block && c.marked[i] {
          absmark := true;
        }
      }
      if seen {
        assert SeenOnlyAt(c.blocks, t, at);
      }
      return seen && absmark;
    }

    static lemma TwiceIsNotOnce(blocks: seq<Block>, t: Transaction, i: nat, j: nat)
      requires i < j < |blocks| && Contains(blocks[i], t) && Contains(blocks[j], t)
      ensures !SeenOnce(blocks, t)
    {
    }

    method VerifySourceTransactions(t: Transaction) returns (ok: bool)
      requires Valid()
      modifies this
      ensures Valid() && OnlyFlags(old(verified), t)
      ensures ok <==> forall s | s in t.source :: Verifies(e, s)
      decreases t, 0
    {
      var todo := t.source;
      while todo != {}
        invariant todo <= t.source && Valid() && OnlyFlags(old(verified), t)
        invariant forall s | s in t.source - todo :: Verifies(e, s)
        decreases todo
      {
        var s :| s in todo;
        ghost var before := verified;
        var sourceOk := Verify(s);
        forall x | x in verified
          ensures x in old(verified) || InHistory(x, t)
        {
          assert x in before || InHistory(x, s);
        }
        if !sourceOk {
          return false;
        }
        todo := todo - {s};
      }
      return true;
    }
  }

  // ---- flags stay right ----

  /** Every transaction names the block it is in. */
  ghost predicate WellPlaced(e: Evidence) {
    forall k, i, t | 0 <= i < |Chain(e, k).blocks| && t in Chain(e, k).blocks[i].transactions :: t.block == i
  }

  /** A chain that grows, and whose marks only appear. */
  ghost predicate GrowsTo(c: Shown, d: Shown)
    requires |c.blocks| == |c.marked| && |d.blocks| == |d.marked|
  {
    && (c.valid ==> d.valid) && c.blocks <= d.blocks
    && forall i | 0 <= i < |c.marked| && c.marked[i] :: d.marked[i]
  }

  /** What verified once verifies with every later proof. */
  lemma {:induction false} VerifiedLasts(e: Evidence, later: Evidence, t: Transaction)
    requires WellFormed(e) && WellFormed(later) && WellPlaced(later)
    requires forall k :: GrowsTo(Chain(e, k), Chain(later, k))
    requires Verifies(e, t)
    ensures Verifies(later, t)
  {
    if t.sender.None? {
      assert GrowsTo(Chain(e, t.receiver), Chain(later, t.receiver));
      assert GenesisShown(Chain(e, t.receiver));
    } else {
      var c, d := Chain(e, t.sender.value), Chain(later, t.sender.value);
      assert GrowsTo(c, d);
      var i :| SeenOnlyAt(c.blocks, t, i);
      assert SeenOnlyAt(d.blocks, t, i);
      var j :| 0 <= j < |c.blocks| && c.blocks[j].number >= t.block && c.marked[j];
      assert d.blocks[j] == c.blocks[j];
      forall s | s in t.source ensures Verifies(later, s) {
        VerifiedLasts(e, later, s);
      }
    }
  }
}
