/** Checking a transaction that comes with a proof (`Verification`).

    The views hold, for every chain, the blocks that the proof's chain view shows. */
module Validation {
  import opened Ledger
  import PV = ProofVerification

  type Views = map<NodeId, seq<Block>>

  /** The views of a proof: the blocks that show. */
  function ViewsShown(e: PV.Evidence): Views {
    map k | k in e :: e[k].blocks
  }

  function View(vs: Views, k: NodeId): seq<Block> {
    if k in vs then vs[k] else []
  }

  // ---- what validation decides, without caches ----

  /** The sources involve the sender and add up to what is spent. */
  ghost predicate MoneyOk(t: Transaction)
    requires t.sender.Some?
  {
    && (forall s | s in t.source :: Involves(t.sender.value, s))
    && Sum(t.source, CheckedContributionOf(t.sender.value)) == t.amount + t.remainder
  }

  ghost predicate NoClash(block: Block, t: Transaction) {
    forall u | u in block.transactions :: u == t || u.source !! t.source
  }

  /** No other transaction shares a source with `t`, up to and including the block of `t`. */
  ghost predicate NoDoubleSpend(view: seq<Block>, t: Transaction) {
    view == [] || (NoClash(view[0], t) && (Contains(view[0], t) || NoDoubleSpend(view[1..], t)))
  }

  ghost predicate GenesisOk(t: Transaction) {
    t.block == 0 && t.source == {} && t.remainder == 0
  }

  /** The verdict on a transaction: its own checks, and the verdicts on its sources. */
  ghost predicate Accepts(vs: Views, t: Transaction) {
    if t.sender.None? then GenesisOk(t)
    else
      && MoneyOk(t) && NoDoubleSpend(View(vs, t.sender.value), t)
      && forall s | s in t.source :: Accepts(vs, s)
  }

  // ---- the checks ----

  method CheckMoney(t: Transaction) returns (ok: bool)
    requires t.sender.Some?
    ensures ok == MoneyOk(t)
  {
    var sender := t.sender.value;
    var f := CheckedContributionOf(sender);
    var expectedSum := t.amount + t.remainder;
    var sum := 0;
    var todo := t.source;
    while todo != {}
      invariant todo <= t.source && forall s | s in t.source - todo :: Involves(sender, s)
      invariant sum + Sum(todo, f) == Sum(t.source, f) && sum <= expectedSum
      decreases todo
    {
      var s :| s in todo;
      SumPick(todo, f, s);
      todo := todo - {s};
      if s.receiver == sender {
        sum := sum + s.amount;
      } else if s.sender.Some? && s.sender.value == sender {
        sum := sum + s.remainder;
      } else {
        return false;
      }
      if sum > expectedSum {
        return false;
      }
    }
    return sum == expectedSum;
  }

  /** Walks over the set that is not the smaller one, looking each element up in the other. */
  method IntersectEmpty<T(==)>(a: set<T>, b: set<T>) returns (r: bool)
    ensures r == (a !! b)
  {
    var walked, other := b, a;
    if |a| >= |b| {
      walked, other := a, b;
    }
    var todo := walked;
    while todo != {}
      invariant todo <= walked && forall x | x in walked - todo :: x !in other
      decreases todo
    {
      var x :| x in todo;
      if x in other {
        return false;
      }
      todo := todo - {x};
    }
    return true;
  }

  method CheckDoubleSpending(t: Transaction, view: seq<Block>) returns (ok: bool)
    ensures ok == NoDoubleSpend(view, t)
  {
    for i := 0 to |view|
      invariant NoDoubleSpend(view, t) == NoDoubleSpend(view[i..], t)
    {
      var found := false;
      var ts := view[i].transactions;
      assert view[i..][1..] == view[i + 1..];
      for j := 0 to |ts|
        invariant found <==> t in ts[..j]
        invariant forall u | u in ts[..j] :: u == t || u.source !! t.source
      {
        if t == ts[j] {
          found := true;
          continue;
        }
        var disjoint := IntersectEmpty(t.source, ts[j].source);
        if !disjoint {
          assert !NoClash(view[i], t);
          return false;
        }
      }
      if found {
        return true;
      }
    }
    return true;
  }

  // ---- the memoised recursion ----

  type Cache = map<Transaction, bool>

  ghost predicate CacheRight(vs: Views, cache: Cache) {
    forall t | t in cache :: cache[t] == Accepts(vs, t)
  }

  /** `t` occurs in the view. */
  ghost predicate Found(view: seq<Block>, t: Transaction) {
    exists i :: 0 <= i < |view| && Contains(view[i], t)
  }

  /** `t` and its whole history are in the views. */
  ghost predicate InViews(vs: Views, t: Transaction) {
    && (t.sender.Some? ==> Found(View(vs, t.sender.value), t))
    && forall s | s in t.source :: InViews(vs, s)
  }

  lemma {:induction false} HistoryInViews(vs: Views, t: Transaction, x: Transaction)
    requires InViews(vs, t) && InHistory(x, t)
    ensures InViews(vs, x)
  {
    if x != t {
      var s :| s in t.source && InHistory(x, s);
      HistoryInViews(vs, s, x);
    }
  }

  /** What verifies and validates is in the chains that the proof shows, with its whole history. */
  lemma {:induction false} VerifiedIsInViews(e: PV.Evidence, t: Transaction)
    requires PV.WellFormed(e) && PV.Verifies(e, t) && Accepts(ViewsShown(e), t)
    ensures InViews(ViewsShown(e), t)
  {
    if t.sender.Some? {
      var c := PV.Chain(e, t.sender.value);
      var i :| PV.SeenOnlyAt(c.blocks, t, i);
      assert View(ViewsShown(e), t.sender.value) == c.blocks;
      forall s | s in t.source
        ensures InViews(ViewsShown(e), s)
      {
        VerifiedIsInViews(e, s);
      }
    }
  }

  /** A cache of verdicts that are right, and stay right as the chains grow. */
  ghost predicate CacheGood(vs: Views, cache: Cache) {
    CacheRight(vs, cache) && forall t | t in cache :: InViews(vs, t)
  }

  /** The second cache holds nothing but the first one and the history of `t`. */
  ghost predicate OnlyAdds(cache: Cache, out: Cache, t: Transaction) {
    forall x | x in out :: x in cache || InHistory(x, t)
  }

  lemma {:induction false} AcceptedIsGood(e: PV.Evidence, t: Transaction, cache: Cache, out: Cache)
    requires PV.WellFormed(e) && PV.Verifies(e, t) && Accepts(ViewsShown(e), t)
    requires CacheGood(ViewsShown(e), cache) && CacheRight(ViewsShown(e), out) && OnlyAdds(cache, out, t)
    ensures CacheGood(ViewsShown(e), out)
  {
    VerifiedIsInViews(e, t);
    forall x | x in out
      ensures InViews(ViewsShown(e), x)
    {
      if x !in cache {
        HistoryInViews(ViewsShown(e), t, x);
      }
    }
  }

  class Verification {
    var validationCache: Cache
    var receivedTransactions: set<Transaction>

    constructor ()
      ensures validationCache == map[] && receivedTransactions == {}
    {
      validationCache, receivedTransactions := map[], {};
    }

    /** With right caches the recursion decides what the uncached one decides.  When
        it fails, the caller drops the cache it returns. */
    method ValidateTransaction(t: Transaction, vs: Views, cache: Cache) returns (ok: bool, out: Cache)
      requires CacheRight(vs, validationCache) && CacheRight(vs, cache)
      ensures ok == Accepts(vs, t)
      ensures CacheRight(vs, out) && cache.Keys <= out.Keys && (ok ==> t in out) && OnlyAdds(cache, out, t)
      decreases t, 1
    {
      out := cache;
      if t.sender.None? {
        if t.block != 0 || t.source != {} || t.remainder != 0 {
          return false, out;
        }
        return true, out[t := true];
      }
      ok := CheckMoney(t);
      if !ok {
        return;
      }
      ok := CheckDoubleSpending(t, View(vs, t.sender.value));
      if !ok {
        return;
      }
      ok, out := ValidateSources(t, vs, cache);
      if !ok {
        return;
      }
      out := out[t := true];
    }

    method ValidateSources(t: Transaction, vs: Views, cache: Cache) returns (ok: bool, out: Cache)
      requires CacheRight(vs, validationCache) && CacheRight(vs, cache)
      ensures ok <==> forall s | s in t.source :: Accepts(vs, s)
      ensures CacheRight(vs, out) && cache.Keys <= out.Keys && OnlyAdds(cache, out, t)
      decreases t, 0
    {
      out := cache;
      var todo := t.source;
      while todo != {}
        invariant todo <= t.source && forall s | s in t.source - todo :: Accepts(vs, s)
        invariant CacheRight(vs, out) && cache.Keys <= out.Keys && OnlyAdds(cache, out, t)
        decreases todo
      {
        var s :| s in todo;
        todo := todo - {s};
        if s in validationCache || s in out {
          var cached := if s in validationCache then validationCache[s] else out[s];
          if !cached {
            return false, out;
          }
        } else {
          var valid;
          ghost var before := out;
          valid, out := ValidateTransaction(s, vs, out);
          forall x | x in out
            ensures x in cache || InHistory(x, t)
          {
            assert x in before || InHistory(x, s);
          }
          if !valid {
            return false, out;
          }
        }
      }
      return true, out;
    }

    /** A message is accepted at most once, and a rejected one leaves no trace in the
        cache of verdicts.  A cache that was good for the chains the proof shows stays so. */
    method ValidateNewMessage(t: Transaction, proof: PV.ProofVerifier) returns (accepted: bool)
      requires proof.Valid() && CacheGood(ViewsShown(proof.e), validationCache)
      modifies this, proof
      ensures accepted <==> t !in old(receivedTransactions) && t.sender.Some?
                            && PV.Verifies(proof.e, t) && Accepts(ViewsShown(proof.e), t)
      ensures receivedTransactions == old(receivedTransactions) + {t}
      ensures CacheGood(ViewsShown(proof.e), validationCache) && OnlyAdds(old(validationCache), validationCache, t)
      ensures accepted ==> t in validationCache
      ensures !accepted ==> validationCache == old(validationCache)
      ensures proof.Valid() && forall x | x in proof.verified :: x in old(proof.verified) || InHistory(x, t)
    {
      if t in receivedTransactions {
        assert receivedTransactions + {t} == receivedTransactions;
        return false;
      }
      receivedTransactions := receivedTransactions + {t};
      var verified := proof.VerifyProof(t);
      if !verified {
        return false;
      }
      var ok, cache := ValidateTransaction(t, ViewsShown(proof.e), map[]);
      if !ok {
        return false;
      }
      ghost var before := validationCache;
      validationCache := validationCache + cache;
      AcceptedIsGood(proof.e, t, before, validationCache);
      return true;
    }
  }

  // ---- verdicts last ----

  lemma {:induction false} ScanStops(view: seq<Block>, more: seq<Block>, t: Transaction)
    requires Found(view, t)
    ensures NoDoubleSpend(view + more, t) == NoDoubleSpend(view, t)
    decreases |view|
  {
    assert (view + more)[1..] == view[1..] + more;
    if !Contains(view[0], t) {
      var i :| 0 <= i < |view| && Contains(view[i], t);
      assert Contains(view[1..][i - 1], t);
      ScanStops(view[1..], more, t);
    }
  }

  lemma {:induction false} ScanOnly(view: seq<Block>, more: seq<Block>, t: Transaction)
    requires !Found(view, t)
    ensures NoDoubleSpend(view + more, t) == (NoDoubleSpend(view, t) && NoDoubleSpend(more, t))
    decreases |view|
  {
    if view == [] {
      assert view + more == more;
    } else {
      assert (view + more)[1..] == view[1..] + more;
      assert !Contains(view[0], t);
      assert !Found(view[1..], t) by {
        forall i | 0 <= i < |view[1..]|
          ensures !Contains(view[1..][i], t)
        {
          assert view[1..][i] == view[i + 1];
        }
      }
      ScanOnly(view[1..], more, t);
    }
  }

  /** The outcome of the double-spend scan can never change as the chain grows exactly
      when the transaction is in the chain, or the scan has failed already, or there
      is nothing to share. */
  lemma {:induction false} ScanLastsIff(view: seq<Block>, t: Transaction)
    ensures (forall more :: NoDoubleSpend(view + more, t) == NoDoubleSpend(view, t))
            <==> Found(view, t) || !NoDoubleSpend(view, t) || t.source == {}
  {
    if Found(view, t) {
      forall more ensures NoDoubleSpend(view + more, t) == NoDoubleSpend(view, t) {
        ScanStops(view, more, t);
      }
    } else if !NoDoubleSpend(view, t) {
      forall more ensures NoDoubleSpend(view + more, t) == NoDoubleSpend(view, t) {
        ScanOnly(view, more, t);
      }
    } else if t.source == {} {
      forall more ensures NoDoubleSpend(view + more, t) {
        NothingToShare(view + more, t);
      }
    } else {
      var clash := t.(number := t.number + 1);
      var more := [Block(|view|, t.sender, [clash])];
      assert clash in more[0].transactions && clash != t;
      var s :| s in t.source;
      assert s in clash.source;
      ScanOnly(view, more, t);
      assert NoDoubleSpend(view + more, t) != NoDoubleSpend(view, t);
    }
  }

  lemma {:induction false} NothingToShare(view: seq<Block>, t: Transaction)
    requires t.source == {}
    ensures NoDoubleSpend(view, t)
    decreases |view|
  {
    if view != [] {
      NothingToShare(view[1..], t);
    }
  }

  ghost predicate Extends(vs: Views, more: Views) {
    forall k :: View(vs, k) <= View(more, k)
  }

  /** A verdict on a transaction that was in its chain stays right as the chains grow, */
  lemma {:induction false} VerdictLasts(vs: Views, more: Views, t: Transaction)
    requires InViews(vs, t) && Extends(vs, more)
    ensures Accepts(vs, t) == Accepts(more, t)
  {
    forall s | s in t.source
      ensures Accepts(vs, s) == Accepts(more, s)
    {
      VerdictLasts(vs, more, s);
    }
    if t.sender.Some? {
      var a, b := View(vs, t.sender.value), View(more, t.sender.value);
      assert b == a + b[|a|..];
      ScanStops(a, b[|a|..], t);
    }
  }

  lemma {:induction false} InViewsLasts(vs: Views, more: Views, t: Transaction)
    requires InViews(vs, t) && Extends(vs, more)
    ensures InViews(more, t)
  {
    if t.sender.Some? {
      var a, b := View(vs, t.sender.value), View(more, t.sender.value);
      var i :| 0 <= i < |a| && Contains(a[i], t);
      assert a <= b && b[i] == a[i];
    }
    forall s | s in t.source
      ensures InViews(more, s)
    {
      InViewsLasts(vs, more, s);
    }
  }

  /** and with it every good cache. */
  lemma CacheLasts(vs: Views, more: Views, cache: Cache)
    requires CacheGood(vs, cache) && Extends(vs, more)
    ensures CacheGood(more, cache)
  {
    forall t | t in cache
      ensures cache[t] == Accepts(more, t) && InViews(more, t)
    {
      VerdictLasts(vs, more, t);
      InViewsLasts(vs, more, t);
    }
  }

  // ---- no output is spent twice ----

  /** A transaction has two outputs: the amount for the receiver and the remainder for the sender. */
  datatype Output = AmountOf(t: Transaction) | RemainderOf(t: Transaction)

  function Spent(spender: Transaction, source: Transaction): Output
    requires spender.sender.Some?
  {
    if source.receiver == spender.sender.value then AmountOf(source) else RemainderOf(source)
  }

  /** The scan that accepts a transaction has looked at every transaction of its
      chain up to its own block. */
  lemma {:induction false} ScanCovers(view: seq<Block>, t: Transaction, i: nat, u: Transaction)
    requires NoDoubleSpend(view, t) && i < |view| && Contains(view[i], u)
    requires forall j | 0 <= j < i :: !Contains(view[j], t)
    ensures u == t || u.source !! t.source
    decreases |view|
  {
    if i > 0 {
      assert !Contains(view[0], t);
      assert view[1..][i - 1] == view[i];
      forall j | 0 <= j < i - 1 ensures !Contains(view[1..][j], t) {
        assert view[1..][j] == view[j + 1];
      }
      ScanCovers(view[1..], t, i - 1, u);
    }
  }

  lemma FirstFound(view: seq<Block>, t: Transaction) returns (i: nat)
    requires Found(view, t)
    ensures i < |view| && Contains(view[i], t)
    ensures forall j | 0 <= j < i :: !Contains(view[j], t)
  {
    i := 0;
    while !Contains(view[i], t)
      invariant i < |view| && forall j | 0 <= j < i :: !Contains(view[j], t)
      invariant exists k :: i <= k < |view| && Contains(view[k], t)
      decreases |view| - i
    {
      i := i + 1;
    }
  }

  /** Two accepted transactions, each present in the chain of its sender, never spend
      the same output. */
  lemma {:induction false} NoOutputSpentTwice(vs: Views, t: Transaction, u: Transaction, source: Transaction)
    requires t.sender.Some? && u.sender.Some? && Accepts(vs, t) && Accepts(vs, u)
    requires Found(View(vs, t.sender.value), t) && Found(View(vs, u.sender.value), u)
    requires source in t.source && source in u.source && Spent(t, source) == Spent(u, source)
    ensures t == u
  {
    assert Involves(t.sender.value, source) && Involves(u.sender.value, source);
    var view := View(vs, t.sender.value);
    var i := FirstFound(view, t);
    var j := FirstFound(view, u);
    if i <= j {
      ScanCovers(view, u, i, t);
    } else {
      ScanCovers(view, t, j, u);
    }
  }

  // ---- creation and validation count alike ----

  lemma {:induction false} CheckedIsLess(own: NodeId, ts: set<Transaction>)
    ensures var a, b := Sum(ts, CheckedContributionOf(own)), Sum(ts, ContributionOf(own));
            a <= b && ((a == b) <==> forall s | s in ts :: CheckedContribution(own, s) == Contribution(own, s))
    decreases ts
  {
    if ts != {} {
      var x :| x in ts;
      SumPick(ts, CheckedContributionOf(own), x);
      SumPick(ts, ContributionOf(own), x);
      CheckedIsLess(own, ts - {x});
      assert forall s | s in ts :: s == x || s in ts - {x};
    }
  }

  /** A payment of 5 with a change of 2, out of a transfer of 3 to oneself that left 4: creation
      counts 7, the check only 3. */
  lemma SelfTransferFails()
    ensures var s := Transaction(1, Some(0), 0, 3, 4, 1, {});
            var t := Transaction(2, Some(0), 1, 5, 2, 2, {s});
            Sum(t.source, ContributionOf(0)) == t.amount + t.remainder && !MoneyOk(t)
  {
    var s := Transaction(1, Some(0), 0, 3, 4, 1, {});
    SumPick({s}, ContributionOf(0), s);
    SumPick({s}, CheckedContributionOf(0), s);
    assert {s} - {s} == {};
  }

  /** A transaction whose sources are worth what it spends passes the money check
      exactly when none of them is a transfer to itself with a remainder: creation
      counts both halves of such a source, validation only one. */
  lemma CreatedPassesMoneyCheckIff(t: Transaction)
    requires t.sender.Some? && forall s | s in t.source :: Involves(t.sender.value, s)
    requires Sum(t.source, ContributionOf(t.sender.value)) == t.amount + t.remainder
    ensures MoneyOk(t) <==>
            forall s | s in t.source :: !(s.sender == t.sender && s.receiver == t.sender.value && s.remainder > 0)
  {
    CheckedIsLess(t.sender.value, t.source);
    assert forall s | s in t.source ::
        CheckedContribution(t.sender.value, s) == Contribution(t.sender.value, s) <==>
        !(s.sender == t.sender && s.receiver == t.sender.value && s.remainder > 0);
  }
}
