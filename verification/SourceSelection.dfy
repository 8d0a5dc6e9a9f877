/** Choosing the sources of a new transaction (`TransactionCreator`, `TransactionTuple`).

    Collections that Java keeps in hash sets are sets here, and every loop over one
    takes its elements in an arbitrary order.  Tuples are compared by value once
    they are in such a set, so the sets hold their values. */
module SourceSelection {
  import opened Ledger
  import opened ChainReach
  import opened LocalStores
  import opened SourceSearch

  method ChainsRequired(q: Query, t: Transaction) returns (chains: set<NodeId>)
    requires q.receiver in q.nodes && SendersIn(t, q.nodes)
    ensures chains == q.Chains(t)
  {
    var m := AppendChains2(|q.nodes|, t, q.receiver, q.known, map[], q.nodes);
    chains := m.Keys;
  }

  class TransactionTuple {
    const q: Query
    var amount: int
    var transactions: set<Transaction>
    var chainsRequired: set<NodeId>

    function Value(): Tuple
      reads this
    {
      Tuple(transactions, amount, chainsRequired)
    }

    constructor (q: Query, t: Transaction)
      requires Involves(q.own, t) && q.receiver in q.nodes && SendersIn(t, q.nodes)
      ensures this.q == q && Value() == q.TupleOf({t})
    {
      this.q := q;
      amount, transactions, chainsRequired := 0, {}, {};
      new;
      AddTransaction(t);
      assert {} + {t} == {t};
    }

    /** The union of two tuples, overlapping or not. */
    constructor Union(q: Query, tuple1: Tuple, tuple2: Tuple, chains: set<NodeId>)
      requires forall t | t in tuple1.transactions + tuple2.transactions :: Involves(q.own, t)
      ensures this.q == q && transactions == tuple1.transactions + tuple2.transactions
      ensures amount == q.Amount(transactions) && chainsRequired == chains
    {
      this.q := q;
      amount, transactions, chainsRequired := 0, {}, chains;
      new;
      AddAll(tuple1.transactions);
      AddAll(tuple2.transactions);
    }

    /** The loop of the union constructor over one of its tuples. */
    method AddAll(ts: set<Transaction>)
      requires amount == q.Amount(transactions)
      requires forall t | t in ts :: Involves(q.own, t)
      modifies this`amount, this`transactions
      ensures transactions == old(transactions) + ts && amount == q.Amount(transactions)
    {
      var todo := ts;
      while todo != {}
        invariant todo <= ts && amount == q.Amount(transactions)
        invariant transactions == old(transactions) + (ts - todo)
        decreases todo
      {
        var t :| t in todo;
        var _ := AddTransactionAndAmount(t);
        todo := todo - {t};
      }
    }

    method AddTransaction(t: Transaction)
      requires Involves(q.own, t) && q.receiver in q.nodes && SendersIn(t, q.nodes)
      requires Value() == q.TupleOf(transactions)
      modifies this
      ensures transactions == old(transactions) + {t} && Value() == q.TupleOf(transactions)
    {
      var added := AddTransactionAndAmount(t);
      if !added {
        assert transactions == old(transactions);
        return;
      }
      var newChains := ChainsRequired(q, t);
      ReachAllPick(transactions, t, q.receiver, q.known);
      assert transactions - {t} == old(transactions);
      chainsRequired := chainsRequired + newChains;
    }

    method AddTransactionAndAmount(t: Transaction) returns (added: bool)
      requires Involves(q.own, t) && amount == q.Amount(transactions)
      modifies this`amount, this`transactions
      ensures added <==> t !in old(transactions)
      ensures transactions == old(transactions) + {t} && amount == q.Amount(transactions)
    {
      if t in transactions {
        assert transactions + {t} == transactions;
        return false;
      }
      ghost var before := q.Worth(transactions);
      SumAdd(transactions, ContributionOf(q.own), t);
      transactions := transactions + {t};
      if t.sender == Some(q.own) {
        WrapIntAdd(before, t.remainder);
        amount := WrapInt(amount + t.remainder);
        before := before + t.remainder;
      }
      if t.receiver == q.own {
        WrapIntAdd(before, t.amount);
        amount := WrapInt(amount + t.amount);
      }
      return true;
    }

    method MergeNonOverlappingSameChainsTuple(tuple: Tuple)
      requires tuple.transactions !! transactions && tuple.chains == chainsRequired
      requires Value() == q.TupleOf(transactions) && IsTuple(q, tuple)
      modifies this`amount, this`transactions
      ensures transactions == old(transactions) + tuple.transactions && Value() == q.TupleOf(transactions)
    {
      SumUnion(transactions, tuple.transactions, ContributionOf(q.own));
      ChainsUnion(q, transactions, tuple.transactions);
      WrapIntAdd(q.Worth(transactions), WrapInt(q.Worth(tuple.transactions)));
      WrapIntAdd(q.Worth(tuple.transactions), q.Worth(transactions));
      transactions := transactions + tuple.transactions;
      amount := WrapInt(amount + tuple.amount);
    }
  }

  datatype Result = Created(transaction: Transaction) | NotEnoughMoney

  class TransactionCreator {
    const q: Query
    var currentBest: int
    var currentBestTuple: Option<Tuple>

    constructor (q: Query)
      ensures this.q == q && currentBest == INT_MAX && currentBestTuple == None
    {
      this.q := q;
      currentBest, currentBestTuple := INT_MAX, None;
    }

    /** What the search needs of the unspent transactions: each involves us, and
        comes from nodes that are known. */
    ghost predicate Usable(unspent: set<Transaction>) {
      && q.receiver in q.nodes && |q.nodes| <= INT_MAX
      && forall t | t in unspent :: Involves(q.own, t) && SendersIn(t, q.nodes)
    }

    ghost predicate BestIsGood(unspent: set<Transaction>)
      reads this
    {
      match currentBestTuple
      case None => currentBest == INT_MAX
      case Some(c) => PartOf(unspent, c) && q.Covers(c) && |c.chains| == currentBest
    }

    ghost predicate PartOf(unspent: set<Transaction>, c: Tuple) {
      IsTuple(q, c) && c.transactions != {} && c.transactions <= unspent
    }

    /** Tuples worth keeping for the next round. */
    ghost predicate Candidates(unspent: set<Transaction>, next: set<Tuple>, limit: int) {
      forall c | c in next :: PartOf(unspent, c) && !q.Covers(c) && |c.chains| < limit
    }

    /** Step 1: one tuple for each set of required chains. */
    method GroupUnspent(unspent: set<Transaction>) returns (groups: set<Tuple>)
      requires Usable(unspent)
      ensures groups == q.GroupsOf(unspent)
    {
      var candidates: map<set<NodeId>, Tuple> := map[];
      var todo := unspent;
      while todo != {}
        invariant todo <= unspent
        invariant candidates == GroupMap(q, unspent - todo)
        decreases todo
      {
        var t :| t in todo;
        var tuple := new TransactionTuple(q, t);
        GroupMapAdd(q, unspent - todo, t);
        GroupMapEntry(q, unspent - todo, t);
        assert unspent - (todo - {t}) == unspent - todo + {t};
        if tuple.chainsRequired in candidates {
          tuple.MergeNonOverlappingSameChainsTuple(candidates[tuple.chainsRequired]);
        }
        candidates := candidates[tuple.chainsRequired := tuple.Value()];
        todo := todo - {t};
      }
      assert unspent - todo == unspent;
      groups := candidates.Values;
      GroupMapValues(q, unspent);
    }

    /** Step 2: look for a single group that covers the amount. */
    method FirstRound(all: set<Tuple>, ghost unspent: set<Transaction>) returns (kept: set<Tuple>)
      requires BestIsGood(unspent)
      requires forall c | c in all :: PartOf(unspent, c)
      modifies this
      ensures BestIsGood(unspent) && currentBest <= old(currentBest)
      ensures FirstRoundDone(q, all, kept, currentBest)
    {
      kept := all;
      var todo := all;
      while todo != {}
        invariant todo <= kept <= all
        invariant BestIsGood(unspent) && currentBest <= old(currentBest)
        invariant forall c | c in all && c !in kept :: |c.chains| >= currentBest
        invariant forall c | c in kept && c !in todo :: !q.Covers(c)
        decreases todo
      {
        var tuple :| tuple in todo;
        todo := todo - {tuple};
        var required := |tuple.chains|;
        if required >= currentBest {
          kept := kept - {tuple};
          continue;
        }
        if tuple.amount >= q.target {
          currentBest, currentBestTuple := required, Some(tuple);
          kept := kept - {tuple};
        }
      }
    }

    method Cleanup(tuples: set<Tuple>, previousBest: int) returns (kept: set<Tuple>)
      ensures currentBest != previousBest ==> kept == set c | c in tuples && |c.chains| < currentBest
      ensures currentBest == previousBest ==> kept == tuples
    {
      kept := tuples;
      if currentBest != previousBest {
        var todo := tuples;
        while todo != {}
          invariant todo <= kept <= tuples
          invariant forall c | c in tuples && c !in todo :: c in kept <==> |c.chains| < currentBest
          decreases todo
        {
          var tuple :| tuple in todo;
          todo := todo - {tuple};
          if |tuple.chains| >= currentBest {
            kept := kept - {tuple};
          }
        }
      }
    }

    /** Step 3: combine every base element with every tuple of the round. */
    method DoOneRound(groups: set<Tuple>, round: set<Tuple>, ghost unspent: set<Transaction>)
      returns (next: set<Tuple>, ghost base: set<Tuple>, ghost skip: bool)
      requires Usable(unspent) && BestIsGood(unspent)
      requires forall c | c in groups + round :: PartOf(unspent, c)
      modifies this
      ensures BestIsGood(unspent) && currentBest <= old(currentBest)
      ensures if skip then base == round else base == groups
      ensures RowsTried(q, base, round, skip, next, currentBest)
      ensures Candidates(unspent, next, old(currentBest))
    {
      var baseElements, skipContainsCheck := groups, false;
      if |round| < |groups| {
        baseElements, skipContainsCheck := round, true;
      }
      base, skip := baseElements, skipContainsCheck;
      next := {};
      var todo := baseElements;
      while todo != {}
        invariant todo <= base
        invariant BestIsGood(unspent) && currentBest <= old(currentBest)
        invariant Candidates(unspent, next, old(currentBest))
        invariant RowsTried(q, base - todo, round, skip, next, currentBest)
        decreases todo
      {
        var t1 :| t1 in todo;
        assert base - (todo - {t1}) == base - todo + {t1};
        next := CombineWithRound(t1, round, skipContainsCheck, base - todo, next, old(currentBest), unspent);
        todo := todo - {t1};
      }
      assert base - todo == base;
    }

    /** The inner loop: one base element against the whole round. */
    method CombineWithRound(t1: Tuple, round: set<Tuple>, skipContainsCheck: bool, ghost rows: set<Tuple>,
                            nextRound: set<Tuple>, ghost limit: int, ghost unspent: set<Transaction>)
      returns (next: set<Tuple>)
      requires Usable(unspent) && BestIsGood(unspent) && currentBest <= limit
      requires PartOf(unspent, t1) && forall c | c in round :: PartOf(unspent, c)
      requires Candidates(unspent, nextRound, limit)
      requires RowsTried(q, rows, round, skipContainsCheck, nextRound, currentBest)
      modifies this
      ensures BestIsGood(unspent) && currentBest <= old(currentBest)
      ensures Candidates(unspent, next, limit)
      ensures RowsTried(q, rows + {t1}, round, skipContainsCheck, next, currentBest)
    {
      next := nextRound;
      var todo := round;
      ghost var done: set<Tuple> := {};
      while todo != {}
        invariant todo <= round && done <= round && forall c | c in round :: c in todo || c in done
        invariant BestIsGood(unspent) && currentBest <= old(currentBest)
        invariant Candidates(unspent, next, limit)
        invariant nextRound <= next && RowTried(q, t1, done, skipContainsCheck, next, currentBest)
        decreases todo
      {
        var t2 :| t2 in todo;
        ghost var next0, best0 := next, currentBest;
        next := TryPair(t1, t2, skipContainsCheck, next, limit, unspent);
        RowGrows(q, t1, done, t2, skipContainsCheck, next0, best0, next, currentBest);
        todo, done := todo - {t2}, done + {t2};
      }
      assert done == round;
      RowsStay(q, rows, round, skipContainsCheck, nextRound, old(currentBest), next, currentBest);
    }

    /** The body of the two loops. */
    method TryPair(t1: Tuple, t2: Tuple, skipContainsCheck: bool, nextRound: set<Tuple>,
                   ghost limit: int, ghost unspent: set<Transaction>)
      returns (next: set<Tuple>)
      requires Usable(unspent) && BestIsGood(unspent) && PartOf(unspent, t1) && PartOf(unspent, t2)
      requires currentBest <= limit && Candidates(unspent, nextRound, limit)
      modifies this
      ensures BestIsGood(unspent) && currentBest <= old(currentBest)
      ensures nextRound <= next && Tried(q, t1, t2, skipContainsCheck, next, currentBest)
      ensures Candidates(unspent, next, limit)
    {
      next := nextRound;
      if !skipContainsCheck && t1.transactions <= t2.transactions {
        return;
      }
      var r3 := t1.chains + t2.chains;
      var required := |r3|;
      if required >= currentBest {
        return;
      }
      var tuple := new TransactionTuple.Union(q, t1, t2, r3);
      var t3 := tuple.Value();
      ChainsUnion(q, t1.transactions, t2.transactions);
      if t3.amount >= q.target {
        currentBest, currentBestTuple := required, Some(t3);
      } else {
        next := next + {t3};
      }
    }

    /** Step 2: keep the groups that can still be part of something better. */
    method SingleGroups(all: set<Tuple>, ghost unspent: set<Transaction>) returns (candidates: set<Tuple>)
      requires Usable(unspent) && BestIsGood(unspent) && currentBest == INT_MAX
      requires all == q.GroupsOf(unspent)
      modifies this
      ensures BestIsGood(unspent)
      ensures Groups(q, all) && FirstRoundDone(q, all, candidates, currentBest)
      ensures Candidates(unspent, candidates, currentBest)
      ensures Groups(q, candidates) && Explored(q, candidates, candidates, 1, currentBest)
    {
      GroupsAreGroups(q, unspent);
      assert forall c | c in all :: PartOf(unspent, c);
      candidates := FirstRound(all, unspent);
      ghost var kept := candidates;
      candidates := Cleanup(candidates, INT_MAX);
      assert forall c | c in kept && c !in candidates :: |c.chains| >= currentBest;
      forall c | c in candidates
        ensures |c.chains| < currentBest
      {
        assert PartOf(unspent, c);
        CostBound(q, c.transactions);
      }
      FirstRoundExplores(q, all, candidates, currentBest);
    }

    /** The best sources for the target, whatever the iteration orders. */
    method BestSources(unspent: set<Transaction>) returns (answer: Option<Tuple>)
      requires Usable(unspent)
      requires currentBest == INT_MAX && currentBestTuple == None
      modifies this
      ensures OptimalOverGroups(q, unspent, answer)
      ensures Fits(q, unspent) ==> Optimal(q, unspent, answer)
    {
      var all := GroupUnspent(unspent);
      var candidates := SingleGroups(all, unspent);
      ghost var firstBest := currentBest;
      if |candidates| <= 1 {
        OneLeftIsEnough(q, candidates, candidates, 1, currentBest);
      } else {
        ImproveInRounds(candidates, unspent);
      }
      answer := currentBestTuple;
      Conclude(unspent, all, candidates, firstBest);
    }

    /** Step 3: as many rounds as can still help. */
    method ImproveInRounds(candidates: set<Tuple>, ghost unspent: set<Transaction>)
      requires Usable(unspent) && BestIsGood(unspent) && |candidates| > 1 && Groups(q, candidates)
      requires Candidates(unspent, candidates, currentBest)
      requires Explored(q, candidates, candidates, 1, currentBest)
      modifies this
      ensures BestIsGood(unspent) && currentBest <= old(currentBest)
      ensures NothingBeats(q, candidates, currentBest)
    {
      var roundCount := |candidates| - 1;
      var previousBest := currentBest;
      var currentRound := candidates;
      for i := 0 to roundCount
        invariant BestIsGood(unspent) && currentBest == previousBest <= old(currentBest)
        invariant forall c | c in currentRound :: PartOf(unspent, c) && |c.chains| < currentBest
        invariant Explored(q, candidates, currentRound, i + 1, currentBest)
      {
        ghost var base, skip;
        var nextRound;
        nextRound, base, skip := DoOneRound(candidates, currentRound, unspent);
        RoundExplores(q, candidates, base, skip, currentRound, nextRound, i + 1, previousBest, currentBest);
        if |nextRound| <= 1 {
          OneLeftIsEnough(q, candidates, nextRound, i + 2, currentBest);
          return;
        }
        currentRound := Cleanup(nextRound, previousBest);
        CleanupKeeps(q, candidates, nextRound, currentRound, i + 2, currentBest);
        previousBest := currentBest;
      }
      AllRoundsDone(q, candidates, currentRound, currentBest);
    }

    /** Creates the transaction and settles the books of the sender.  `block` is
        the number of the new block it is going to be put in. */
    method CreateTransaction(store: LocalStore, block: nat) returns (r: Result)
      requires store.Valid() && store.own == q.own && Usable(store.unspent)
      requires currentBest == INT_MAX && currentBestTuple == None && q.target >= 0
      modifies this, store
      ensures store.Valid()
      ensures r.NotEnoughMoney? ==> unchanged(store)
      ensures r.Created? ==>
                var t := r.transaction;
                && t.sender == Some(q.own) && t.receiver == q.receiver && t.amount == q.target && t.block == block
                && t.number == old(store.transactionId) < store.transactionId
                && t.source != {} && t.source <= old(store.unspent)
                && store.unspent == old(store.unspent) - t.source
                                    + (if t.remainder > 0 || q.receiver == q.own then {t} else {})
                && store.availableMoney == old(store.availableMoney) - q.Worth(t.source) + Contribution(q.own, t)
      ensures r.Created? && Fits(q, old(store.unspent)) ==>
                var t := r.transaction;
                && q.Worth(t.source) == t.amount + t.remainder
                && forall ts | CoveringSubset(q, old(store.unspent), ts) :: q.Cost(t.source) <= q.Cost(ts)
      ensures Fits(q, old(store.unspent)) ==>
                (r.NotEnoughMoney? <==> old(store.availableMoney) < q.target || old(store.unspent) == {})
    {
      if store.availableMoney < q.target {
        return NotEnoughMoney;
      }
      ghost var allCovers := CoveringSubset(q, store.unspent, store.unspent);
      var sources := BestSources(store.unspent);
      if sources == None {
        return NotEnoughMoney;
      }
      var sourceSet := sources.value.transactions;
      var remainder := sources.value.amount - q.target;
      assert store.unspent * sourceSet == sourceSet;
      store.RemoveUnspentTransactions(sourceSet);
      var number := store.GetNewTransactionId();
      var t := Transaction(number, Some(q.own), q.receiver, q.target, remainder, block, sourceSet);
      if remainder > 0 || q.receiver == q.own {
        store.AddUnspentTransaction(t);
      }
      return Created(t);
    }

    /** When nothing among the candidates beats the best, the best is the answer. */
    lemma Conclude(unspent: set<Transaction>, all: set<Tuple>, candidates: set<Tuple>, firstBest: int)
      requires Usable(unspent) && BestIsGood(unspent) && currentBest <= firstBest
      requires all == q.GroupsOf(unspent) && Groups(q, all)
      requires FirstRoundDone(q, all, candidates, firstBest)
      requires NothingBeats(q, candidates, currentBest)
      ensures OptimalOverGroups(q, unspent, currentBestTuple)
      ensures Fits(q, unspent) ==> Optimal(q, unspent, currentBestTuple)
    {
      forall x
        ensures !Beats(q, all, x, currentBest)
      {
        if Beats(q, all, x, currentBest) {
          assert Beats(q, all, x, firstBest);
          BeatersSurvive(q, all, candidates, firstBest, x);
          assert Beats(q, candidates, x, currentBest);
        }
      }
      if currentBestTuple == None {
        forall x
          ensures !Beats(q, all, x, |q.nodes|)
        {
          assert !Beats(q, all, x, currentBest);
        }
      }
      if Fits(q, unspent) {
        GroupsSuffice(q, unspent, currentBestTuple);
      }
    }
  }
}
