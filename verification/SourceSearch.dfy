/** What the rounds of source selection keep, stated over sets of tuples.

    A tuple stands for a set of unspent transactions, with the money they are
    worth and the chains they require.  The search starts from groups (all unspent
    transactions with the same required chains) and only ever looks at unions of
    groups.  The lemmas here show that pruning, the change of iteration base and
    the early exits never hide a union that beats the best tuple so far. */
module SourceSearch {
  import opened Ledger
  import opened ChainReach

  datatype Tuple = Tuple(transactions: set<Transaction>, amount: int, chains: set<NodeId>)

  /** The fixed parameters of one search. */
  datatype Query = Query(own: NodeId, receiver: NodeId, known: Knowledge, nodes: set<NodeId>, target: int) {

    ghost function Chains(t: Transaction): set<NodeId> {
      Reach(t, receiver, known)
    }

    ghost function ChainsOf(ts: set<Transaction>): set<NodeId> {
      ReachAll(ts, receiver, known)
    }

    ghost function Cost(ts: set<Transaction>): nat {
      |ChainsOf(ts)|
    }

    /** The money of a set of transactions. */
    ghost function Worth(ts: set<Transaction>): nat {
      Sum(ts, ContributionOf(own))
    }

    /** The same, as the `int` field of a tuple can hold it. */
    ghost function Amount(ts: set<Transaction>): int {
      WrapInt(Worth(ts))
    }

    ghost function TupleOf(ts: set<Transaction>): Tuple {
      Tuple(ts, Amount(ts), ChainsOf(ts))
    }

    predicate Covers(c: Tuple) {
      c.amount >= target
    }

    /** All members of `ts` that require exactly `chains`. */
    ghost function Group(ts: set<Transaction>, chains: set<NodeId>): set<Transaction> {
      set t | t in ts && Chains(t) == chains
    }

    ghost function GroupsOf(ts: set<Transaction>): set<Tuple> {
      set t | t in ts :: TupleOf(Group(ts, Chains(t)))
    }
  }

  ghost predicate IsTuple(q: Query, c: Tuple) {
    c == q.TupleOf(c.transactions)
  }

  ghost function Join(x: set<Tuple>): set<Transaction> {
    set c, t | c in x && t in c.transactions :: t
  }

  ghost predicate Groups(q: Query, g: set<Tuple>) {
    && (forall c | c in g :: IsTuple(q, c) && c.transactions != {})
    && (forall c, d | c in g && d in g && c != d :: c.transactions !! d.transactions)
  }

  /** A set of groups that covers the amount at a cost below `best`. */
  ghost predicate Beats(q: Query, g: set<Tuple>, x: set<Tuple>, best: int) {
    && x <= g && x != {}
    && q.Covers(q.TupleOf(Join(x)))
    && q.Cost(Join(x)) < best
  }

  ghost predicate NothingBeats(q: Query, g: set<Tuple>, best: int) {
    forall x :: !Beats(q, g, x, best)
  }

  /** The round invariant: whatever still beats the best has more than `k` groups,
      and the union of any `k` of them is among the tuples of this round. */
  ghost predicate Explored(q: Query, g: set<Tuple>, round: set<Tuple>, k: nat, best: int) {
    forall x | Beats(q, g, x, best) ::
      && |x| > k
      && forall y | y <= x && |y| == k :: q.TupleOf(Join(y)) in round
  }

  /** What a round has done with the pair (t1, t2). */
  ghost predicate Tried(q: Query, t1: Tuple, t2: Tuple, skip: bool, next: set<Tuple>, best: int) {
    || (!skip && t1.transactions <= t2.transactions)
    || |t1.chains + t2.chains| >= best
    || q.TupleOf(t1.transactions + t2.transactions) in next
  }

  ghost predicate RowTried(q: Query, t1: Tuple, round: set<Tuple>, skip: bool, next: set<Tuple>, best: int) {
    forall t2 | t2 in round :: Tried(q, t1, t2, skip, next, best)
  }

  ghost predicate RowsTried(q: Query, rows: set<Tuple>, round: set<Tuple>, skip: bool, next: set<Tuple>, best: int) {
    forall t1 | t1 in rows :: RowTried(q, t1, round, skip, next, best)
  }

  /** What has been tried stays tried while the round fills up and the best improves. */
  lemma RowsStay(q: Query, rows: set<Tuple>, round: set<Tuple>, skip: bool,
                 next0: set<Tuple>, best0: int, next: set<Tuple>, best: int)
    requires RowsTried(q, rows, round, skip, next0, best0) && next0 <= next && best <= best0
    ensures RowsTried(q, rows, round, skip, next, best)
  {
    forall t1, t2 | t1 in rows && t2 in round
      ensures Tried(q, t1, t2, skip, next, best)
    {
      assert RowTried(q, t1, round, skip, next0, best0);
      assert Tried(q, t1, t2, skip, next0, best0);
    }
  }

  lemma RowGrows(q: Query, t1: Tuple, row: set<Tuple>, t2: Tuple, skip: bool,
                 next0: set<Tuple>, best0: int, next: set<Tuple>, best: int)
    requires RowTried(q, t1, row, skip, next0, best0) && next0 <= next && best <= best0
    requires Tried(q, t1, t2, skip, next, best)
    ensures RowTried(q, t1, row + {t2}, skip, next, best)
  {
    forall u | u in row
      ensures Tried(q, t1, u, skip, next, best)
    {
      assert Tried(q, t1, u, skip, next0, best0);
    }
  }

  // ---- facts about unions and costs ----

  lemma ChainsUnion(q: Query, a: set<Transaction>, b: set<Transaction>)
    ensures q.ChainsOf(a + b) == q.ChainsOf(a) + q.ChainsOf(b)
  {
  }

  lemma CostMonotone(q: Query, a: set<Transaction>, b: set<Transaction>)
    requires a <= b
    ensures q.Cost(a) <= q.Cost(b)
  {
    SubsetSize(q.ChainsOf(a), q.ChainsOf(b));
  }

  lemma CostBound(q: Query, ts: set<Transaction>)
    requires q.receiver in q.nodes
    requires forall t | t in ts :: SendersIn(t, q.nodes)
    ensures q.Cost(ts) < |q.nodes|
  {
    forall t | t in ts {
      ReachBound(t, q.receiver, q.known, q.nodes);
    }
    assert q.ChainsOf(ts) <= q.nodes - {q.receiver};
    SubsetSize(q.ChainsOf(ts), q.nodes - {q.receiver});
  }

  lemma JoinUnion(x: set<Tuple>, y: set<Tuple>)
    ensures Join(x + y) == Join(x) + Join(y)
  {
  }

  lemma JoinSingle(c: Tuple)
    ensures Join({c}) == c.transactions
  {
  }

  /** Leaving out one group gives a different set of transactions. */
  lemma JoinWithout(q: Query, g: set<Tuple>, x: set<Tuple>, c: Tuple)
    requires Groups(q, g) && x <= g && c in x
    ensures c.transactions !! Join(x - {c})
    ensures c.transactions + Join(x - {c}) == Join(x)
    ensures !(c.transactions <= Join(x - {c}))
  {
    JoinUnion({c}, x - {c});
    JoinSingle(c);
    assert {c} + (x - {c}) == x;
    var t :| t in c.transactions;
  }

  // ---- one round ----

  /** A union of k+1 groups out of a set that still beats the best is in the next
      round: found as one group joined to k others when iterating over the groups, */
  lemma NextHoldsOverGroups(q: Query, g: set<Tuple>, round: set<Tuple>, next: set<Tuple>,
                            k: nat, best: int, x: set<Tuple>, y: set<Tuple>)
    requires Groups(q, g)
    requires RowsTried(q, g, round, false, next, best)
    requires x <= g && q.Cost(Join(x)) < best && y <= x && |y| == k + 1
    requires forall z | z <= x && |z| == k :: q.TupleOf(Join(z)) in round
    ensures q.TupleOf(Join(y)) in next
  {
    var a :| a in y;
    var rest := q.TupleOf(Join(y - {a}));
    assert rest in round;
    JoinWithout(q, g, y, a);
    CostBelow(q, x, y);
    ChainsUnion(q, a.transactions, rest.transactions);
    assert RowTried(q, a, round, false, next, best);
    assert Tried(q, a, rest, false, next, best);
  }

  /** or as two different unions of k of them when iterating over the round itself. */
  lemma NextHoldsOverRound(q: Query, g: set<Tuple>, round: set<Tuple>, next: set<Tuple>,
                           k: nat, best: int, x: set<Tuple>, y: set<Tuple>)
    requires k >= 1
    requires RowsTried(q, round, round, true, next, best)
    requires x <= g && q.Cost(Join(x)) < best && y <= x && |y| == k + 1
    requires forall z | z <= x && |z| == k :: q.TupleOf(Join(z)) in round
    ensures q.TupleOf(Join(y)) in next
  {
    var a, b := TwoOf(y);
    var u, v := y - {a}, y - {b};
    var tu, tv := q.TupleOf(Join(u)), q.TupleOf(Join(v));
    assert tu in round && tv in round;
    assert u + v == y;
    JoinUnion(u, v);
    CostBelow(q, x, y);
    ChainsUnion(q, Join(u), Join(v));
    assert RowTried(q, tu, round, true, next, best);
    assert Tried(q, tu, tv, true, next, best);
  }

  lemma TwoOf<T>(s: set<T>) returns (a: T, b: T)
    requires |s| >= 2
    ensures a in s && b in s && a != b
  {
    a :| a in s;
    assert |s - {a}| == |s| - 1;
    b :| b in s - {a};
  }

  lemma CostBelow(q: Query, x: set<Tuple>, y: set<Tuple>)
    requires y <= x
    ensures q.Cost(Join(y)) <= q.Cost(Join(x))
  {
    CostMonotone(q, Join(y), Join(x));
  }

  /** One round carries the invariant from unions of k groups to unions of k+1,
      whichever of the two collections it iterates over. */
  lemma RoundExplores(q: Query, g: set<Tuple>, base: set<Tuple>, skip: bool, round: set<Tuple>, next: set<Tuple>,
                      k: nat, before: int, best: int)
    requires Groups(q, g) && k >= 1 && best <= before
    requires Explored(q, g, round, k, before)
    requires if skip then base == round else base == g
    requires RowsTried(q, base, round, skip, next, best)
    requires forall t | t in next :: !q.Covers(t)
    ensures Explored(q, g, next, k + 1, best)
  {
    forall x | Beats(q, g, x, best)
      ensures |x| > k + 1
      ensures forall y | y <= x && |y| == k + 1 :: q.TupleOf(Join(y)) in next
    {
      assert Beats(q, g, x, before);
      forall y | y <= x && |y| == k + 1
        ensures q.TupleOf(Join(y)) in next
      {
        if skip {
          NextHoldsOverRound(q, g, round, next, k, best, x, y);
        } else {
          NextHoldsOverGroups(q, g, round, next, k, best, x, y);
        }
      }
    }
  }

  /** Dropping tuples that are no cheaper than the best keeps the invariant. */
  lemma CleanupKeeps(q: Query, g: set<Tuple>, round: set<Tuple>, kept: set<Tuple>, k: nat, best: int)
    requires Explored(q, g, round, k, best)
    requires forall c | c in round && |c.chains| < best :: c in kept
    ensures Explored(q, g, kept, k, best)
  {
    forall x, y | Beats(q, g, x, best) && y <= x && |y| == k
      ensures q.TupleOf(Join(y)) in kept
    {
      assert q.TupleOf(Join(y)) in round;
      CostBelow(q, x, y);
    }
  }

  /** As long as something beats the best, the round holds two different tuples. */
  lemma TwoInRound(q: Query, g: set<Tuple>, round: set<Tuple>, k: nat, best: int, x: set<Tuple>)
    requires Groups(q, g) && Explored(q, g, round, k, best) && k >= 1
    requires Beats(q, g, x, best)
    ensures |round| >= 2
  {
    var z := SubsetOfSize(x, k + 1);
    var a, b := TwoOf(z);
    JoinsDiffer(q, g, z, a, b);
    InRound(q, g, round, k, best, x, z, a);
    InRound(q, g, round, k, best, x, z, b);
    TwoMembers(round, q.TupleOf(Join(z - {a})), q.TupleOf(Join(z - {b})));
  }

  lemma InRound(q: Query, g: set<Tuple>, round: set<Tuple>, k: nat, best: int,
                x: set<Tuple>, z: set<Tuple>, a: Tuple)
    requires Explored(q, g, round, k, best) && Beats(q, g, x, best)
    requires z <= x && |z| == k + 1 && a in z
    ensures q.TupleOf(Join(z - {a})) in round
  {
    assert |z - {a}| == k;
  }

  lemma TwoMembers<T>(s: set<T>, a: T, b: T)
    requires a in s && b in s && a != b
    ensures |s| >= 2
  {
    SubsetSize({a, b}, s);
  }

  /** The early exit: with at most one tuple left, nothing can beat the best. */
  lemma OneLeftIsEnough(q: Query, g: set<Tuple>, round: set<Tuple>, k: nat, best: int)
    requires Groups(q, g) && Explored(q, g, round, k, best) && k >= 1 && |round| <= 1
    ensures NothingBeats(q, g, best)
  {
    forall x
      ensures !Beats(q, g, x, best)
    {
      if Beats(q, g, x, best) {
        TwoInRound(q, g, round, k, best, x);
      }
    }
  }

  lemma JoinsDiffer(q: Query, g: set<Tuple>, z: set<Tuple>, a: Tuple, b: Tuple)
    requires Groups(q, g) && z <= g && a in z && b in z && a != b
    ensures Join(z - {a}) != Join(z - {b})
  {
    JoinWithout(q, g, z, a);
    assert a in z - {b};
    assert a.transactions <= Join(z - {b});
  }

  /** After as many rounds as there are other groups, nothing is left to try. */
  lemma AllRoundsDone(q: Query, g: set<Tuple>, round: set<Tuple>, best: int)
    requires Explored(q, g, round, |g|, best)
    ensures NothingBeats(q, g, best)
  {
    forall x
      ensures !Beats(q, g, x, best)
    {
      if Beats(q, g, x, best) {
        SubsetSize(x, g);
      }
    }
  }

  // ---- the first round ----

  /** What the first round leaves of the groups: everything it removed costs at
      least the best, and nothing it kept covers the amount alone. */
  ghost predicate FirstRoundDone(q: Query, all: set<Tuple>, kept: set<Tuple>, best: int) {
    && kept <= all
    && (forall c | c in all && c !in kept :: |c.chains| >= best)
    && (forall c | c in kept :: !q.Covers(c))
  }

  lemma BeatersSurvive(q: Query, all: set<Tuple>, kept: set<Tuple>, best: int, x: set<Tuple>)
    requires Groups(q, all) && FirstRoundDone(q, all, kept, best)
    requires Beats(q, all, x, best)
    ensures Beats(q, kept, x, best)
  {
    forall c | c in x
      ensures c in kept
    {
      JoinSingle(c);
      CostBelow(q, x, {c});
    }
  }

  lemma FirstRoundExplores(q: Query, all: set<Tuple>, kept: set<Tuple>, best: int)
    requires Groups(q, all) && FirstRoundDone(q, all, kept, best)
    ensures Explored(q, kept, kept, 1, best)
  {
    forall x | Beats(q, kept, x, best)
      ensures |x| > 1
      ensures forall y | y <= x && |y| == 1 :: q.TupleOf(Join(y)) in kept
    {
      forall y | y <= x && |y| == 1
        ensures q.TupleOf(Join(y)) in kept
      {
        Singleton(q, y);
      }
      if |x| == 1 {
        Singleton(q, x);
        assert false;
      }
    }
  }

  lemma Singleton(q: Query, y: set<Tuple>)
    requires |y| == 1 && forall c | c in y :: IsTuple(q, c)
    ensures q.TupleOf(Join(y)) in y
  {
    var c :| c in y;
    SubsetSize({c}, y);
    JoinSingle(c);
  }

  // ---- from groups to arbitrary sets of transactions ----

  lemma GroupsAreGroups(q: Query, ts: set<Transaction>)
    ensures Groups(q, q.GroupsOf(ts))
  {
    var g := q.GroupsOf(ts);
    forall c | c in g
      ensures IsTuple(q, c) && c.transactions != {}
    {
      var t :| t in ts && c == q.TupleOf(q.Group(ts, q.Chains(t)));
      assert t in c.transactions;
    }
  }

  /** The candidate map: one tuple for each set of required chains. */
  ghost function GroupMap(q: Query, ts: set<Transaction>): map<set<NodeId>, Tuple> {
    map k | k in Keys(q, ts) :: q.TupleOf(q.Group(ts, k))
  }

  ghost function Keys(q: Query, ts: set<Transaction>): set<set<NodeId>> {
    set t | t in ts :: q.Chains(t)
  }

  lemma GroupMapValues(q: Query, ts: set<Transaction>)
    ensures GroupMap(q, ts).Values == q.GroupsOf(ts)
  {
    forall c | c in q.GroupsOf(ts)
      ensures c in GroupMap(q, ts).Values
    {
      var t :| t in ts && c == q.TupleOf(q.Group(ts, q.Chains(t)));
      assert q.Chains(t) in GroupMap(q, ts);
    }
  }

  /** One more transaction changes the group of its own chains and no other. */
  lemma GroupMapAdd(q: Query, done: set<Transaction>, t: Transaction)
    ensures var m, k := GroupMap(q, done), q.Chains(t);
            GroupMap(q, done + {t}) == m[k := q.TupleOf(if k in m then {t} + m[k].transactions else {t})]
  {
    var m, k := GroupMap(q, done), q.Chains(t);
    GroupAdd(q, done, t);
    assert Keys(q, done + {t}) == Keys(q, done) + {k};
    var after, expected := GroupMap(q, done + {t}), m[k := q.TupleOf(if k in m then {t} + m[k].transactions else {t})];
    assert after.Keys == expected.Keys;
    forall j | j in after
      ensures after[j] == expected[j]
    {
      if j == k {
        assert q.Group(done + {t}, k) == if k in m then {t} + m[k].transactions else {t};
      }
    }
  }

  /** What merging a transaction into its group relies on. */
  lemma GroupMapEntry(q: Query, done: set<Transaction>, t: Transaction)
    requires t !in done
    ensures q.ChainsOf({t}) == q.Chains(t)
    ensures var m, k := GroupMap(q, done), q.Chains(t);
            k in m ==> IsTuple(q, m[k]) && m[k].chains == k && t !in m[k].transactions
  {
    ReachAllPick({t}, t, q.receiver, q.known);
    if q.Chains(t) in GroupMap(q, done) {
      GroupChains(q, done, q.Chains(t));
    }
  }

  lemma GroupAdd(q: Query, done: set<Transaction>, t: Transaction)
    ensures q.Group(done + {t}, q.Chains(t)) == {t} + q.Group(done, q.Chains(t))
    ensures forall j | j != q.Chains(t) :: q.Group(done + {t}, j) == q.Group(done, j)
    ensures q.Chains(t) !in GroupMap(q, done) ==> {t} + q.Group(done, q.Chains(t)) == {t}
  {
  }

  lemma GroupChains(q: Query, ts: set<Transaction>, chains: set<NodeId>)
    requires chains in GroupMap(q, ts)
    ensures q.ChainsOf(q.Group(ts, chains)) == chains
  {
    var u :| u in ts && q.Chains(u) == chains;
    assert u in q.Group(ts, chains);
  }

  /** The groups that a set of transactions touches. */
  ghost function Touched(q: Query, all: set<Transaction>, ts: set<Transaction>): set<Tuple>
    requires ts <= all
  {
    set t | t in ts :: q.TupleOf(q.Group(all, q.Chains(t)))
  }

  /** Taking whole groups costs no extra chain. */
  lemma TouchedSameCost(q: Query, all: set<Transaction>, ts: set<Transaction>)
    requires ts <= all
    ensures Touched(q, all, ts) <= q.GroupsOf(all)
    ensures ts <= Join(Touched(q, all, ts)) <= all
    ensures q.Cost(Join(Touched(q, all, ts))) == q.Cost(ts)
  {
    var x := Touched(q, all, ts);
    forall t | t in ts
      ensures t in Join(x)
    {
      var c := q.TupleOf(q.Group(all, q.Chains(t)));
      assert c in x && t in c.transactions;
    }
    forall u | u in Join(x)
      ensures u in all && exists t :: t in ts && q.Chains(t) == q.Chains(u)
    {
      var c :| c in x && u in c.transactions;
      var t :| t in ts && c == q.TupleOf(q.Group(all, q.Chains(t)));
    }
    assert q.ChainsOf(Join(x)) == q.ChainsOf(ts);
  }

  // ---- what the search promises ----

  /** The money of all of `ts` fits in the `int` field of a tuple. */
  ghost predicate Fits(q: Query, ts: set<Transaction>) {
    q.Worth(ts) <= INT_MAX
  }

  lemma WorthMonotone(q: Query, a: set<Transaction>, b: set<Transaction>)
    requires a <= b
    ensures q.Worth(a) <= q.Worth(b)
  {
    SumSplit(b, a, ContributionOf(q.own));
  }

  /** Tuple amounts are exact on every set of unspent transactions precisely when
      the whole balance fits in an `int`. */
  lemma AmountsExactIffFits(q: Query, all: set<Transaction>)
    ensures (forall ts | ts <= all :: q.Amount(ts) == q.Worth(ts)) <==> Fits(q, all)
  {
    forall ts | ts <= all
      ensures Fits(q, all) ==> q.Amount(ts) == q.Worth(ts)
    {
      WorthMonotone(q, ts, all);
    }
    if forall ts | ts <= all :: q.Amount(ts) == q.Worth(ts) {
      assert q.Amount(all) == q.Worth(all);
    }
  }

  /** A non-empty set of transactions whose money reaches the target. */
  ghost predicate CoveringSubset(q: Query, all: set<Transaction>, ts: set<Transaction>) {
    ts <= all && ts != {} && q.Worth(ts) >= q.target
  }

  /** The answer is right for `all`: it is None exactly when nothing covers the
      target, and otherwise covers it with as few chains as any subset could. */
  ghost predicate Optimal(q: Query, all: set<Transaction>, answer: Option<Tuple>) {
    match answer
    case None => forall ts :: !CoveringSubset(q, all, ts)
    case Some(c) =>
      && c.amount == q.Worth(c.transactions) && c.chains == q.ChainsOf(c.transactions)
      && CoveringSubset(q, all, c.transactions)
      && forall ts | CoveringSubset(q, all, ts) :: q.Cost(c.transactions) <= q.Cost(ts)
  }

  /** The same with tuple amounts and unions of groups, which holds even when amounts wrap around. */
  ghost predicate OptimalOverGroups(q: Query, all: set<Transaction>, answer: Option<Tuple>) {
    match answer
    case None => NothingBeats(q, q.GroupsOf(all), |q.nodes|)
    case Some(c) =>
      && IsTuple(q, c) && c.transactions <= all && c.transactions != {} && q.Covers(c)
      && NothingBeats(q, q.GroupsOf(all), |c.chains|)
  }

  /** Restricting the search to whole groups loses nothing: more money at the same cost. */
  lemma GroupsSuffice(q: Query, all: set<Transaction>, answer: Option<Tuple>)
    requires OptimalOverGroups(q, all, answer) && Fits(q, all)
    requires q.receiver in q.nodes && forall t | t in all :: SendersIn(t, q.nodes)
    ensures Optimal(q, all, answer)
  {
    AmountsExactIffFits(q, all);
    var best := if answer.Some? then |answer.value.chains| else |q.nodes|;
    forall ts | CoveringSubset(q, all, ts)
      ensures q.Cost(ts) >= best
    {
      TouchedSameCost(q, all, ts);
      var x := Touched(q, all, ts);
      WorthMonotone(q, ts, Join(x));
      assert q.Amount(Join(x)) == q.Worth(Join(x));
      var t :| t in ts;
      assert q.TupleOf(q.Group(all, q.Chains(t))) in x;
      assert !Beats(q, q.GroupsOf(all), x, best);
    }
    forall ts | CoveringSubset(q, all, ts)
      ensures q.Cost(ts) < |q.nodes|
    {
      CostBound(q, ts);
    }
  }

  ghost function WithTarget(q: Query, target: int): Query {
    Query(q.own, q.receiver, q.known, q.nodes, target)
  }

  /** The search is right for every target exactly when the balance fits in an
      `int`.  Past that, asking for the whole balance is refused. */
  lemma OptimalForEveryTargetIffFits(q: Query, all: set<Transaction>)
    requires q.receiver in q.nodes && forall t | t in all :: SendersIn(t, q.nodes)
    ensures Fits(q, all) <==>
            forall target: int, answer | OptimalOverGroups(WithTarget(q, target), all, answer) ::
              Optimal(WithTarget(q, target), all, answer)
  {
    if Fits(q, all) {
      forall target: int, answer | OptimalOverGroups(WithTarget(q, target), all, answer)
        ensures Optimal(WithTarget(q, target), all, answer)
      {
        GroupsSuffice(WithTarget(q, target), all, answer);
      }
    } else {
      var p := WithTarget(q, q.Worth(all));
      assert OptimalOverGroups(p, all, None);
      assert CoveringSubset(p, all, all);
    }
  }

  /** A genesis transaction of 2^31 is worth -2^31 to a tuple: a search for 10 finds nothing. */
  lemma WrapAroundLosesMoney(answer: Option<Tuple>)
    ensures var t := Transaction(0, None, 0, 0x8000_0000, 0, 0, {});
            var q := Query(0, 2, map[], {0, 1, 2}, 10);
            OptimalOverGroups(q, {t}, answer) ==> answer == None && CoveringSubset(q, {t}, {t})
  {
    var t := Transaction(0, None, 0, 0x8000_0000, 0, 0, {});
    var q := Query(0, 2, map[], {0, 1, 2}, 10);
    SumPick({t}, ContributionOf(0), t);
    assert {t} - {t} == {};
    forall ts | ts <= {t} && ts != {}
      ensures ts == {t}
    {
      var u :| u in ts;
    }
  }
}
