/** Money over whole runs: what all nodes have, and what is on its way, is what there
    was at genesis.  Messages may arrive late, twice, or at the wrong node, and any of
    them may be found invalid. */
module Money {
  import opened Ledger
  import opened LocalStores

  datatype Wallet = Wallet(books: Books, transactionId: nat, received: set<Transaction>)

  /** `created` and `credited` are the transactions ever made, and ever added to their receiver's money. */
  datatype Bank = Bank(wallets: map<NodeId, Wallet>, created: set<Transaction>, credited: set<Transaction>)

  datatype Step =
    | Pay(node: NodeId, receiver: NodeId, amount: nat, sources: set<Transaction>, block: nat)
    | Arrive(node: NodeId, transaction: Transaction, valid: bool)

  // ---- the steps ----

  /** The amount of a tuple is a 32-bit sum. */
  ghost function TupleAmount(n: NodeId, sources: set<Transaction>): int {
    WrapInt(Sum(sources, ContributionOf(n)))
  }

  ghost predicate Enabled(b: Bank, step: Step) {
    match step
    case Pay(n, receiver, amount, sources, _) =>
      && n in b.wallets && receiver in b.wallets && receiver != n
      && sources != {} && sources <= b.wallets[n].books.unspent && TupleAmount(n, sources) >= amount
      && b.wallets[n].books.availableMoney >= amount
    case Arrive(n, t, _) => n in b.wallets && t in b.created
  }

  ghost function Made(b: Bank, n: NodeId, receiver: NodeId, amount: nat, sources: set<Transaction>, block: nat): Transaction
    requires n in b.wallets && TupleAmount(n, sources) >= amount
  {
    Transaction(b.wallets[n].transactionId, Some(n), receiver, amount, TupleAmount(n, sources) - amount, block, sources)
  }

  /** `TransactionCreator.createTransaction` for a receiver other than the sender. */
  ghost function Paid(n: NodeId, w: Wallet, t: Transaction): Wallet {
    var spent := Removed(n, w.books, t.source);
    Wallet(if t.remainder > 0 then Added(n, spent, t) else spent, w.transactionId + 1, w.received)
  }

  /** `CommunicationHelper.receiveTransaction`: the first arrival decides. */
  function Arrived(n: NodeId, w: Wallet, t: Transaction, valid: bool): Wallet {
    if t.receiver != n || t in w.received then w
    else
      Wallet(if valid && t.amount > 0 then Added(n, w.books, t) else w.books, w.transactionId, w.received + {t})
  }

  predicate Credits(b: Bank, n: NodeId, t: Transaction, valid: bool)
    requires n in b.wallets
  {
    t.receiver == n && t !in b.wallets[n].received && valid
  }

  ghost function After(b: Bank, step: Step): Bank
    requires Enabled(b, step)
  {
    match step
    case Pay(n, receiver, amount, sources, block) =>
      var t := Made(b, n, receiver, amount, sources, block);
      Bank(b.wallets[n := Paid(n, b.wallets[n], t)], b.created + {t}, b.credited)
    case Arrive(n, t, valid) =>
      Bank(b.wallets[n := Arrived(n, b.wallets[n], t, valid)], b.created,
           b.credited + if Credits(b, n, t, valid) then {t} else {})
  }

  // ---- totals ----

  function MoneyIn(wallets: map<NodeId, Wallet>): NodeId -> nat {
    n => if n in wallets && wallets[n].books.availableMoney > 0 then wallets[n].books.availableMoney else 0
  }

  function AmountOf(): Transaction -> nat { (t: Transaction) => t.amount }

  ghost function Held(b: Bank): nat {
    Sum(b.wallets.Keys, MoneyIn(b.wallets))
  }

  ghost function Underway(b: Bank): nat {
    Sum(b.created - b.credited, AmountOf())
  }

  lemma HeldChanges(wallets: map<NodeId, Wallet>, n: NodeId, w: Wallet)
    requires n in wallets && wallets[n].books.availableMoney >= 0 && w.books.availableMoney >= 0
    ensures Sum(wallets[n := w].Keys, MoneyIn(wallets[n := w])) - w.books.availableMoney
            == Sum(wallets.Keys, MoneyIn(wallets)) - wallets[n].books.availableMoney
  {
    var after := wallets[n := w];
    assert after.Keys == wallets.Keys;
    SumPick(wallets.Keys, MoneyIn(wallets), n);
    SumPick(wallets.Keys, MoneyIn(after), n);
    SumEqual(wallets.Keys - {n}, MoneyIn(wallets), MoneyIn(after));
  }

  // ---- what every run keeps ----

  /** The balance is the worth of the unspent set, which holds our genesis transaction,
      what we made, and what was credited to us. */
  ghost predicate BooksOk(b: Bank, n: NodeId)
    requires n in b.wallets
  {
    var w := b.wallets[n];
    && Balanced(n, w.books)
    && forall t | t in w.books.unspent ::
         if t.sender.None? then t.receiver == n
         else t in b.created && (t.sender == Some(n) || (t.receiver == n && t in w.received))
  }

  /** Numbers are given out once, so two transactions of one sender are told apart by them. */
  ghost predicate CreatedOk(b: Bank) {
    && (forall t | t in b.created ::
          && t.sender.Some? && t.sender.value in b.wallets && t.receiver in b.wallets && t.receiver != t.sender.value
          && t.number < b.wallets[t.sender.value].transactionId)
    && (forall t, u | t in b.created && u in b.created && t.sender == u.sender && t.number == u.number :: t == u)
    && b.credited <= b.created
    && forall t | t in b.credited :: t in b.wallets[t.receiver].received
  }

  ghost predicate Inv(b: Bank) {
    (forall n | n in b.wallets :: BooksOk(b, n)) && CreatedOk(b)
  }

  lemma AddedBalances(n: NodeId, b: Books, t: Transaction)
    requires Balanced(n, b) && t !in b.unspent
    ensures Balanced(n, Added(n, b, t))
  {
    SumAdd(b.unspent, ContributionOf(n), t);
  }

  lemma {:induction false} RemovedBalances(n: NodeId, b: Books, ts: set<Transaction>)
    requires Balanced(n, b) && ts <= b.unspent
    ensures Balanced(n, Removed(n, b, ts))
    ensures Removed(n, b, ts).availableMoney == b.availableMoney - Sum(ts, ContributionOf(n))
  {
    SumSplit(b.unspent, ts, ContributionOf(n));
    assert b.unspent * ts == ts;
  }

  lemma PaidBalances(n: NodeId, w: Wallet, t: Transaction)
    requires Balanced(n, w.books) && t.source <= w.books.unspent && t !in w.books.unspent
    requires t.sender == Some(n) && t.receiver != n
    ensures var p := Paid(n, w, t);
            && Balanced(n, p.books)
            && p.books.availableMoney == w.books.availableMoney - Sum(t.source, ContributionOf(n)) + t.remainder
            && p.books.unspent == w.books.unspent - t.source + if t.remainder > 0 then {t} else {}
  {
    RemovedBalances(n, w.books, t.source);
    if t.remainder > 0 {
      AddedBalances(n, Removed(n, w.books, t.source), t);
    }
  }

  /** A new transaction has a new number. */
  lemma MadeIsNew(b: Bank, n: NodeId, t: Transaction)
    requires CreatedOk(b) && n in b.wallets && BooksOk(b, n)
    requires t.sender == Some(n) && t.number == b.wallets[n].transactionId
    ensures t !in b.created && t !in b.credited && t !in b.wallets[n].books.unspent
  {
  }

  lemma PayKeepsCreated(b: Bank, n: NodeId, t: Transaction)
    requires CreatedOk(b) && n in b.wallets && t.receiver in b.wallets && t.receiver != n
    requires t.sender == Some(n) && t.number == b.wallets[n].transactionId
    ensures CreatedOk(Bank(b.wallets[n := Paid(n, b.wallets[n], t)], b.created + {t}, b.credited))
  {
    var a := Bank(b.wallets[n := Paid(n, b.wallets[n], t)], b.created + {t}, b.credited);
    forall x, y | x in a.created && y in a.created && x.sender == y.sender && x.number == y.number
      ensures x == y
    {
    }
  }

  lemma PayKeeps(b: Bank, n: NodeId, receiver: NodeId, amount: nat, sources: set<Transaction>, block: nat)
    requires Inv(b) && Enabled(b, Pay(n, receiver, amount, sources, block))
    ensures Inv(After(b, Pay(n, receiver, amount, sources, block)))
    ensures var t := Made(b, n, receiver, amount, sources, block);
            t !in b.created && t !in b.credited && t !in b.wallets[n].books.unspent
  {
    var t, a := Made(b, n, receiver, amount, sources, block), After(b, Pay(n, receiver, amount, sources, block));
    assert BooksOk(b, n);
    MadeIsNew(b, n, t);
    PaidBalances(n, b.wallets[n], t);
    PayKeepsCreated(b, n, t);
    forall m | m in a.wallets
      ensures BooksOk(a, m)
    {
      assert BooksOk(b, m);
      if m != n {
        BooksStay(b, a, m);
      }
    }
  }

  lemma BooksStay(b: Bank, a: Bank, m: NodeId)
    requires m in b.wallets && BooksOk(b, m) && m in a.wallets && a.wallets[m] == b.wallets[m]
    requires b.created <= a.created && b.credited <= a.credited
    ensures BooksOk(a, m)
  {
  }

  lemma ArriveKeeps(b: Bank, n: NodeId, t: Transaction, valid: bool)
    requires Inv(b) && Enabled(b, Arrive(n, t, valid))
    ensures Inv(After(b, Arrive(n, t, valid)))
    ensures Credits(b, n, t, valid) ==> t !in b.wallets[n].books.unspent && t !in b.credited
  {
    var a, w := After(b, Arrive(n, t, valid)), b.wallets[n];
    assert BooksOk(b, n);
    if Credits(b, n, t, valid) {
      AddedBalances(n, w.books, t);
    }
    forall m | m in a.wallets
      ensures BooksOk(a, m)
    {
      assert BooksOk(b, m);
      if m != n {
        BooksStay(b, a, m);
      }
    }
  }

  lemma StepKeeps(b: Bank, step: Step)
    requires Inv(b) && Enabled(b, step)
    ensures Inv(After(b, step))
  {
    match step
    case Pay(n, receiver, amount, sources, block) => PayKeeps(b, n, receiver, amount, sources, block);
    case Arrive(n, t, valid) => ArriveKeeps(b, n, t, valid);
  }

  // ---- conservation ----

  lemma UnderwayAfterPay(b: Bank, a: Bank, t: Transaction)
    requires a.created == b.created + {t} && a.credited == b.credited && t !in b.created && t !in b.credited
    ensures Underway(a) == Underway(b) + t.amount
  {
    assert a.created - a.credited == (b.created - b.credited) + {t};
    SumAdd(b.created - b.credited, AmountOf(), t);
  }

  lemma HeldAfterPay(b: Bank, n: NodeId, t: Transaction, a: Bank)
    requires n in b.wallets && Balanced(n, b.wallets[n].books)
    requires t.source <= b.wallets[n].books.unspent && t !in b.wallets[n].books.unspent && t.sender == Some(n) && t.receiver != n
    requires a.wallets == b.wallets[n := Paid(n, b.wallets[n], t)]
    ensures Held(a) == Held(b) - Sum(t.source, ContributionOf(n)) + t.remainder
  {
    PaidBalances(n, b.wallets[n], t);
    HeldChanges(b.wallets, n, Paid(n, b.wallets[n], t));
  }

  /** A payment conserves money exactly when the worth of its sources fits a Java int. */
  lemma {:induction false} PayConservesIff(b: Bank, n: NodeId, receiver: NodeId, amount: nat, sources: set<Transaction>, block: nat)
    requires Inv(b) && Enabled(b, Pay(n, receiver, amount, sources, block))
    ensures var a := After(b, Pay(n, receiver, amount, sources, block));
            Held(a) + Underway(a) == Held(b) + Underway(b) <==> Sum(sources, ContributionOf(n)) <= INT_MAX
  {
    var t, a := Made(b, n, receiver, amount, sources, block), After(b, Pay(n, receiver, amount, sources, block));
    assert BooksOk(b, n);
    PayKeeps(b, n, receiver, amount, sources, block);
    HeldAfterPay(b, n, t, a);
    UnderwayAfterPay(b, a, t);
    WrapIntExact(Sum(sources, ContributionOf(n)));
  }

  lemma HeldAfterCredit(b: Bank, n: NodeId, t: Transaction, a: Bank)
    requires n in b.wallets && Balanced(n, b.wallets[n].books)
    requires t !in b.wallets[n].books.unspent && t.receiver == n && t.sender != Some(n) && t !in b.wallets[n].received
    requires a.wallets == b.wallets[n := Arrived(n, b.wallets[n], t, true)]
    ensures Held(a) == Held(b) + t.amount
  {
    AddedBalances(n, b.wallets[n].books, t);
    HeldChanges(b.wallets, n, Arrived(n, b.wallets[n], t, true));
  }

  lemma UnderwayAfterCredit(b: Bank, a: Bank, t: Transaction)
    requires a.created == b.created && a.credited == b.credited + {t} && t in b.created && t !in b.credited
    ensures Underway(a) == Underway(b) - t.amount
  {
    assert b.created - b.credited == (a.created - a.credited) + {t};
    SumAdd(a.created - a.credited, AmountOf(), t);
  }

  lemma HeldAfterRefusal(b: Bank, n: NodeId, t: Transaction, a: Bank)
    requires n in b.wallets && b.wallets[n].books.availableMoney >= 0 && a.wallets == b.wallets[n := Arrived(n, b.wallets[n], t, false)]
    ensures Held(a) == Held(b)
  {
    HeldChanges(b.wallets, n, Arrived(n, b.wallets[n], t, false));
  }

  /** An arrival always conserves it: a transaction is credited at most once. */
  lemma ArriveConserves(b: Bank, n: NodeId, t: Transaction, valid: bool)
    requires Inv(b) && Enabled(b, Arrive(n, t, valid))
    ensures var a := After(b, Arrive(n, t, valid));
            Held(a) + Underway(a) == Held(b) + Underway(b)
  {
    var a := After(b, Arrive(n, t, valid));
    assert BooksOk(b, n);
    ArriveKeeps(b, n, t, valid);
    if Credits(b, n, t, valid) {
      HeldAfterCredit(b, n, t, a);
      UnderwayAfterCredit(b, a, t);
    } else {
      assert Arrived(n, b.wallets[n], t, valid) == Arrived(n, b.wallets[n], t, false);
      HeldAfterRefusal(b, n, t, a);
      assert a.credited == b.credited;
    }
  }

  /** No node has more than there is, so its sums fit when the supply does. */
  lemma {:induction false} SourcesBounded(b: Bank, n: NodeId, ts: set<Transaction>)
    requires Inv(b) && n in b.wallets && ts <= b.wallets[n].books.unspent
    ensures Sum(ts, ContributionOf(n)) <= b.wallets[n].books.availableMoney <= Held(b)
  {
    assert BooksOk(b, n);
    SumSplit(b.wallets[n].books.unspent, ts, ContributionOf(n));
    SumPick(b.wallets.Keys, MoneyIn(b.wallets), n);
  }

  // ---- whole runs ----

  ghost predicate IsRun(b: Bank, steps: seq<Step>)
    decreases |steps|
  {
    steps == [] || (Enabled(b, steps[0]) && IsRun(After(b, steps[0]), steps[1..]))
  }

  ghost function Outcome(b: Bank, steps: seq<Step>): Bank
    requires IsRun(b, steps)
    decreases |steps|
  {
    if steps == [] then b else Outcome(After(b, steps[0]), steps[1..])
  }

  /** Every node starts with at most its genesis transaction. */
  ghost predicate Init(b: Bank) {
    && b.created == {} && b.credited == {}
    && forall n | n in b.wallets ::
         var w := b.wallets[n];
         && w.received == {} && Balanced(n, w.books)
         && forall t | t in w.books.unspent :: t.sender.None? && t.receiver == n
  }

  lemma {:induction false} RunConserves(b: Bank, steps: seq<Step>)
    requires Inv(b) && Held(b) + Underway(b) <= INT_MAX && IsRun(b, steps)
    ensures var a := Outcome(b, steps);
            Inv(a) && Held(a) + Underway(a) == Held(b) + Underway(b)
    decreases |steps|
  {
    if steps != [] {
      StepKeeps(b, steps[0]);
      match steps[0] {
        case Pay(n, receiver, amount, sources, block) =>
          SourcesBounded(b, n, sources);
          PayConservesIff(b, n, receiver, amount, sources, block);
        case Arrive(n, t, valid) => ArriveConserves(b, n, t, valid);
      }
      RunConserves(After(b, steps[0]), steps[1..]);
    }
  }

  /** If the genesis supply fits a Java int, every run conserves it, every balance is the
      worth of the node's unspent transactions, and no sum over any of them wraps around. */
  lemma {:induction false} MoneyIsConserved(b: Bank, steps: seq<Step>, n: NodeId, ts: set<Transaction>)
    requires Init(b) && Held(b) <= INT_MAX && IsRun(b, steps)
    ensures var a := Outcome(b, steps);
            && Held(a) + Underway(a) == Held(b)
            && (n in a.wallets ==> Balanced(n, a.wallets[n].books))
            && (n in a.wallets && ts <= a.wallets[n].books.unspent ==> TupleAmount(n, ts) == Sum(ts, ContributionOf(n)))
  {
    assert b.created - b.credited == {};
    RunConserves(b, steps);
    var a := Outcome(b, steps);
    if n in a.wallets {
      assert BooksOk(a, n);
      if ts <= a.wallets[n].books.unspent {
        SourcesBounded(a, n, ts);
        WrapIntExact(Sum(ts, ContributionOf(n)));
      }
    }
  }
}
