/** The money bookkeeping of one node (`LocalStore`). */
module LocalStores {
  import opened Ledger

  datatype Books = Books(unspent: set<Transaction>, availableMoney: int)

  /** The balance is the worth of the unspent set. */
  ghost predicate Balanced(own: NodeId, b: Books) {
    b.availableMoney == Sum(b.unspent, ContributionOf(own))
  }

  /** The books of `own` with one more unspent transaction. */
  function Added(own: NodeId, b: Books, t: Transaction): Books {
    if t in b.unspent then b else Books(b.unspent + {t}, b.availableMoney + Contribution(own, t))
  }

  ghost function Removed(own: NodeId, b: Books, ts: set<Transaction>): Books {
    Books(b.unspent - ts, b.availableMoney - Sum(b.unspent * ts, ContributionOf(own)))
  }

  class LocalStore {
    const own: NodeId
    var unspent: set<Transaction>
    var availableMoney: int
    var transactionId: nat

    /** The books are balanced, and every number handed out
        so far is below `transactionId`. */
    ghost predicate Valid()
      reads this
    {
      && Balanced(own, Current())
      && forall t | t in unspent && t.sender == Some(own) :: t.number < transactionId
    }

    function Current(): Books
      reads this
    {
      Books(unspent, availableMoney)
    }

    constructor (own: NodeId, genesis: seq<Transaction>, genesisTransaction: Option<Transaction>)
      requires genesisTransaction.Some? ==> genesisTransaction.value.sender.None?
      ensures Valid() && this.own == own
      ensures unspent == if genesisTransaction.Some? then {genesisTransaction.value} else {}
      ensures transactionId == |genesis|
    {
      this.own := own;
      unspent, availableMoney, transactionId := {}, 0, |genesis|;
      new;
      if genesisTransaction.Some? {
        AddUnspentTransaction(genesisTransaction.value);
        assert {} + {genesisTransaction.value} == {genesisTransaction.value};
      }
    }

    method AddUnspentTransaction(t: Transaction)
      requires Valid()
      requires t.sender == Some(own) ==> t.number < transactionId
      modifies this`unspent, this`availableMoney
      ensures Valid() && Current() == Added(own, old(Current()), t)
      ensures unspent == old(unspent) + {t}
      ensures availableMoney == old(availableMoney) + if t in old(unspent) then 0 else Contribution(own, t)
    {
      if t in unspent {
        assert unspent + {t} == unspent;
        return;
      }
      SumAdd(unspent, ContributionOf(own), t);
      unspent := unspent + {t};
      if t.receiver == own {
        availableMoney := availableMoney + t.amount;
      }
      if t.sender == Some(own) {
        availableMoney := availableMoney + t.remainder;
      }
    }

    method RemoveUnspentTransactions(toRemove: set<Transaction>)
      requires Valid()
      modifies this`unspent, this`availableMoney
      ensures Valid() && Current() == Removed(own, old(Current()), toRemove)
      ensures unspent == old(unspent) - toRemove
      ensures availableMoney == old(availableMoney) - Sum(old(unspent) * toRemove, ContributionOf(own))
    {
      var todo := toRemove;
      while todo != {}
        invariant Valid() && todo <= toRemove
        invariant unspent == old(unspent) - (toRemove - todo)
        decreases todo
      {
        var t :| t in todo;
        todo := todo - {t};
        if t in unspent {
          SumPick(unspent, ContributionOf(own), t);
          unspent := unspent - {t};
          if t.receiver == own {
            availableMoney := availableMoney - t.amount;
          }
          if t.sender == Some(own) {
            availableMoney := availableMoney - t.remainder;
          }
        }
        assert unspent == old(unspent) - (toRemove - todo);
      }
      assert toRemove - todo == toRemove;
      SumSplit(old(unspent), old(unspent) * toRemove, ContributionOf(own));
      assert old(unspent) - old(unspent) * toRemove == unspent;
    }

    method GetNewTransactionId() returns (id: nat)
      requires Valid()
      modifies this`transactionId
      ensures Valid()
      ensures id == old(transactionId) && transactionId == id + 1
    {
      id := transactionId;
      transactionId := transactionId + 1;
    }
  }
}
