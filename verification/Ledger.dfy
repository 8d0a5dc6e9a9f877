/** The values every component shares: transactions, blocks and sums of money.

    A transaction holds its sources as values.  The object graph of the simulator
    has pointers instead, but a transaction never changes once it is in a block,
    so the nested value is exactly what can be reached through those pointers. */
module Ledger {

  type NodeId = nat

  datatype Option<+T> = None | Some(value: T)

  /** A genesis transaction has sender `None`.  `block` is the number of the block
      that holds the transaction. */
  datatype Transaction = Transaction(
    number: nat,
    sender: Option<NodeId>,
    receiver: NodeId,
    amount: nat,
    remainder: nat,
    block: nat,
    source: set<Transaction>)

  /** The genesis block has owner `None`. */
  datatype Block = Block(number: nat, owner: Option<NodeId>, transactions: seq<Transaction>)

  /** The chain a transaction sits in.  A genesis transaction is looked up in the
      chain of its receiver: all chains start with the same genesis block. */
  function Home(t: Transaction): NodeId {
    if t.sender.Some? then t.sender.value else t.receiver
  }

  predicate Involves(n: NodeId, t: Transaction) {
    t.sender == Some(n) || t.receiver == n
  }

  /** `s` from index `n` on.  From 0 on it is `s` itself. */
  function From<T>(s: seq<T>, n: nat): seq<T>
    requires n <= |s|
  {
    if n == 0 then s else s[n..]
  }

  predicate Contains(block: Block, t: Transaction) {
    t in block.transactions
  }

  /** `x` is `t`, or in the history of one of its sources. */
  ghost predicate InHistory(x: Transaction, t: Transaction) {
    x == t || exists s :: s in t.source && InHistory(x, s)
  }

  /** What an unspent transaction is worth to node `n`: the remainder of what it
      sent plus the amount it received. */
  function Contribution(n: NodeId, t: Transaction): nat {
    (if t.sender == Some(n) then t.remainder else 0) + (if t.receiver == n then t.amount else 0)
  }

  /** What validation counts for the same source: the amount or else the remainder, never both. */
  function CheckedContribution(n: NodeId, t: Transaction): nat {
    if t.receiver == n then t.amount else if t.sender == Some(n) then t.remainder else 0
  }

  function ContributionOf(n: NodeId): Transaction -> nat { t => Contribution(n, t) }

  function CheckedContributionOf(n: NodeId): Transaction -> nat { t => CheckedContribution(n, t) }

  // ---- sums over finite sets ----

  ghost function Sum<T>(s: set<T>, f: T -> nat): nat {
    if s == {} then 0 else var x :| x in s; f(x) + Sum(s - {x}, f)
  }

  lemma {:induction false} SumPick<T>(s: set<T>, f: T -> nat, x: T)
    requires x in s
    ensures Sum(s, f) == f(x) + Sum(s - {x}, f)
    decreases s
  {
    var y :| y in s && Sum(s, f) == f(y) + Sum(s - {y}, f);
    if x != y {
      SumPick(s - {y}, f, x);
      SumPick(s - {x}, f, y);
      assert s - {y} - {x} == s - {x} - {y};
    }
  }

  lemma {:induction false} SumUnion<T>(a: set<T>, b: set<T>, f: T -> nat)
    requires a !! b
    ensures Sum(a + b, f) == Sum(a, f) + Sum(b, f)
    decreases a
  {
    if a == {} {
      assert a + b == b;
    } else {
      var x :| x in a;
      SumPick(a, f, x);
      SumPick(a + b, f, x);
      assert (a + b) - {x} == (a - {x}) + b;
      SumUnion(a - {x}, b, f);
    }
  }

  lemma {:induction false} SumAdd<T>(s: set<T>, f: T -> nat, x: T)
    requires x !in s
    ensures Sum(s + {x}, f) == Sum(s, f) + f(x)
  {
    SumPick(s + {x}, f, x);
    assert s + {x} - {x} == s;
  }

  lemma {:induction false} SumSplit<T>(s: set<T>, part: set<T>, f: T -> nat)
    requires part <= s
    ensures Sum(s, f) == Sum(part, f) + Sum(s - part, f)
  {
    SumUnion(part, s - part, f);
    assert part + (s - part) == s;
  }

  lemma {:induction false} SumEqual<T>(s: set<T>, f: T -> nat, g: T -> nat)
    requires forall x | x in s :: f(x) == g(x)
    ensures Sum(s, f) == Sum(s, g)
    decreases s
  {
    if s != {} {
      var x :| x in s;
      SumPick(s, f, x);
      SumPick(s, g, x);
      SumEqual(s - {x}, f, g);
    }
  }

  // ---- cardinalities ----

  lemma {:induction false} SubsetSize<T>(a: set<T>, b: set<T>)
    requires a <= b
    ensures |a| <= |b|
    ensures |a| == |b| ==> a == b
  {
    assert b == a + (b - a);
  }

  /** A set has a subset of every smaller size. */
  lemma {:induction false} SubsetOfSize<T>(s: set<T>, k: nat) returns (z: set<T>)
    requires k <= |s|
    ensures z <= s && |z| == k
    decreases |s|
  {
    if |s| == k {
      z := s;
    } else {
      var x :| x in s;
      z := SubsetOfSize(s - {x}, k);
    }
  }

  // ---- Java's 32-bit arithmetic ----

  const INT_MAX := 0x7FFF_FFFF

  /** The value a Java `int` holds after a result has been narrowed to 32 bits. */
  function WrapInt(x: int): int {
    (x + 0x8000_0000) % 0x1_0000_0000 - 0x8000_0000
  }

  lemma WrapIntExact(x: nat)
    ensures WrapInt(x) == x <==> x <= INT_MAX
  {
  }

  lemma WrapIntAdd(a: int, b: int)
    ensures WrapInt(WrapInt(a) + b) == WrapInt(a + b)
  {
    var m := 0x1_0000_0000;
    var q := (a + 0x8000_0000) / m;
    assert WrapInt(a) == a - q * m;
    assert (a + b + 0x8000_0000 - q * m) % m == (a + b + 0x8000_0000) % m;
  }
}
