/** Building the proof that goes with a transaction (`ProofConstructor`).

    A proof is a family of chain segments.  Every segment starts at the first block
    the receiver does not know.  The recursion leaves the least family that holds
    the sender's own segment and is closed: for each source of a transaction in a
    sent block, the blocks of the source's chain up to its next committed block are
    known to the receiver or sent too. */
module ProofConstruction {
  import opened Ledger
  import opened ChainReach
  import opened Replicas

  type Family = map<NodeId, seq<Block>>

  /** What the sender of a proof works with: its own copies of all chains. */
  datatype Setting = Setting(sender: NodeId, receiver: NodeId, known: Knowledge,
                             copies: map<NodeId, Replica>, nodes: set<NodeId>) {

    /** Our copy of chain `k`, empty while we have none. */
    function Chain(k: NodeId): Replica {
      if k in copies then copies[k] else Replica([], [])
    }

    function First(k: NodeId): nat {
      FirstUnknown(known, k)
    }

    /** Sources that are never followed: genesis, and the chains of sender and receiver. */
    predicate Skips(source: Transaction) {
      source.sender.None? || source.sender.value == sender || source.sender.value == receiver
    }

    /** The source sits in a block of its chain that has a next committed block. */
    ghost predicate Located(source: Transaction)
      requires source.sender.Some?
    {
      var c := Chain(source.sender.value);
      && source.sender.value in nodes
      && source.block < |c.blocks| == |c.next|
      && 0 <= c.next[source.block] < |c.blocks|
    }

    /** How many blocks of the source's chain the receiver needs. */
    function Needed(source: Transaction): nat
      requires source.sender.Some? && Located(source)
    {
      Chain(source.sender.value).next[source.block] + 1
    }

    ghost predicate InBlock(k: NodeId, b: nat, t: Transaction) {
      b < |Chain(k).blocks| && t in Chain(k).blocks[b].transactions
    }

    ghost predicate WellFormed() {
      forall k, b, t, source | InBlock(k, b, t) && source in t.source && !Skips(source) :: Located(source)
    }
  }

  /** One past the last block of chain `k` that the family provides. */
  function End(s: Setting, f: Family, k: NodeId): nat {
    s.First(k) + if k in f then |f[k]| else 0
  }

  /** The blocks of chain `k` that the receiver does not know, up to but not including `end`. */
  function Segment(s: Setting, k: NodeId, end: nat): (r: seq<Block>)
    ensures |r| == if s.First(k) <= end <= |s.Chain(k).blocks| then end - s.First(k) else 0
  {
    if s.First(k) <= end <= |s.Chain(k).blocks| then From(s.Chain(k).blocks[..end], s.First(k)) else []
  }

  ghost predicate IsFamily(s: Setting, f: Family) {
    forall k | k in f ::
      && k in s.nodes && k != s.receiver && f[k] != []
      && End(s, f, k) <= |s.Chain(k).blocks|
      && f[k] == Segment(s, k, End(s, f, k))
  }

  ghost predicate SourceProvided(s: Setting, f: Family, source: Transaction) {
    !s.Skips(source) ==> s.Located(source) && s.Needed(source) <= End(s, f, source.sender.value)
  }

  ghost predicate SourcesProvided(s: Setting, f: Family, t: Transaction) {
    AllProvided(s, f, t.source)
  }

  ghost predicate AllProvided(s: Setting, f: Family, sources: set<Transaction>) {
    forall source | source in sources :: SourceProvided(s, f, source)
  }

  ghost predicate BlockClosed(s: Setting, f: Family, k: NodeId, b: nat) {
    forall t | s.InBlock(k, b, t) :: SourcesProvided(s, f, t)
  }

  /** All blocks of `f` past those of `done` are closed in `f`. */
  ghost predicate ClosedBeyond(s: Setting, done: Family, f: Family) {
    forall k, b: nat | End(s, done, k) <= b < End(s, f, k) :: BlockClosed(s, f, k, b)
  }

  ghost predicate Closed(s: Setting, f: Family) {
    ClosedBeyond(s, map[], f)
  }

  ghost predicate Sub(s: Setting, f: Family, g: Family) {
    forall k :: End(s, f, k) <= End(s, g, k)
  }

  /** Every closed family above `f` is above `g` too. */
  ghost predicate Forced(s: Setting, f: Family, g: Family) {
    forall h | IsFamily(s, h) && Closed(s, h) && Sub(s, f, h) :: Sub(s, g, h)
  }

  /** Each segment ends at the next committed block of some block. */
  ghost predicate EndsCommitted(s: Setting, f: Family) {
    forall k | k in f :: CommittedEnd(s, k, End(s, f, k))
  }

  ghost predicate CommittedEnd(s: Setting, k: NodeId, end: nat) {
    exists b: nat :: b < |s.Chain(k).next| && s.Chain(k).next[b] + 1 == end
  }

  /** The family with the segment of `owner` made at least as long as `blocks`. */
  function Add(f: Family, owner: NodeId, blocks: seq<Block>): Family {
    if owner in f && |f[owner]| >= |blocks| then f else f[owner := blocks]
  }

  // ---- termination: blocks that are not in the family yet ----

  function Room(s: Setting, f: Family): NodeId -> nat {
    k => if End(s, f, k) < |s.Chain(k).blocks| then |s.Chain(k).blocks| - End(s, f, k) else 0
  }

  ghost function Unsent(s: Setting, f: Family): nat {
    Sum(s.nodes, Room(s, f))
  }

  lemma {:induction false} SumShrinks(nodes: set<NodeId>, f: NodeId -> nat, g: NodeId -> nat)
    requires forall k | k in nodes :: f(k) >= g(k)
    ensures Sum(nodes, f) >= Sum(nodes, g)
    ensures (exists k :: k in nodes && f(k) > g(k)) ==> Sum(nodes, f) > Sum(nodes, g)
    decreases nodes
  {
    if nodes != {} {
      var x :| x in nodes;
      SumPick(nodes, f, x);
      SumPick(nodes, g, x);
      SumShrinks(nodes - {x}, f, g);
    }
  }

  lemma UnsentShrinks(s: Setting, f: Family, g: Family)
    requires Sub(s, f, g)
    ensures Unsent(s, g) <= Unsent(s, f)
  {
    SumShrinks(s.nodes, Room(s, f), Room(s, g));
  }

  /** Adding blocks of one chain lowers the measure by exactly their number. */
  lemma UnsentDrops(s: Setting, f: Family, g: Family, k: NodeId)
    requires k in s.nodes && End(s, f, k) <= End(s, g, k) <= |s.Chain(k).blocks|
    requires forall j | j != k :: End(s, g, j) == End(s, f, j)
    ensures Unsent(s, f) - Unsent(s, g) == End(s, g, k) - End(s, f, k)
  {
    SumPick(s.nodes, Room(s, f), k);
    SumPick(s.nodes, Room(s, g), k);
    SumEqual(s.nodes - {k}, Room(s, f), Room(s, g));
  }

  // ---- growing a family ----

  lemma ClosedGrows(s: Setting, f: Family, g: Family, k: NodeId, b: nat)
    requires Sub(s, f, g) && BlockClosed(s, f, k, b)
    ensures BlockClosed(s, g, k, b)
  {
    forall t | s.InBlock(k, b, t)
      ensures SourcesProvided(s, g, t)
    {
      ProvidedGrows(s, f, g, t.source);
    }
  }

  /** The blocks of chain `k` from `from` on are closed, up to but not including `to`. */
  ghost predicate ScanClosed(s: Setting, f: Family, k: NodeId, from: nat, to: nat) {
    forall b: nat | from <= b < to :: BlockClosed(s, f, k, b)
  }

  lemma ScanGrows(s: Setting, f: Family, g: Family, k: NodeId, from: nat, to: nat)
    requires Sub(s, f, g) && ScanClosed(s, f, k, from, to)
    ensures BlockClosed(s, g, k, to) ==> ScanClosed(s, g, k, from, to + 1)
  {
    forall b: nat | from <= b < to
      ensures BlockClosed(s, g, k, b)
    {
      ClosedGrows(s, f, g, k, b);
    }
  }

  lemma ProvidedGrows(s: Setting, f: Family, g: Family, sources: set<Transaction>)
    requires Sub(s, f, g) && AllProvided(s, f, sources)
    ensures AllProvided(s, g, sources)
  {
    forall source | source in sources
      ensures SourceProvided(s, g, source)
    {
      assert SourceProvided(s, f, source);
    }
  }

  /** The sources of the first `n` transactions are provided. */
  ghost predicate ListProvided(s: Setting, f: Family, ts: seq<Transaction>, n: nat) {
    forall i: nat | i < n && i < |ts| :: SourcesProvided(s, f, ts[i])
  }

  lemma ListGrows(s: Setting, f: Family, g: Family, ts: seq<Transaction>, n: nat)
    requires n < |ts| && Sub(s, f, g) && ListProvided(s, f, ts, n) && SourcesProvided(s, g, ts[n])
    ensures ListProvided(s, g, ts, n + 1)
  {
    forall i: nat | i < n
      ensures SourcesProvided(s, g, ts[i])
    {
      assert SourcesProvided(s, f, ts[i]);
      ProvidedGrows(s, f, g, ts[i].source);
    }
  }

  lemma ListIsBlock(s: Setting, f: Family, k: NodeId, b: nat)
    requires b < |s.Chain(k).blocks|
    requires var ts := s.Chain(k).blocks[b].transactions; ListProvided(s, f, ts, |ts|)
    ensures BlockClosed(s, f, k, b)
  {
  }

  /** Two growth steps, each closing what it added, make one. */
  lemma ClosedBeyondTransitive(s: Setting, f: Family, g: Family, h: Family)
    requires ClosedBeyond(s, f, g) && ClosedBeyond(s, g, h) && Sub(s, f, g) && Sub(s, g, h)
    ensures ClosedBeyond(s, f, h)
  {
    forall k, b: nat | End(s, f, k) <= b < End(s, h, k)
      ensures BlockClosed(s, h, k, b)
    {
      if b < End(s, g, k) {
        ClosedGrows(s, g, h, k, b);
      }
    }
  }

  lemma ForcedTransitive(s: Setting, f: Family, g: Family, h: Family)
    requires Forced(s, f, g) && Forced(s, g, h)
    ensures Forced(s, f, h)
  {
  }

  lemma AddGrows(s: Setting, f: Family, owner: NodeId, e: nat)
    requires IsFamily(s, f) && owner in s.nodes && owner != s.receiver
    requires s.First(owner) < e <= |s.Chain(owner).blocks|
    ensures var g := Add(f, owner, Segment(s, owner, e));
            && IsFamily(s, g) && Sub(s, f, g) && e <= End(s, g, owner)
            && (forall k :: End(s, g, k) == if k == owner && End(s, f, k) < e then e else End(s, f, k))
            && (EndsCommitted(s, f) && CommittedEnd(s, owner, e) ==> EndsCommitted(s, g))
  {
    var g := Add(f, owner, Segment(s, owner, e));
    assert forall k | k != owner :: End(s, g, k) == End(s, f, k);
  }

  /** A closed family above one that holds a transaction also provides its sources. */
  lemma SourceForced(s: Setting, f: Family, k: NodeId, b: nat, t: Transaction, source: Transaction)
    requires IsFamily(s, f) && s.First(k) <= b < End(s, f, k) && s.InBlock(k, b, t)
    requires source in t.source && !s.Skips(source) && s.Located(source)
    requires s.First(source.sender.value) < s.Needed(source)
    ensures var owner := source.sender.value;
            Forced(s, f, Add(f, owner, Segment(s, owner, s.Needed(source))))
  {
    var owner := source.sender.value;
    var g := Add(f, owner, Segment(s, owner, s.Needed(source)));
    AddGrows(s, f, owner, s.Needed(source));
    forall h | IsFamily(s, h) && Closed(s, h) && Sub(s, f, h)
      ensures Sub(s, g, h)
    {
      assert End(s, map[], k) <= b < End(s, h, k);
      assert BlockClosed(s, h, k, b);
      assert SourcesProvided(s, h, t);
      assert SourceProvided(s, h, source);
    }
  }

  /** What a proof for a transaction in block `block` of the sender has to be: empty if
      the receiver knows the sender's chain that far, and otherwise the least closed
      family that holds the sender's chain up to the next committed block. */
  ghost predicate IsProof(s: Setting, block: nat, f: Family)
    requires block < |s.Chain(s.sender).next| && s.Chain(s.sender).next[block] >= 0
  {
    if s.First(s.sender) > s.Chain(s.sender).next[block] then f == map[]
    else
      && IsFamily(s, f) && EndsCommitted(s, f) && Closed(s, f)
      && s.Chain(s.sender).next[block] < End(s, f, s.sender)
      && forall g | IsFamily(s, g) && Closed(s, g) && s.Chain(s.sender).next[block] < End(s, g, s.sender) :: Sub(s, f, g)
  }

  lemma CutBlockClosed(s: Setting, f: Family, g: Family, k: NodeId, b: nat)
    requires BlockClosed(s, f, k, b) && forall j | j != s.sender :: End(s, g, j) == End(s, f, j)
    ensures BlockClosed(s, g, k, b)
  {
    forall t | s.InBlock(k, b, t)
      ensures SourcesProvided(s, g, t)
    {
      assert SourcesProvided(s, f, t);
      forall source | source in t.source
        ensures SourceProvided(s, g, source)
      {
        assert SourceProvided(s, f, source);
      }
    }
  }

  /** A closed family stays one when the sender's own segment is cut short. */
  lemma CutOwn(s: Setting, f: Family, end: nat)
    requires IsFamily(s, f) && Closed(s, f) && s.sender in f && s.First(s.sender) < end <= End(s, f, s.sender)
    ensures var g := f[s.sender := Segment(s, s.sender, end)];
            IsFamily(s, g) && Closed(s, g) && End(s, g, s.sender) == end
  {
    var g := f[s.sender := Segment(s, s.sender, end)];
    assert End(s, g, s.sender) == end <= |s.Chain(s.sender).blocks|;
    forall k | k != s.sender
      ensures End(s, g, k) == End(s, f, k)
    {
    }
    forall k, b: nat | End(s, map[], k) <= b < End(s, g, k)
      ensures BlockClosed(s, g, k, b)
    {
      assert BlockClosed(s, f, k, b);
      CutBlockClosed(s, f, g, k, b);
    }
  }

  /** The sender's own segment ends with the next committed block of the main transaction:
      sources of the sender's own are skipped, so nothing could make it longer. */
  lemma OwnEndExact(s: Setting, block: nat, f: Family)
    requires block < |s.Chain(s.sender).next| && 0 <= s.Chain(s.sender).next[block] < |s.Chain(s.sender).blocks|
    requires IsProof(s, block, f) && s.sender in f
    ensures End(s, f, s.sender) == s.Chain(s.sender).next[block] + 1
  {
    var end := s.Chain(s.sender).next[block] + 1;
    CutOwn(s, f, end);
    assert Sub(s, f, f[s.sender := Segment(s, s.sender, end)]);
  }

  /** What the protocol needs to know of a proof. */
  ghost predicate Proves(s: Setting, block: nat, f: Family)
    requires block < |s.Chain(s.sender).next| && s.Chain(s.sender).next[block] >= 0
  {
    && IsFamily(s, f) && EndsCommitted(s, f) && Closed(s, f)
    && s.Chain(s.sender).next[block] < End(s, f, s.sender)
    && (s.sender in f ==> End(s, f, s.sender) == s.Chain(s.sender).next[block] + 1)
  }

  lemma ProofProves(s: Setting, block: nat, f: Family)
    requires block < |s.Chain(s.sender).next| && 0 <= s.Chain(s.sender).next[block] < |s.Chain(s.sender).blocks|
    requires IsProof(s, block, f)
    ensures Proves(s, block, f)
  {
    if s.sender in f {
      OwnEndExact(s, block, f);
    }
  }

  // ---- the estimate used by source selection is a lower bound ----

  /** The history of `t` as the sender has it: every transaction is in the block it
      names, that block is no later than its next committed block, and what the
      sender spent itself is in the part of its chain that the proof covers. */
  ghost predicate Causal(s: Setting, f: Family, t: Transaction) {
    && (t.sender.Some? ==>
          && s.InBlock(t.sender.value, t.block, t)
          && (t.sender.value == s.sender ==> t.block < End(s, f, s.sender))
          && (!s.Skips(t) ==> s.Located(t) && t.block < s.Needed(t)))
    && forall source | source in t.source :: Causal(s, f, source)
  }

  /** Every chain that `appendChains2` collects for a source is in the proof. */
  lemma {:induction false} ReachIsSent(s: Setting, f: Family, t: Transaction)
    requires IsFamily(s, f) && Closed(s, f) && Causal(s, f, t) && SourceProvided(s, f, t)
    ensures Reach(t, s.receiver, s.known) <= f.Keys
  {
    if !Skipped(t, s.receiver, s.known) {
      var k := t.sender.value;
      assert End(s, map[], k) <= t.block < End(s, f, k);
      assert BlockClosed(s, f, k, t.block);
      assert SourcesProvided(s, f, t);
      forall source | source in t.source
        ensures Reach(source, s.receiver, s.known) <= f.Keys
      {
        assert SourceProvided(s, f, source);
        ReachIsSent(s, f, source);
      }
    }
  }

  /** Who is taken to have the block of `t` is taken to know the sources of `t`. */
  predicate KnowsSourcesToo(s: Setting, t: Transaction) {
    t.block < s.First(s.sender) ==> forall source | source in t.source :: Skipped(source, s.receiver, s.known)
  }

  /** So the number of chains a selection is charged for never exceeds what is sent. */
  lemma {:induction false} EstimateIsLowerBound(s: Setting, f: Family, main: Transaction)
    requires IsFamily(s, f) && Closed(s, f) && Causal(s, f, main)
    requires main.sender == Some(s.sender) && KnowsSourcesToo(s, main)
    ensures ReachAll(main.source, s.receiver, s.known) <= f.Keys
    ensures |ReachAll(main.source, s.receiver, s.known)| <= |f|
  {
    forall source | source in main.source
      ensures Reach(source, s.receiver, s.known) <= f.Keys
    {
      if s.First(s.sender) <= main.block {
        assert End(s, map[], s.sender) <= main.block < End(s, f, s.sender);
        assert BlockClosed(s, f, s.sender, main.block);
        assert SourcesProvided(s, f, main);
        assert SourceProvided(s, f, source);
        ReachIsSent(s, f, source);
      }
    }
    SubsetSize(ReachAll(main.source, s.receiver, s.known), f.Keys);
  }

  /** What is forced by the sender's own segment alone is least. */
  lemma ForcedFromOwn(s: Setting, e: nat, f: Family)
    requires Forced(s, Add(map[], s.sender, Segment(s, s.sender, e)), f)
    requires s.First(s.sender) < e <= |s.Chain(s.sender).blocks|
    ensures forall g | IsFamily(s, g) && Closed(s, g) && e <= End(s, g, s.sender) :: Sub(s, f, g)
  {
    var own := Add(map[], s.sender, Segment(s, s.sender, e));
    forall g | IsFamily(s, g) && Closed(s, g) && e <= End(s, g, s.sender)
      ensures Sub(s, f, g)
    {
      assert Sub(s, own, g);
    }
  }

  lemma SentIsSegment(s: Setting, k: NodeId, end: nat)
    requires end < |s.Chain(k).blocks| && k != s.receiver
    ensures BlocksToSend(s.known, s.receiver, k, s.Chain(k).blocks, end) == Segment(s, k, end + 1)
  {
  }

  lemma SegmentGrows(s: Setting, k: NodeId, from: nat, end: nat)
    requires s.First(k) <= from <= end <= |s.Chain(k).blocks|
    ensures var a, b := Segment(s, k, from), Segment(s, k, end);
            && a + From(b, |a|) == b
            && forall i | 0 <= i < end - from :: From(b, |a|)[i] == s.Chain(k).blocks[from + i]
  {
    var a, b, first := Segment(s, k, from), Segment(s, k, end), s.First(k);
    forall i | 0 <= i < from - first
      ensures a[i] == b[i]
    {
      SegmentElement(s, k, from, i);
      SegmentElement(s, k, end, i);
    }
    forall i | 0 <= i < end - from
      ensures From(b, |a|)[i] == s.Chain(k).blocks[from + i]
    {
      SegmentElement(s, k, end, from - first + i);
    }
    Rejoined(a, b);
  }

  lemma Rejoined(a: seq<Block>, b: seq<Block>)
    requires |a| <= |b| && forall i | 0 <= i < |a| :: a[i] == b[i]
    ensures a + From(b, |a|) == b
  {
  }

  lemma SegmentElement(s: Setting, k: NodeId, end: nat, i: nat)
    requires s.First(k) <= end <= |s.Chain(k).blocks| && i < end - s.First(k)
    ensures Segment(s, k, end)[i] == s.Chain(k).blocks[s.First(k) + i]
  {
  }

  lemma ForcedIsProof(s: Setting, block: nat, f: Family)
    requires block < |s.Chain(s.sender).next| && 0 <= s.Chain(s.sender).next[block] < |s.Chain(s.sender).blocks|
    requires IsFamily(s, f) && EndsCommitted(s, f) && Closed(s, f) && s.Chain(s.sender).next[block] < End(s, f, s.sender)
    requires s.First(s.sender) <= s.Chain(s.sender).next[block]
    requires Forced(s, Add(map[], s.sender, Segment(s, s.sender, s.Chain(s.sender).next[block] + 1)), f)
    ensures IsProof(s, block, f)
  {
    ForcedFromOwn(s, s.Chain(s.sender).next[block] + 1, f);
  }

  lemma OneMoreProvided(s: Setting, f: Family, sources: set<Transaction>, source: Transaction)
    requires AllProvided(s, f, sources) && SourceProvided(s, f, source)
    ensures AllProvided(s, f, sources + {source})
  {
  }

  lemma ProvidedWithin(s: Setting, f: Family, sources: set<Transaction>, more: set<Transaction>)
    requires AllProvided(s, f, more) && forall x | x in sources :: x in more
    ensures AllProvided(s, f, sources)
  {
  }

  lemma NothingIsFamily(s: Setting)
    ensures IsFamily(s, map[]) && EndsCommitted(s, map[])
  {
  }

  lemma NothingIsProof(s: Setting, block: nat)
    requires block < |s.Chain(s.sender).next| && 0 <= s.Chain(s.sender).next[block] < s.First(s.sender)
    ensures IsProof(s, block, map[])
  {
  }

  lemma EndsAtCommit(s: Setting, k: NodeId, b: nat)
    requires b < |s.Chain(k).next| && s.Chain(k).next[b] >= 0
    ensures CommittedEnd(s, k, s.Chain(k).next[b] + 1)
  {
  }

  class ProofConstructor {
    const s: Setting
    const mainTransaction: Transaction
    var toSend: Family
    ghost var scanned: nat  // how many blocks have been scanned for sources

    constructor (s: Setting, mainTransaction: Transaction)
      ensures this.s == s && this.mainTransaction == mainTransaction && toSend == map[] && scanned == 0
    {
      this.s := s;
      this.mainTransaction := mainTransaction;
      toSend := map[];
      scanned := 0;
    }

    ghost predicate Valid()
      reads this
    {
      s.WellFormed() && IsFamily(s, toSend) && EndsCommitted(s, toSend)
    }

    /** What one step of the recursion does to the family: it grows, what it adds
        is closed, and nothing is added that a closed family could do without. */
    ghost predicate Grown(f: Family)
      reads this
    {
      Valid() && Sub(s, f, toSend) && ClosedBeyond(s, f, toSend) && Forced(s, f, toSend)
    }

    method ConstructProof() returns (proof: Family)
      requires s.WellFormed() && s.sender in s.nodes && s.sender != s.receiver
      requires var c := s.Chain(s.sender);
               && mainTransaction.block < |c.next| == |c.blocks|
               && 0 <= c.next[mainTransaction.block] < |c.blocks|
      requires toSend == map[] || IsProof(s, mainTransaction.block, toSend)
      modifies this
      ensures proof == toSend && IsProof(s, mainTransaction.block, proof)
      ensures scanned - old(scanned) == Unsent(s, old(toSend)) - Unsent(s, toSend)
    {
      if |toSend| != 0 {
        return toSend;
      }
      assert toSend == map[];
      var c := s.Chain(s.sender);
      var nextCommitted := c.next[mainTransaction.block];
      var ownBlocks := BlocksToSend(s.known, s.receiver, s.sender, c.blocks, nextCommitted);
      SentIsSegment(s, s.sender, nextCommitted);
      if ownBlocks == [] {
        NothingIsProof(s, mainTransaction.block);
        return toSend;
      }
      ProcessOwnBlocks(ownBlocks);
      return toSend;
    }

    /** The recursion starts with the sender's own blocks. */
    method ProcessOwnBlocks(ownBlocks: seq<Block>)
      requires s.WellFormed() && s.sender in s.nodes && s.sender != s.receiver && toSend == map[]
      requires var c, b := s.Chain(s.sender), mainTransaction.block;
               && b < |c.next| && s.First(s.sender) <= c.next[b] < |c.blocks|
               && ownBlocks == Segment(s, s.sender, c.next[b] + 1)
      modifies this
      ensures IsProof(s, mainTransaction.block, toSend)
      ensures scanned - old(scanned) == Unsent(s, map[]) - Unsent(s, toSend)
    {
      ghost var end := s.Chain(s.sender).next[mainTransaction.block] + 1;
      NothingIsFamily(s);
      EndsAtCommit(s, s.sender, mainTransaction.block);
      ProcessBlocks(s.sender, ownBlocks, end);
      ForcedIsProof(s, mainTransaction.block, toSend);
    }

    method AddBlocksToSend(owner: NodeId, toAdd: seq<Block>, ghost e: nat) returns (added: seq<Block>)
      requires IsFamily(s, toSend) && owner in s.nodes && owner != s.receiver
      requires s.First(owner) < e <= |s.Chain(owner).blocks| && toAdd == Segment(s, owner, e)
      modifies this`toSend
      ensures toSend == Add(old(toSend), owner, toAdd)
      ensures |added| == End(s, toSend, owner) - End(s, old(toSend), owner)
      ensures forall i | 0 <= i < |added| :: added[i] == s.Chain(owner).blocks[End(s, old(toSend), owner) + i]
    {
      var current := if owner in toSend then toSend[owner] else [];
      if current == [] {
        toSend := toSend[owner := toAdd];
        return toAdd;
      }
      if |current| >= |toAdd| {
        return [];
      }
      added := From(toAdd, |current|);
      SegmentGrows(s, owner, End(s, toSend, owner), e);
      toSend := toSend[owner := current + added];
    }

    method ProcessBlocks(owner: NodeId, blocks: seq<Block>, ghost e: nat)
      requires Valid() && owner in s.nodes && owner != s.receiver
      requires s.First(owner) < e <= |s.Chain(owner).blocks| && blocks == Segment(s, owner, e)
      requires CommittedEnd(s, owner, e)
      modifies this
      ensures Valid() && Sub(s, old(toSend), toSend) && ClosedBeyond(s, old(toSend), toSend)
      ensures e <= End(s, toSend, owner)
      ensures Forced(s, Add(old(toSend), owner, blocks), toSend)
      ensures scanned + Unsent(s, toSend) == old(scanned + Unsent(s, toSend))
      decreases Unsent(s, toSend), 0
    {
      ghost var before := toSend;
      AddGrows(s, before, owner, e);
      var newlyAdded := AddBlocksToSend(owner, blocks, e);
      ghost var start := toSend;
      if newlyAdded == [] {
        return;
      }
      UnsentDrops(s, before, start, owner);
      ScanBlocks(newlyAdded, owner, End(s, before, owner));
      AddedIsClosed(before, owner, e);
    }

    /** The outer loop, over the blocks of chain `k` from `begin` on. */
    method ScanBlocks(blocks: seq<Block>, ghost k: NodeId, ghost begin: nat)
      requires Valid() && s.First(k) <= begin && begin + |blocks| <= End(s, toSend, k)
      requires begin + |blocks| <= |s.Chain(k).blocks|
      requires forall i | 0 <= i < |blocks| :: blocks[i] == s.Chain(k).blocks[begin + i]
      modifies this
      ensures Grown(old(toSend)) && ScanClosed(s, toSend, k, begin, begin + |blocks|)
      ensures scanned + Unsent(s, toSend) == old(scanned + Unsent(s, toSend)) + |blocks|
      decreases Unsent(s, toSend), 4
    {
      ghost var start := toSend;
      StartsClosed(k, begin);
      for i := 0 to |blocks|
        invariant Grown(start) && ScanClosed(s, toSend, k, begin, begin + i)
        invariant scanned + Unsent(s, toSend) == old(scanned + Unsent(s, toSend)) + i
      {
        ghost var f := toSend;
        UnsentShrinks(s, start, f);
        ProcessBlock(blocks[i], k, begin + i);
        GrowthTransitive(start, f);
        ScanGrows(s, f, toSend, k, begin, begin + i);
      }
    }

    /** The inner loop, over the transactions of block `b` of chain `k`. */
    method ProcessBlock(block: Block, ghost k: NodeId, ghost b: nat)
      requires Valid() && s.First(k) <= b < End(s, toSend, k) && b < |s.Chain(k).blocks|
      requires block == s.Chain(k).blocks[b]
      modifies this
      ensures Grown(old(toSend)) && BlockClosed(s, toSend, k, b)
      ensures scanned + Unsent(s, toSend) == old(scanned + Unsent(s, toSend)) + 1
      decreases Unsent(s, toSend), 3
    {
      ghost var start := toSend;
      var ts := block.transactions;
      for j := 0 to |ts|
        invariant Grown(start) && ListProvided(s, toSend, ts, j)
        invariant scanned + Unsent(s, toSend) == old(scanned + Unsent(s, toSend))
      {
        ghost var f := toSend;
        UnsentShrinks(s, start, f);
        ProcessSources(ts[j], k, b);
        GrowthTransitive(start, f);
        ListGrows(s, f, toSend, ts, j);
      }
      ListIsBlock(s, toSend, k, b);
      scanned := scanned + 1;
    }

    method ProcessSources(t: Transaction, ghost k: NodeId, ghost b: nat)
      requires Valid() && s.First(k) <= b < End(s, toSend, k) && s.InBlock(k, b, t)
      modifies this
      ensures Grown(old(toSend)) && SourcesProvided(s, toSend, t)
      ensures scanned + Unsent(s, toSend) == old(scanned + Unsent(s, toSend))
      decreases Unsent(s, toSend), 2
    {
      ghost var start, done := toSend, {};
      var todo := t.source;
      while todo != {}
        invariant todo <= t.source && forall source | source in t.source :: source in todo || source in done
        invariant Grown(start) && AllProvided(s, toSend, done)
        invariant scanned + Unsent(s, toSend) == old(scanned + Unsent(s, toSend))
        decreases todo
      {
        var source :| source in todo;
        ghost var f := toSend;
        UnsentShrinks(s, start, f);
        ProcessSource(source, t, k, b);
        GrowthTransitive(start, f);
        ProvidedGrows(s, f, toSend, done);
        OneMoreProvided(s, toSend, done, source);
        todo, done := todo - {source}, done + {source};
      }
      ProvidedWithin(s, toSend, t.source, done);
    }

    /** The body of the loop over the sources. */
    method ProcessSource(source: Transaction, ghost t: Transaction, ghost k: NodeId, ghost b: nat)
      requires Valid() && s.First(k) <= b < End(s, toSend, k) && s.InBlock(k, b, t) && source in t.source
      modifies this
      ensures Grown(old(toSend)) && SourceProvided(s, toSend, source)
      ensures scanned + Unsent(s, toSend) == old(scanned + Unsent(s, toSend))
      decreases Unsent(s, toSend), 1
    {
      if source.sender.None? || source.sender.value == s.sender || source.sender.value == s.receiver {
        return;
      }
      var owner := source.sender.value;
      assert s.Located(source);
      var nextCommitted := s.Chain(owner).next[source.block];
      var blocksOfSource := BlocksToSend(s.known, s.receiver, owner, s.Chain(owner).blocks, nextCommitted);
      if blocksOfSource == [] {
        return;
      }
      ghost var f := toSend;
      SentIsSegment(s, owner, nextCommitted);
      SourceForced(s, f, k, b, t, source);
      ProcessBlocks(owner, blocksOfSource, s.Needed(source));
      ForcedTransitive(s, f, Add(f, owner, blocksOfSource), toSend);
    }

    lemma StartsClosed(k: NodeId, begin: nat)
      requires Valid()
      ensures Grown(toSend) && ScanClosed(s, toSend, k, begin, begin)
    {
    }

    lemma GrowthTransitive(start: Family, f: Family)
      requires Grown(f)
      requires Sub(s, start, f) && ClosedBeyond(s, start, f) && Forced(s, start, f)
      ensures Grown(start)
    {
      ClosedBeyondTransitive(s, start, f, toSend);
      ForcedTransitive(s, start, f, toSend);
    }

    /** Scanning the newly added blocks of `owner` closes everything added since `before`. */
    lemma AddedIsClosed(before: Family, owner: NodeId, e: nat)
      requires IsFamily(s, before) && owner in s.nodes && owner != s.receiver
      requires s.First(owner) < e <= |s.Chain(owner).blocks|
      requires var start := Add(before, owner, Segment(s, owner, e));
               && ClosedBeyond(s, start, toSend)
               && ScanClosed(s, toSend, owner, End(s, before, owner), End(s, start, owner))
      ensures ClosedBeyond(s, before, toSend)
    {
      AddGrows(s, before, owner, e);
    }
  }
}
