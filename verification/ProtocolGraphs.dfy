/** The records that the nodes hold, along whole runs: built at the start, extended with
    every own block, and with every proof that is decoded and applied. */
module ProtocolGraphs {
  import opened Ledger
  import opened Protocol
  import opened ProtocolInvariant
  import opened ProtocolSteps
  import opened ProtocolSend
  import opened ProtocolReceive
  import opened ProtocolRuns
  import opened EncodingRoundTrip
  import opened ProtocolEncoding
  import E = Encoding
  import EA = EncodingApplied

  type Graphs = map<NodeId, E.Chains>

  function Of(g: Graphs, n: NodeId): E.Chains {
    if n in g then g[n] else map[]
  }

  // ---- an own block is appended ----

  /** A record that spells out `t`: its pointers lead to the sources of `t`, which the sender has. */
  ghost predicate Locates(own: E.Chains, r: E.Record, t: Transaction) {
    && E.SameFields(r, t)
    && (forall s | s in t.source :: E.OneDenotes(E.Graph(own, map[]), r.source, s))
    && forall l | l in r.source :: E.DenotesSourceOf(E.Graph(own, map[]), l, t)
  }

  function AppendBlock(own: E.Chains, n: NodeId, records: seq<E.Record>): E.Chains {
    var c := E.ChainOf(own, n);
    own[n := c + [E.BlockRecord(|c|, Some(n), if c == [] then None else Some(E.OldBlock(|c| - 1)), records)]]
  }

  ghost predicate Longer(a: E.Chains, b: E.Chains) {
    forall k :: E.ChainOf(a, k) <= E.ChainOf(b, k)
  }

  /** What a location denotes, it goes on denoting. */
  lemma {:induction false} LongerStays(a: E.Chains, b: E.Chains, l: E.Location, t: Transaction)
    requires Longer(a, b) && E.Denotes(E.Graph(a, map[]), l, t)
    ensures E.Denotes(E.Graph(b, map[]), l, t)
    decreases t
  {
    var g, h := E.Graph(a, map[]), E.Graph(b, map[]);
    SameLookup(a, b, l);
    var r := E.Lookup(g, l).value;
    forall s | s in t.source
      ensures E.OneDenotes(h, r.source, s)
    {
      assert E.OneDenotes(g, r.source, s);
      var m :| m in r.source && E.Denotes(g, m, s);
      LongerStays(a, b, m, s);
    }
    forall m | m in r.source
      ensures E.DenotesSourceOf(h, m, t)
    {
      assert E.DenotesSourceOf(g, m, t);
      var s :| s in t.source && E.Denotes(g, m, s);
      LongerStays(a, b, m, s);
    }
    FoundDenotes(h, l, t);
  }

  lemma SameLookup(a: E.Chains, b: E.Chains, l: E.Location)
    requires Longer(a, b) && E.Lookup(E.Graph(a, map[]), l).Some?
    ensures E.Lookup(E.Graph(b, map[]), l) == E.Lookup(E.Graph(a, map[]), l)
  {
    assert E.ChainOf(a, l.owner) <= E.ChainOf(b, l.owner);
  }

  lemma {:induction false} LocatedDenotes(a: E.Chains, b: E.Chains, l: E.Location, r: E.Record, t: Transaction)
    requires Longer(a, b) && Locates(a, r, t) && E.Lookup(E.Graph(b, map[]), l) == Some(r)
    ensures E.Denotes(E.Graph(b, map[]), l, t)
  {
    var g, h := E.Graph(a, map[]), E.Graph(b, map[]);
    forall s | s in t.source
      ensures E.OneDenotes(h, r.source, s)
    {
      assert E.OneDenotes(g, r.source, s);
      var m :| m in r.source && E.Denotes(g, m, s);
      LongerStays(a, b, m, s);
    }
    forall m | m in r.source
      ensures E.DenotesSourceOf(h, m, t)
    {
      assert E.DenotesSourceOf(g, m, t);
      var s :| s in t.source && E.Denotes(g, m, s);
      LongerStays(a, b, m, s);
    }
    FoundDenotes(h, l, t);
  }

  lemma OldBlockStays(a: E.Chains, b: E.Chains, k: NodeId, i: nat, block: Block)
    requires Longer(a, b) && i < |E.ChainOf(a, k)| && SpellsBlock(a, k, i, block)
    ensures i < |E.ChainOf(b, k)| && SpellsBlock(b, k, i, block)
  {
    assert E.ChainOf(a, k) <= E.ChainOf(b, k);
    forall j: nat | j < |block.transactions|
      ensures E.Denotes(E.Graph(b, map[]), E.Old(k, i, j), block.transactions[j])
    {
      LongerStays(a, b, E.Old(k, i, j), block.transactions[j]);
    }
  }

  lemma NewBlockSpells(own: E.Chains, n: NodeId, records: seq<E.Record>, block: Block)
    requires |records| == |block.transactions| && block.number == |E.ChainOf(own, n)|
    requires forall i | 0 <= i < |records| :: Locates(own, records[i], block.transactions[i])
    ensures var b := AppendBlock(own, n, records);
            Longer(own, b) && |E.ChainOf(b, n)| == |E.ChainOf(own, n)| + 1 && SpellsBlock(b, n, |E.ChainOf(own, n)|, block)
  {
    var b, at := AppendBlock(own, n, records), |E.ChainOf(own, n)|;
    forall i: nat | i < |records|
      ensures E.Denotes(E.Graph(b, map[]), E.Old(n, at, i), block.transactions[i])
    {
      LocatedDenotes(own, b, E.Old(n, at, i), records[i], block.transactions[i]);
    }
  }

  lemma AppendSpells(own: E.Chains, copies: Copies, n: NodeId, records: seq<E.Record>, block: Block, after: Copies)
    requires Spells(own, copies) && |records| == |block.transactions| && block.number == |Blocks(copies, n)|
    requires forall i | 0 <= i < |records| :: Locates(own, records[i], block.transactions[i])
    requires forall k :: Blocks(after, k) == if k == n then Blocks(copies, n) + [block] else Blocks(copies, k)
    ensures Spells(AppendBlock(own, n, records), after)
  {
    var b := AppendBlock(own, n, records);
    assert |E.ChainOf(own, n)| == |Blocks(copies, n)|;
    NewBlockSpells(own, n, records, block);
    forall k
      ensures EA.ChainSpells(b, k, Blocks(after, k))
    {
      AppendSpellsChain(own, copies, n, records, block, after, k);
    }
    EA.SpellsAll(b, after);
  }

  lemma AppendSpellsChain(own: E.Chains, copies: Copies, n: NodeId, records: seq<E.Record>, block: Block, after: Copies, k: NodeId)
    requires Spells(own, copies) && block.number == |Blocks(copies, n)| && Longer(own, AppendBlock(own, n, records))
    requires var b := AppendBlock(own, n, records);
             |E.ChainOf(b, n)| == |E.ChainOf(own, n)| + 1 && SpellsBlock(b, n, |E.ChainOf(own, n)|, block)
    requires Blocks(after, k) == if k == n then Blocks(copies, n) + [block] else Blocks(copies, k)
    ensures EA.ChainSpells(AppendBlock(own, n, records), k, Blocks(after, k))
  {
    var b := AppendBlock(own, n, records);
    assert |E.ChainOf(own, k)| == |Blocks(copies, k)| && |E.ChainOf(own, n)| == |Blocks(copies, n)|;
    forall i: nat | i < |Blocks(after, k)|
      ensures i < |E.ChainOf(b, k)| && SpellsBlock(b, k, i, Blocks(after, k)[i])
    {
      if i < |Blocks(copies, k)| {
        assert SpellsBlock(own, k, i, Blocks(copies, k)[i]);
        OldBlockStays(own, b, k, i, Blocks(copies, k)[i]);
      }
    }
  }

  // ---- steps ----

  /** The records of all nodes before and after a step. */
  ghost predicate GraphStep(w: World, a: Action, g: Graphs, h: Graphs)
    requires Enabled(w, a)
  {
    match a
    case Create(n, r, amount, sources) =>
      exists record :: Locates(Of(g, n), record, NewTransaction(w, n, r, amount, sources))
                       && h == g[n := AppendBlock(Of(g, n), n, [record])]
    case AppendEmpty(n) => h == g[n := AppendBlock(Of(g, n), n, [])]
    case Receive(from, to) =>
      if Protocol.Accepted(w, to, Queue(w, from, to)[0]) then AppliesHead(w, from, to, g, h) else h == g
    case _ => h == g
  }

  /** The accepted message travelled as some wire message, was decoded, and was applied. */
  ghost predicate AppliesHead(w: World, n: NodeId, m: NodeId, g: Graphs, h: Graphs)
    requires Queue(w, n, m) != []
  {
    exists wire, updates ::
      && E.IsProofMessage(wire, Queue(w, n, m)[0].main, Queue(w, n, m)[0].updates)
      && E.Decoded(w.state.Keys, Of(g, m), wire, updates)
      && h == g[m := EA.Applied(Of(g, m), updates)]
  }

  ghost predicate AllSpelled(w: World, g: Graphs) {
    forall n | n in w.state :: Spells(Of(g, n), CopiesOf(w, n))
  }

  /** Nobody's blocks change. */
  lemma SameBlocksSpelled(w: World, v: World, g: Graphs)
    requires AllSpelled(w, g) && w.state.Keys == v.state.Keys
    requires forall n, k :: Copy(w, n, k).blocks == Copy(v, n, k).blocks
    ensures AllSpelled(v, g)
  {
    forall n | n in v.state
      ensures Spells(Of(g, n), CopiesOf(v, n))
    {
      forall k
        ensures Blocks(CopiesOf(w, n), k) == Blocks(CopiesOf(v, n), k)
      {
        CopiesOfAt(w, n, k);
        CopiesOfAt(v, n, k);
      }
      SpellsSame(Of(g, n), CopiesOf(w, n), CopiesOf(v, n));
    }
  }

  lemma OthersSpelled(w: World, v: World, g: Graphs, h: Graphs, n: NodeId, a: NodeId)
    requires AllSpelled(w, g) && w.state.Keys == v.state.Keys && a in w.state && a != n && Of(h, a) == Of(g, a)
    requires forall k :: Copy(v, a, k).blocks == Copy(w, a, k).blocks
    ensures Spells(Of(h, a), CopiesOf(v, a))
  {
    forall k
      ensures Blocks(CopiesOf(w, a), k) == Blocks(CopiesOf(v, a), k)
    {
      CopiesOfAt(w, a, k);
      CopiesOfAt(v, a, k);
    }
    SpellsSame(Of(g, a), CopiesOf(w, a), CopiesOf(v, a));
  }

  lemma ExtendedSpelled(w: World, n: NodeId, ts: seq<Transaction>, v: World, g: Graphs, records: seq<E.Record>)
    requires AllSpelled(w, g) && Extended(w, n, ts, v) && |records| == |ts|
    requires forall i | 0 <= i < |ts| :: Locates(Of(g, n), records[i], ts[i])
    ensures AllSpelled(v, g[n := AppendBlock(Of(g, n), n, records)])
  {
    var h := g[n := AppendBlock(Of(g, n), n, records)];
    OwnSpelled(w, n, ts, v, Of(g, n), records);
    forall a | a in v.state && a != n
      ensures Spells(Of(h, a), CopiesOf(v, a))
    {
      OthersSpelled(w, v, g, h, n, a);
    }
  }

  lemma OwnSpelled(w: World, n: NodeId, ts: seq<Transaction>, v: World, own: E.Chains, records: seq<E.Record>)
    requires n in w.state && n in v.state && Extended(w, n, ts, v) && |records| == |ts|
    requires Spells(own, CopiesOf(w, n)) && forall i | 0 <= i < |ts| :: Locates(own, records[i], ts[i])
    ensures Spells(AppendBlock(own, n, records), CopiesOf(v, n))
  {
    forall k
      ensures Blocks(CopiesOf(v, n), k) == if k == n then Blocks(CopiesOf(w, n), n) + [Block(|Own(w, n)|, Some(n), ts)]
                                           else Blocks(CopiesOf(w, n), k)
    {
      CopiesOfAt(w, n, k);
      CopiesOfAt(v, n, k);
    }
    CopiesOfAt(w, n, n);
    AppendSpells(own, CopiesOf(w, n), n, records, Block(|Own(w, n)|, Some(n), ts), CopiesOf(v, n));
  }

  lemma AcceptedSpelled(w: World, n: NodeId, m: NodeId, g: Graphs, wire: E.ProofMessage, updates: E.Chains)
    requires Inv(w) && GenesisNamed(w) && AllSpelled(w, g) && Enabled(w, Receive(n, m))
    requires Protocol.Accepted(w, m, Queue(w, n, m)[0])
    requires E.IsProofMessage(wire, Queue(w, n, m)[0].main, Queue(w, n, m)[0].updates)
    requires E.Decoded(w.state.Keys, Of(g, m), wire, updates)
    ensures AllSpelled(AfterReceive(w, n, m), g[m := EA.Applied(Of(g, m), updates)])
  {
    HeadIsOk(w, n, m);
    HeadApplies(w, n, m, Of(g, m), wire, updates);
    AbsorbedSpelled(w, n, m, g, EA.Applied(Of(g, m), updates));
  }

  lemma AbsorbedSpelled(w: World, n: NodeId, m: NodeId, g: Graphs, applied: E.Chains)
    requires AllSpelled(w, g) && m in w.state && Queue(w, n, m) != [] && Queue(w, n, m)[0].main.sender == Some(n)
    requires Spells(applied, CopiesOf(Absorb(Take(w, n, m), m, Queue(w, n, m)[0]), m))
    ensures AllSpelled(Absorb(Take(w, n, m), m, Queue(w, n, m)[0]), g[m := applied])
  {
    DeliveredFacts(w, n, m);
    OneMoreSpelled(w, Absorb(Take(w, n, m), m, Queue(w, n, m)[0]), m, g, applied);
  }

  lemma OneMoreSpelled(w: World, v: World, m: NodeId, g: Graphs, applied: E.Chains)
    requires AllSpelled(w, g) && w.state.Keys == v.state.Keys && m in v.state && Spells(applied, CopiesOf(v, m))
    requires forall a, k | a != m :: Copy(v, a, k) == Copy(w, a, k)
    ensures AllSpelled(v, g[m := applied])
  {
    var h := g[m := applied];
    forall a | a in v.state && a != m
      ensures Spells(Of(h, a), CopiesOf(v, a))
    {
      OthersSpelled(w, v, g, h, m, a);
    }
  }

  lemma StepSpelled(w: World, a: Action, g: Graphs, h: Graphs)
    requires Inv(w) && GenesisNamed(w) && Enabled(w, a) && AllSpelled(w, g) && GraphStep(w, a, g, h)
    ensures AllSpelled(Apply(w, a), h)
  {
    match a
    case Create(n, r, amount, sources) => CreateSpelled(w, n, r, amount, sources, g, h);
    case AppendEmpty(n) =>
      AppendEmptyFacts(w, n);
      ExtendedSpelled(w, n, [], Apply(w, a), g, []);
    case Receive(from, to) => ReceiveSpelled(w, from, to, g, h);
    case _ =>
      QuietBlocks(w, a);
      SameBlocksSpelled(w, Apply(w, a), g);
  }

  lemma CreateSpelled(w: World, n: NodeId, r: NodeId, amount: nat, sources: set<Transaction>, g: Graphs, h: Graphs)
    requires Enabled(w, Create(n, r, amount, sources)) && AllSpelled(w, g) && GraphStep(w, Create(n, r, amount, sources), g, h)
    ensures AllSpelled(AfterCreate(w, n, r, amount, sources), h)
  {
    var t := NewTransaction(w, n, r, amount, sources);
    var record :| Locates(Of(g, n), record, t) && h == g[n := AppendBlock(Of(g, n), n, [record])];
    CreateFacts(w, n, r, amount, sources);
    OneSpelled(w, n, t, AfterCreate(w, n, r, amount, sources), g, record);
  }

  lemma OneSpelled(w: World, n: NodeId, t: Transaction, v: World, g: Graphs, record: E.Record)
    requires AllSpelled(w, g) && Extended(w, n, [t], v) && Locates(Of(g, n), record, t)
    ensures AllSpelled(v, g[n := AppendBlock(Of(g, n), n, [record])])
  {
    ExtendedSpelled(w, n, [t], v, g, [record]);
  }

  lemma ReceiveSpelled(w: World, n: NodeId, m: NodeId, g: Graphs, h: Graphs)
    requires Inv(w) && GenesisNamed(w) && Enabled(w, Receive(n, m)) && AllSpelled(w, g) && GraphStep(w, Receive(n, m), g, h)
    ensures AllSpelled(AfterReceive(w, n, m), h)
  {
    if Protocol.Accepted(w, m, Queue(w, n, m)[0]) {
      var wire, updates :|
        && E.IsProofMessage(wire, Queue(w, n, m)[0].main, Queue(w, n, m)[0].updates)
        && E.Decoded(w.state.Keys, Of(g, m), wire, updates)
        && h == g[m := EA.Applied(Of(g, m), updates)];
      AcceptedSpelled(w, n, m, g, wire, updates);
    } else {
      ShedFacts(w, n, m);
      SameBlocksSpelled(w, AfterReceive(w, n, m), g);
    }
  }

  /** Committing, learning and sending change nobody's blocks. */
  lemma QuietBlocks(w: World, a: Action)
    requires Enabled(w, a) && !a.Create? && !a.AppendEmpty? && !a.Receive?
    ensures Apply(w, a).state.Keys == w.state.Keys
    ensures forall n, k :: Copy(w, n, k).blocks == Copy(Apply(w, a), n, k).blocks
  {
    match a
    case SendNext(n, updates) =>
      var p := Passed(w, n);
      PassedSame(w, n);
      var ts := Own(w, n)[Sent(w, n) + 1].transactions;
      if ts != [] {
        PostFacts(p, n, ts[0].receiver, Message(ts[0], updates));
      }
    case _ =>
  }

  // ---- runs ----

  function GenesisRecords(g: Block): E.BlockRecord {
    E.BlockRecord(0, None, None, seq(|g.transactions|, i requires 0 <= i < |g.transactions| =>
      var t := g.transactions[i];
      E.Record(t.number, t.sender, Some(t.receiver), t.amount, t.remainder, t.block, E.MessageOf(t), {})))
  }

  ghost predicate StartsWith(w: World, g: Graphs) {
    forall n | n in w.state :: Of(g, n) == map[n := [GenesisRecords(w.genesis)]]
  }

  lemma StartSpelled(w: World, g: Graphs)
    requires Init(w) && StartsWith(w, g)
    ensures AllSpelled(w, g)
  {
    forall n | n in w.state
      ensures Spells(Of(g, n), CopiesOf(w, n))
    {
      GenesisSpelled(w, g, n);
    }
  }

  lemma GenesisSpelled(w: World, g: Graphs, n: NodeId)
    requires Init(w) && StartsWith(w, g) && n in w.state
    ensures Spells(Of(g, n), CopiesOf(w, n))
  {
    var own := Of(g, n);
    forall i: nat | i < |w.genesis.transactions|
      ensures E.Denotes(E.Graph(own, map[]), E.Old(n, 0, i), w.genesis.transactions[i])
    {
      assert w.genesis.transactions[i] in w.genesis.transactions;
      FoundDenotes(E.Graph(own, map[]), E.Old(n, 0, i), w.genesis.transactions[i]);
    }
    forall k
      ensures EA.ChainSpells(own, k, Blocks(CopiesOf(w, n), k))
    {
    }
    EA.SpellsAll(own, CopiesOf(w, n));
  }

  /** A run together with the records of all nodes at every moment. */
  ghost predicate GraphRun(w: World, actions: seq<Action>, gs: seq<Graphs>)
    requires IsRun(w, actions)
    decreases |actions|
  {
    && |gs| == |actions| + 1
    && (actions == [] || (GraphStep(w, actions[0], gs[0], gs[1]) && GraphRun(Apply(w, actions[0]), actions[1..], gs[1..])))
  }

  lemma StepKeepsGenesis(w: World, a: Action)
    requires Enabled(w, a)
    ensures Apply(w, a).genesis == w.genesis && Apply(w, a).state.Keys == w.state.Keys
  {
  }

  /** In every run, the records of every node spell out its copies. */
  lemma {:induction false} GraphsFollowRuns(w: World, actions: seq<Action>, gs: seq<Graphs>)
    requires Inv(w) && GenesisNamed(w) && IsRun(w, actions) && GraphRun(w, actions, gs) && AllSpelled(w, gs[0])
    ensures AllSpelled(Outcome(w, actions), gs[|actions|]) && GenesisNamed(Outcome(w, actions))
    decreases |actions|
  {
    if actions != [] {
      StepKeeps(w, actions[0]);
      StepKeepsGenesis(w, actions[0]);
      StepSpelled(w, actions[0], gs[0], gs[1]);
      GraphsFollowRuns(Apply(w, actions[0]), actions[1..], gs[1..]);
    }
  }

  /** The main transaction and all that comes with it spell out what was sent. */
  ghost predicate ComesOut(g: E.Graph, main: Option<E.Location>, msg: Message) {
    && main.Some? && E.Denotes(g, main.value, msg.main)
    && forall k, b: nat, i: nat | b < |Blocks(msg.updates, k)| && i < |Blocks(msg.updates, k)[b].transactions| ::
         E.Denotes(g, E.New(k, b, i), Blocks(msg.updates, k)[b].transactions[i])
  }

  /** After any run, with the records that the nodes then have: the first message of a channel
      decodes on the wire exactly when the protocol takes it to decode, and then every
      transaction of it comes out as it went in. */
  lemma {:induction false} MessagesSurviveTheWire(w: World, actions: seq<Action>, gs: seq<Graphs>, v: World, n: NodeId, m: NodeId,
                               wire: E.ProofMessage, updates: E.Chains)
    requires Init(w) && GenesisNamed(w) && IsRun(w, actions) && v == Outcome(w, actions)
    requires |gs| == |actions| + 1 && m in v.state && Queue(v, n, m) != []
    requires GraphRun(w, actions, gs) && StartsWith(w, gs[0])
    requires E.IsProofMessage(wire, Queue(v, n, m)[0].main, Queue(v, n, m)[0].updates)
    ensures wire.transaction.senderId == n
    ensures var own, msg := Of(gs[|actions|], m), Queue(v, n, m)[0];
            var main := E.Main(v.state.Keys, own, wire, SenderViewIsValid(v, n, m, msg));
            && (Decodes(v, m, msg) <==> E.Decodable(v.state.Keys, own, wire) && main.Some?)
            && (Decodes(v, m, msg) && E.Decoded(v.state.Keys, own, wire, updates) ==> ComesOut(E.Graph(own, updates), main, msg))
  {
    RunEndsIn(w, actions, v);
    InitHolds(w);
    StartSpelled(w, gs[0]);
    GraphsFollowRuns(w, actions, gs);
    var own := Of(gs[|actions|], m);
    DecodesIff(v, n, m, own, wire);
    if Decodes(v, m, Queue(v, n, m)[0]) && E.Decoded(v.state.Keys, own, wire, updates) {
      HeadDecodes(v, n, m, own, wire, updates);
    }
  }
}
