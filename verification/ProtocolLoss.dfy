/** What one early message does: a concrete run of two nodes, and what follows from it. */
module ProtocolLoss {
  import opened Ledger
  import opened ChainReach
  import opened Replicas
  import CR = ChainReplication
  import opened Validation
  import opened Protocol
  import opened ProtocolInvariant
  import opened ProtocolSteps
  import opened ProtocolSend
  import opened ProtocolDelivery
  import opened ProtocolReceive
  import opened ProtocolIntact
  import opened ProtocolRuns
  import PC = ProofConstruction
  import Sending

  /** When the receiver misses the end of what it is taken to know of the sender's chain, the
      next transaction sent to it does not decode. */
  lemma NextAfterLossIsDropped(w: World, n: NodeId, m: NodeId, updates: PC.Family, t: Transaction)
    requires Inv(w) && Enabled(w, SendNext(n, updates)) && m in w.state
    requires Own(w, n)[Sent(w, n) + 1].transactions == [t] && t.receiver == m
    requires |Copy(w, m, n).blocks| <= t.block && |Copy(w, m, n).blocks| <= LastKnown(Known(w, n, m), n)
    ensures var v := AfterSend(w, n, updates);
            !Decodes(v, m, Message(t, updates))
  {
    var p, ts := Passed(w, n), Own(w, n)[Sent(w, n) + 1].transactions;
    assert AfterSend(w, n, updates) == Shipped(p, n, ts, updates);
    assert ts == [t];
    SendIsReady(w, n, updates);
    PassedKeeps(w, n);
    PassedSame(w, n);
    PostAfterLoss(p, n, t, updates);
  }

  lemma PostAfterLoss(p: World, n: NodeId, t: Transaction, updates: PC.Family)
    requires ChainsOk(p) && CopiesOk(p) && Proven(p, n, t, updates) && t.receiver in p.state
    requires |Copy(p, t.receiver, n).blocks| <= t.block && |Copy(p, t.receiver, n).blocks| <= LastKnown(Known(p, n, t.receiver), n)
    ensures var v := Post(p, n, t.receiver, Message(t, updates));
            t.receiver in v.state && !Decodes(v, t.receiver, Message(t, updates))
  {
    if n in updates {
      NewSegmentStart(p, n, t, updates, n);
    }
    PostFacts(p, n, t.receiver, Message(t, updates));
    LostIsNotFound(Post(p, n, t.receiver, Message(t, updates)), n, t.receiver, Message(t, updates));
  }

  lemma LostIsNotFound(v: World, n: NodeId, m: NodeId, msg: Message)
    requires m in v.state && msg.main.sender == Some(n) && |Copy(v, m, n).blocks| <= msg.main.block
    requires n in msg.updates ==> msg.updates[n] != [] && msg.updates[n][0].number > |Copy(v, m, n).blocks|
    ensures !Decodes(v, m, msg)
  {
    if n in msg.updates {
      assert !AttachesIn(v.state[m], msg.updates, n);
    }
  }

  // ---- traces ----

  /** A run with the worlds that it passes through. */
  ghost predicate IsTrace(ws: seq<World>, actions: seq<Action>) {
    && |ws| == |actions| + 1
    && forall i | 0 <= i < |actions| :: Enabled(ws[i], actions[i]) && Apply(ws[i], actions[i]) == ws[i + 1]
  }

  lemma Extend(ws: seq<World>, actions: seq<Action>, a: Action, v: World)
    requires IsTrace(ws, actions) && Enabled(ws[|actions|], a) && Apply(ws[|actions|], a) == v
    ensures IsTrace(ws + [v], actions + [a])
  {
  }

  lemma {:induction false} TraceIsRun(ws: seq<World>, actions: seq<Action>)
    requires IsTrace(ws, actions)
    ensures IsRun(ws[0], actions) && Outcome(ws[0], actions) == ws[|actions|]
    decreases |actions|
  {
    if actions != [] {
      TailIsTrace(ws, actions);
      TraceIsRun(ws[1..], actions[1..]);
    }
  }

  lemma TailIsTrace(ws: seq<World>, actions: seq<Action>)
    requires IsTrace(ws, actions) && actions != []
    ensures Enabled(ws[0], actions[0]) && Apply(ws[0], actions[0]) == ws[1] && IsTrace(ws[1..], actions[1..])
  {
    forall i | 0 <= i < |actions[1..]|
      ensures Enabled(ws[1..][i], actions[1..][i]) && Apply(ws[1..][i], actions[1..][i]) == ws[1..][i + 1]
    {
      assert ws[1..][i] == ws[i + 1] && actions[1..][i] == actions[i + 1] && ws[1..][i + 1] == ws[i + 2];
    }
  }

  lemma {:induction false} TraceUnsafe(ws: seq<World>, actions: seq<Action>, n: NodeId, m: NodeId)
    requires IsTrace(ws, actions) && !Safe(ws[|actions|], n, m)
    ensures IsRun(ws[0], actions) && !AlwaysSafe(ws[0], actions, n, m)
    decreases |actions|
  {
    if actions != [] {
      TailIsTrace(ws, actions);
      TraceUnsafe(ws[1..], actions[1..], n, m);
    }
  }

  /** Without receiving there is nothing early. */
  lemma {:induction false} QuietIsNeverEarly(w: World, actions: seq<Action>, n: NodeId, m: NodeId)
    requires IsRun(w, actions) && forall i | 0 <= i < |actions| :: !actions[i].Receive?
    ensures NeverEarly(w, actions, n, m)
    decreases |actions|
  {
    if actions != [] {
      assert !actions[0].Receive?;
      QuietIsNeverEarly(Apply(w, actions[0]), actions[1..], n, m);
    }
  }

  lemma QuietIsIntact(ws: seq<World>, actions: seq<Action>, n: NodeId, m: NodeId)
    requires IsTrace(ws, actions) && Init(ws[0]) && forall i | 0 <= i < |actions| :: !actions[i].Receive?
    ensures Inv(ws[|actions|]) && Intact(ws[|actions|], n, m)
  {
    var w := ws[0];
    TraceIsRun(ws, actions);
    InitHolds(w);
    RunKeeps(w, actions);
    QuietIsNeverEarly(w, actions, n, m);
    IntactIff(w, actions, n, m);
  }

  lemma {:induction false} TwoMore(ws: seq<World>, actions: seq<Action>, a: Action, w: World, b: Action, v: World)
    requires IsTrace(ws, actions) && Enabled(ws[|actions|], a) && Apply(ws[|actions|], a) == w && Enabled(w, b) && Apply(w, b) == v
    ensures IsRun(ws[0], actions + [a]) && w == Outcome(ws[0], actions + [a])
    ensures IsRun(ws[0], actions + [a] + [b]) && v == Outcome(ws[0], actions + [a] + [b])
  {
    Extend(ws, actions, a, w);
    Extend(ws + [w], actions + [a], b, v);
    TraceIsRun(ws + [w], actions + [a]);
    TraceIsRun(ws + [w] + [v], actions + [a] + [b]);
  }

  // ---- the run: two payments, each committed, and one more commit ----

  const GRANT := Transaction(0, None, 0, 10, 0, 0, {})
  const GENESIS := Block(0, None, [GRANT])
  const FIRST := Transaction(1, Some(0), 1, 4, 6, 1, {GRANT})
  const SECOND := Transaction(2, Some(0), 1, 2, 4, 2, {FIRST})
  const BLOCK1 := Block(1, Some(0), [FIRST])
  const BLOCK2 := Block(2, Some(0), [SECOND])
  const BLOCK3 := Block(3, Some(0), [])

  function Fresh(n: NodeId): NodeState {
    NodeState(map[n := Replica([GENESIS], [0])], map[], 0, 1, if n == 0 then {GRANT} else {}, {}, {GENESIS})
  }

  function Payer(blocks: seq<Block>, next: seq<int>, id: nat, unspent: set<Transaction>, cache: set<Block>): NodeState {
    NodeState(map[0 := Replica(blocks, next)], map[], 0, id, unspent, {}, cache)
  }

  function At(p: NodeState, mainChain: set<Block>): World {
    World(map[0 := p, 1 := Fresh(1)], map[], mainChain, GENESIS)
  }

  function Start(): World { At(Fresh(0), {GENESIS}) }

  const COMMIT := Commit(0, true)
  const PAY1 := Create(0, 1, 4, {GRANT})
  const PAY2 := Create(0, 1, 2, {FIRST})
  const PROOF1: PC.Family := map[0 := [GENESIS, BLOCK1]]
  const PROOF2: PC.Family := map[0 := [BLOCK2]]
  const SEND1 := SendNext(0, PROOF1)
  const SEND2 := SendNext(0, PROOF2)
  const HANDLE := Receive(0, 1)

  function Prepare(): seq<Action> {
    [PAY1, COMMIT, PAY2, COMMIT, AppendEmpty(0), COMMIT, Learn(0, BLOCK1), Learn(0, BLOCK2), Learn(0, BLOCK3)]
  }

  function Chain(): seq<Block> { [GENESIS, BLOCK1, BLOCK2, BLOCK3] }

  /** The payer when it has seen all its commits. */
  function Prepared(): World {
    At(Payer(Chain(), [0, 1, 2, 3], 3, {SECOND}, {GENESIS, BLOCK1, BLOCK2, BLOCK3}), {GENESIS, BLOCK1, BLOCK2, BLOCK3})
  }

  // ---- its steps ----

  lemma PayStep(blocks: seq<Block>, next: seq<int>, id: nat, source: Transaction, cache: set<Block>, main: set<Block>,
                amount: nat, t: Transaction)
    requires |blocks| == |next| && Contribution(0, source) >= amount
    requires t == Transaction(id, Some(0), 1, amount, Contribution(0, source) - amount, |blocks|, {source}) && t.remainder > 0
    ensures var w, a := At(Payer(blocks, next, id, {source}, cache), main), Create(0, 1, amount, {source});
            && Enabled(w, a)
            && Apply(w, a) == At(Payer(blocks + [Block(|blocks|, Some(0), [t])], next + [-1], id + 1, {t}, cache), main)
  {
    var w := At(Payer(blocks, next, id, {source}, cache), main);
    SumPick({source}, ContributionOf(0), source);
    assert {source} - {source} == {};
    assert Sum({source}, ContributionOf(0)) == Contribution(0, source);
    assert NewTransaction(w, 0, 1, amount, {source}) == t;
    var v := AfterCreate(w, 0, 1, amount, {source});
    var p := Payer(blocks + [Block(|blocks|, Some(0), [t])], next + [-1], id + 1, {t}, cache);
    assert {source} - {source} + {t} == {t};
    assert v.state[0].copies == p.copies;
    assert v.state == At(p, main).state;
  }

  lemma EmptyStep(blocks: seq<Block>, next: seq<int>, id: nat, unspent: set<Transaction>, cache: set<Block>, main: set<Block>)
    requires |blocks| == |next|
    ensures var w := At(Payer(blocks, next, id, unspent, cache), main);
            && Enabled(w, AppendEmpty(0))
            && Apply(w, AppendEmpty(0)) == At(Payer(blocks + [Block(|blocks|, Some(0), [])], next + [-1], id, unspent, cache), main)
  {
    var w := At(Payer(blocks, next, id, unspent, cache), main);
    var p := Payer(blocks + [Block(|blocks|, Some(0), [])], next + [-1], id, unspent, cache);
    var v := Apply(w, AppendEmpty(0));
    assert v.state[0].copies == p.copies;
    assert v.state == At(p, main).state;
  }

  /** The tip is committed; all blocks before it are. */
  lemma CommitStep(blocks: seq<Block>, next: seq<int>, after: seq<int>, id: nat, unspent: set<Transaction>,
                   cache: set<Block>, main: set<Block>)
    requires |blocks| == |next| > 0 && next[|next| - 1] == -1
    requires after == next[|next| - 1 := |next| - 1] && forall i | 0 <= i < |next| - 1 :: next[i] != -1
    ensures var w := At(Payer(blocks, next, id, unspent, cache), main);
            && Enabled(w, COMMIT)
            && Apply(w, COMMIT) == At(Payer(blocks, after, id, unspent, cache), main + {blocks[|blocks| - 1]})
  {
    var w := At(Payer(blocks, next, id, unspent, cache), main);
    var p := Payer(blocks, after, id, unspent, cache);
    OnlyTip(next, after);
    var v := Apply(w, COMMIT);
    assert v.state[0].copies == p.copies;
    assert v.state == At(p, main).state;
  }

  lemma OnlyTip(next: seq<int>, after: seq<int>)
    requires next != [] && after == next[|next| - 1 := |next| - 1] && forall i | 0 <= i < |next| - 1 :: next[i] != -1
    ensures CR.CommitNext(next, |next| - 1) == after
  {
    var c, made := |next| - 1, CR.CommitNext(next, |next| - 1);
    forall i | 0 <= i < |next|
      ensures made[i] == after[i]
    {
      assert i < c ==> next[i] != -1;
    }
  }

  lemma LearnStep(p: NodeState, main: set<Block>, block: Block)
    requires block in main
    ensures var w := At(p, main);
            Enabled(w, Learn(0, block)) && Apply(w, Learn(0, block)) == At(p.(cache := p.cache + {block}), main)
  {
    var v := Apply(At(p, main), Learn(0, block));
    assert v.state == At(p.(cache := p.cache + {block}), main).state;
  }

  // ---- up to the sends ----

  function Base(): World {
    At(Payer([GENESIS, BLOCK1], [0, 1], 2, {FIRST}, {GENESIS}), {GENESIS, BLOCK1})
  }

  lemma FirstRound() returns (ws: seq<World>)
    ensures IsTrace(ws, [PAY1, COMMIT]) && ws[0] == Start() && ws[2] == Base()
  {
    PayStep([GENESIS], [0], 1, GRANT, {GENESIS}, {GENESIS}, 4, FIRST);
    assert [GENESIS] + [BLOCK1] == [GENESIS, BLOCK1] && [0] + [-1] == [0, -1];
    CommitStep([GENESIS, BLOCK1], [0, -1], [0, 1], 2, {FIRST}, {GENESIS}, {GENESIS});
    assert {GENESIS} + {BLOCK1} == {GENESIS, BLOCK1};
    ws := [Start(), At(Payer([GENESIS, BLOCK1], [0, -1], 2, {FIRST}, {GENESIS}), {GENESIS}), Base()];
  }

  function Second(): World {
    At(Payer([GENESIS, BLOCK1, BLOCK2], [0, 1, 2], 3, {SECOND}, {GENESIS}), {GENESIS, BLOCK1, BLOCK2})
  }

  lemma SecondRound() returns (ws: seq<World>)
    ensures IsTrace(ws, [PAY2, COMMIT]) && ws[0] == Base() && ws[2] == Second()
  {
    var main, more := {GENESIS, BLOCK1}, {GENESIS, BLOCK1, BLOCK2};
    var blocks := [GENESIS, BLOCK1, BLOCK2];
    PayStep([GENESIS, BLOCK1], [0, 1], 2, FIRST, {GENESIS}, main, 2, SECOND);
    assert [GENESIS, BLOCK1] + [BLOCK2] == blocks && [0, 1] + [-1] == [0, 1, -1];
    CommitStep(blocks, [0, 1, -1], [0, 1, 2], 3, {SECOND}, {GENESIS}, main);
    assert main + {BLOCK2} == more;
    ws := [Base(), At(Payer(blocks, [0, 1, -1], 3, {SECOND}, {GENESIS}), main), Second()];
  }

  function Third(): World {
    At(Payer(Chain(), [0, 1, 2, 3], 3, {SECOND}, {GENESIS}), {GENESIS, BLOCK1, BLOCK2, BLOCK3})
  }

  lemma ThirdRound() returns (ws: seq<World>)
    ensures IsTrace(ws, [AppendEmpty(0), COMMIT]) && ws[0] == Second() && ws[2] == Third()
  {
    var main := {GENESIS, BLOCK1, BLOCK2};
    var blocks := [GENESIS, BLOCK1, BLOCK2];
    EmptyStep(blocks, [0, 1, 2], 3, {SECOND}, {GENESIS}, main);
    assert blocks + [BLOCK3] == Chain() && [0, 1, 2] + [-1] == [0, 1, 2, -1];
    CommitStep(Chain(), [0, 1, 2, -1], [0, 1, 2, 3], 3, {SECOND}, {GENESIS}, main);
    assert main + {BLOCK3} == {GENESIS, BLOCK1, BLOCK2, BLOCK3};
    ws := [Second(), At(Payer(Chain(), [0, 1, 2, -1], 3, {SECOND}, {GENESIS}), main), Third()];
  }

  lemma LearnRound() returns (ws: seq<World>)
    ensures IsTrace(ws, [Learn(0, BLOCK1), Learn(0, BLOCK2), Learn(0, BLOCK3)]) && ws[0] == Third() && ws[3] == Prepared()
  {
    var main := {GENESIS, BLOCK1, BLOCK2, BLOCK3};
    var p := Payer(Chain(), [0, 1, 2, 3], 3, {SECOND}, {GENESIS});
    var q := p.(cache := p.cache + {BLOCK1});
    var r := q.(cache := q.cache + {BLOCK2});
    LearnStep(p, main, BLOCK1);
    LearnStep(q, main, BLOCK2);
    LearnStep(r, main, BLOCK3);
    assert r.cache + {BLOCK3} == main;
    ws := [Third(), At(q, main), At(r, main), Prepared()];
  }

  lemma Join(a: seq<World>, p: seq<Action>, b: seq<World>, q: seq<Action>)
    requires IsTrace(a, p) && IsTrace(b, q) && a[|p|] == b[0]
    ensures IsTrace(a + b[1..], p + q)
  {
    var ws := a + b[1..];
    forall i | 0 <= i < |p + q|
      ensures Enabled(ws[i], (p + q)[i]) && Apply(ws[i], (p + q)[i]) == ws[i + 1]
    {
      if i < |p| {
        assert ws[i] == a[i] && ws[i + 1] == a[i + 1] && (p + q)[i] == p[i];
      } else {
        assert ws[i] == b[i - |p|] && ws[i + 1] == b[i - |p| + 1] && (p + q)[i] == q[i - |p|];
      }
    }
  }

  lemma PrepareTrace() returns (ws: seq<World>)
    ensures IsTrace(ws, Prepare()) && ws[0] == Start() && ws[9] == Prepared()
  {
    var a := FirstRound();
    var b := SecondRound();
    var c := ThirdRound();
    var d := LearnRound();
    Join(a, [PAY1, COMMIT], b, [PAY2, COMMIT]);
    Join(c, [AppendEmpty(0), COMMIT], d, [Learn(0, BLOCK1), Learn(0, BLOCK2), Learn(0, BLOCK3)]);
    var front, back := [PAY1, COMMIT] + [PAY2, COMMIT],
                       [AppendEmpty(0), COMMIT] + [Learn(0, BLOCK1), Learn(0, BLOCK2), Learn(0, BLOCK3)];
    Join(a + b[1..], front, c + d[1..], back);
    assert front + back == Prepare();
    ws := (a + b[1..]) + (c + d[1..])[1..];
  }

  lemma StartIsInit()
    ensures Init(Start())
  {
  }

  // ---- the sends ----

  /** Which own blocks are committed, and which of those we have seen on the main chain. */
  function MarksOf(w: World, n: NodeId): seq<bool> {
    seq(|Copy(w, n, n).next|, i requires 0 <= i < |Copy(w, n, n).next| => Copy(w, n, n).next[i] == i)
  }

  function SeenOf(w: World, n: NodeId): set<nat> {
    set b: nat | b < |Own(w, n)| && n in w.state && Own(w, n)[b] in w.state[n].cache
  }

  /** With three commits seen, a pass of the sender sends exactly the first two blocks. */
  lemma PassSendsBoth()
    ensures Sending.AfterPass(MarksOf(Prepared(), 0), SeenOf(Prepared(), 0), Sent(Prepared(), 0)) == 2
  {
    var marks, seen := MarksOf(Prepared(), 0), SeenOf(Prepared(), 0);
    assert marks == [true, true, true, true];
    assert Own(Prepared(), 0) == Chain();
    assert 1 in seen && 2 in seen && 3 in seen;
    assert Sending.Released(marks, seen, 0, 2, 3);
    Sending.PassSendsIff(marks, seen, 0, 2);
    Sending.PassSendsIff(marks, seen, 0, 3);
  }

  /** For this chain the proof of a block is the part of it that the receiver does not know. */
  lemma ProofIsLeast(s: PC.Setting, b: nat, f: PC.Family)
    requires s.sender == 0 && s.receiver == 1 && 0 in s.nodes && b <= 3 && s.First(0) <= b
    requires s.Chain(0) == Replica(Chain(), [0, 1, 2, 3])
    requires f == map[0 := PC.Segment(s, 0, b + 1)]
    ensures PC.IsProof(s, b, f)
  {
    assert s.Chain(0).next[b] == b;
    OnlyOwnEnds(s, b, f);
    ProofIsClosed(s, f);
    ClosedIsProof(s, b, f);
  }

  lemma OnlyOwnEnds(s: PC.Setting, b: nat, f: PC.Family)
    requires s.First(s.sender) <= b < |s.Chain(s.sender).blocks| && f == map[s.sender := PC.Segment(s, s.sender, b + 1)]
    ensures PC.End(s, f, s.sender) == b + 1 && forall k | k != s.sender :: PC.End(s, f, k) == s.First(k)
  {
  }

  /** When the sender's own segment is closed, nothing less will do. */
  lemma ClosedIsProof(s: PC.Setting, b: nat, f: PC.Family)
    requires s.sender in s.nodes && s.sender != s.receiver && f == map[s.sender := PC.Segment(s, s.sender, b + 1)]
    requires s.First(s.sender) <= b < |s.Chain(s.sender).blocks| == |s.Chain(s.sender).next| && s.Chain(s.sender).next[b] == b
    requires PC.End(s, f, s.sender) == b + 1 && (forall k | k != s.sender :: PC.End(s, f, k) == s.First(k))
    requires PC.Closed(s, f)
    ensures PC.IsProof(s, b, f)
  {
    var own := PC.Segment(s, s.sender, b + 1);
    assert |own| > 0;
    assert PC.CommittedEnd(s, s.sender, b + 1);
    assert PC.IsFamily(s, f) && PC.EndsCommitted(s, f);
    forall g | b < PC.End(s, g, s.sender)
      ensures PC.Sub(s, f, g)
    {
    }
  }

  lemma ProofIsClosed(s: PC.Setting, f: PC.Family)
    requires s.sender == 0 && s.Chain(0) == Replica(Chain(), [0, 1, 2, 3])
    requires forall k | k != 0 :: PC.End(s, f, k) == s.First(k)
    ensures PC.Closed(s, f)
  {
    forall k, b: nat | PC.End(s, map[], k) <= b < PC.End(s, f, k)
      ensures PC.BlockClosed(s, f, k, b)
    {
      forall t, source | s.InBlock(k, b, t) && source in t.source
        ensures PC.SourceProvided(s, f, source)
      {
        assert t in [GRANT] || t in [FIRST] || t in [SECOND];
      }
    }
  }

  /** The payer has all blocks and commits, and has sent up to `sent`. */
  ghost predicate AtPayer(w: World, sent: nat, known: Knowledge) {
    && 0 in w.state && 1 in w.state && w.genesis == GENESIS
    && Copy(w, 0, 0) == Replica(Chain(), [0, 1, 2, 3]) && Sent(w, 0) == sent
    && w.state[0].cache == {GENESIS, BLOCK1, BLOCK2, BLOCK3}
    && Known(w, 0, 1) == known
  }

  lemma Send1Step()
    ensures AtPayer(Prepared(), 0, map[]) && Enabled(Prepared(), SEND1)
  {
    var w := Prepared();
    assert Copy(w, 0, 0) == Replica(Chain(), [0, 1, 2, 3]) && Known(w, 0, 1) == map[];
    FirstMaySend(w);
  }

  lemma FirstMaySend(w: World)
    requires AtPayer(w, 0, map[])
    ensures Enabled(w, SEND1)
  {
    var s := SettingOf(w, 0, 1);
    assert s.Chain(0) == Replica(Chain(), [0, 1, 2, 3]) && s.First(0) == 0;
    assert PC.Segment(s, 0, 2) == [GENESIS, BLOCK1];
    ProofIsLeast(s, 1, PROOF1);
  }

  lemma Send2Step(w: World)
    requires AtPayer(w, 1, map[0 := 1])
    ensures Enabled(w, SEND2)
  {
    var s := SettingOf(w, 0, 1);
    assert s.Chain(0) == Replica(Chain(), [0, 1, 2, 3]) && s.First(0) == 2;
    assert PC.Segment(s, 0, 3) == [BLOCK2];
    ProofIsLeast(s, 2, PROOF2);
  }

  /** The message is on its way, and node 1 knows nothing of the payment. */
  ghost predicate OnItsWay(w: World) {
    && AtPayer(w, 1, map[0 := 1])
    && w.state[1] == Fresh(1) && Queue(w, 0, 1) == [Message(FIRST, PROOF1)]
  }

  lemma SentFacts(w: World)
    requires AtPayer(w, 0, map[]) && w.state[1] == Fresh(1) && Queue(w, 0, 1) == [] && MaySend(w, 0)
    ensures OnItsWay(AfterSend(w, 0, PROOF1))
  {
    assert Own(w, 0)[1].transactions == [FIRST];
    var v := Post(Passed(w, 0), 0, 1, Message(FIRST, PROOF1));
    assert AfterSend(w, 0, PROOF1) == v;
    assert LearnFrom(map[], 1, PROOF1) == map[0 := 1];
  }

  lemma ReceiveStep(w: World)
    requires OnItsWay(w)
    ensures Enabled(w, HANDLE) && Early(w, HANDLE, 0, 1)
  {
    var msg := Message(FIRST, PROOF1);
    assert SegmentEnd(msg, 0) == 2 && Copy(w, 1, 0) == Replica([], []);
    assert !CommitShows(w, 1, msg, FIRST);
  }

  /** Node 1 has handled its message, and has nothing. */
  ghost predicate Lost(w: World) {
    && AtPayer(w, 1, map[0 := 1])
    && Copy(w, 1, 0) == Replica([], []) && Queue(w, 0, 1) == [] && SECOND !in Received(w, 1)
  }

  lemma LostFacts(w: World)
    requires OnItsWay(w) && Enabled(w, HANDLE) && !Protocol.Accepted(w, 1, Queue(w, 0, 1)[0])
    ensures Lost(AfterReceive(w, 0, 1))
  {
    var v := AfterReceive(w, 0, 1);
    ShedFacts(w, 0, 1);
    assert Copy(v, 0, 0) == Copy(w, 0, 0) && Copy(v, 1, 0) == Copy(w, 1, 0) && Known(v, 0, 1) == Known(w, 0, 1);
    assert v.state[0].cache == w.state[0].cache && Sent(v, 0) == Sent(w, 0);
    assert Received(w, 1) == {};
  }

  // ---- the first payment ----

  function Actions(): seq<Action> {
    Prepare() + [SEND1] + [HANDLE]
  }

  lemma UpToSend() returns (ws: seq<World>)
    ensures IsTrace(ws, Prepare() + [SEND1]) && ws[0] == Start() && OnItsWay(ws[10])
    ensures Init(Start()) && Inv(ws[10]) && Intact(ws[10], 0, 1)
  {
    ws := SendTrace();
    StartIsInit();
    NothingReceived();
    QuietIsIntact(ws, Prepare() + [SEND1], 0, 1);
  }

  lemma SendTrace() returns (ws: seq<World>)
    ensures IsTrace(ws, Prepare() + [SEND1]) && ws[0] == Start() && OnItsWay(ws[10])
  {
    var pre := PrepareTrace();
    var v := FirstSent();
    Extend(pre, Prepare(), SEND1, v);
    ws := pre + [v];
  }

  lemma FirstSent() returns (v: World)
    ensures Enabled(Prepared(), SEND1) && v == Apply(Prepared(), SEND1) && OnItsWay(v)
  {
    var w := Prepared();
    Send1Step();
    NothingSentYet();
    SentFacts(w);
    v := AfterSend(w, 0, PROOF1);
  }

  lemma NothingSentYet()
    ensures Prepared().state[1] == Fresh(1) && Queue(Prepared(), 0, 1) == []
  {
  }

  lemma NothingReceived()
    ensures forall i | 0 <= i < |Prepare() + [SEND1]| :: !(Prepare() + [SEND1])[i].Receive?
  {
  }

  lemma Handled() returns (ws: seq<World>)
    ensures IsTrace(ws, Actions()) && ws[0] == Start() && Lost(ws[11]) && Inv(ws[11]) && !Safe(ws[11], 0, 1)
  {
    ws := UpToSend();
    var w, v := ws[10], AfterReceive(ws[10], 0, 1);
    ReceiveStep(w);
    HandledFacts(w, v);
    Extend(ws, Prepare() + [SEND1], HANDLE, v);
    ws := ws + [v];
  }

  lemma HandledFacts(w: World, v: World)
    requires Inv(w) && Intact(w, 0, 1) && OnItsWay(w) && Enabled(w, HANDLE) && Early(w, HANDLE, 0, 1)
    requires v == AfterReceive(w, 0, 1)
    ensures Lost(v) && Inv(v) && !Safe(v, 0, 1)
  {
    ReceiveKeeps(w, 0, 1);
    ReceiveIntact(w, 0, 1, 0, 1);
    IntactDecodes(w, 0, 1);
    HeadAcceptedIff(w, 0, 1);
    LostFacts(w);
  }

  /** Node 0 pays node 1 twice and commits; node 1 has not seen a commit when the first proof
      arrives.  It is refused, and from then on node 0 is wrong about what node 1 has. */
  lemma EarlyMessageBreaksChannel() returns (v: World)
    ensures Init(Start()) && IsRun(Start(), Actions()) && v == Outcome(Start(), Actions())
    ensures Queue(v, 0, 1) == [] && !KnownOk(v, 0, 1) && !AlwaysSafe(Start(), Actions(), 0, 1)
  {
    var ws := Handled();
    StartIsInit();
    TraceIsRun(ws, Actions());
    TraceUnsafe(ws, Actions(), 0, 1);
    v := ws[11];
  }

  // ---- the second payment ----

  /** The second payment, whose proof starts where the first one ended, does not even decode:
      node 1 drops it without a trace. */
  lemma SecondPaymentIsDropped() returns (w: World, v: World)
    ensures IsRun(Start(), Actions() + [SEND2]) && w == Outcome(Start(), Actions() + [SEND2])
    ensures 1 in w.state && Queue(w, 0, 1) == [Message(SECOND, PROOF2)] && !Decodes(w, 1, Message(SECOND, PROOF2))
    ensures IsRun(Start(), Actions() + [SEND2] + [HANDLE]) && v == Outcome(Start(), Actions() + [SEND2] + [HANDLE])
    ensures v.state == w.state && SECOND !in Received(v, 1) && Queue(v, 0, 1) == []
  {
    var ws := Handled();
    var u := ws[11];
    Send2Step(u);
    w := AfterSend(u, 0, PROOF2);
    SecondFacts(u, w);
    v := AfterReceive(w, 0, 1);
    SecondDropped(w, v);
    TwoMore(ws, Actions(), SEND2, w, HANDLE, v);
  }

  lemma SecondDropped(w: World, v: World)
    requires Enabled(w, HANDLE) && Queue(w, 0, 1) == [Message(SECOND, PROOF2)] && !Decodes(w, 1, Message(SECOND, PROOF2))
    requires v == AfterReceive(w, 0, 1)
    ensures v.state == w.state && Queue(v, 0, 1) == [] && Received(v, 1) == Received(w, 1)
  {
  }

  lemma SecondFacts(u: World, w: World)
    requires Lost(u) && Inv(u) && Enabled(u, SEND2) && w == AfterSend(u, 0, PROOF2)
    ensures 1 in w.state && Queue(w, 0, 1) == [Message(SECOND, PROOF2)] && !Decodes(w, 1, Message(SECOND, PROOF2))
    ensures Enabled(w, HANDLE) && SECOND !in Received(w, 1)
  {
    assert Own(u, 0)[2].transactions == [SECOND];
    NextAfterLossIsDropped(u, 0, 1, PROOF2, SECOND);
    var p := Passed(u, 0);
    PassedSame(u, 0);
    assert w == Post(p, 0, 1, Message(SECOND, PROOF2));
    PostFacts(p, 0, 1, Message(SECOND, PROOF2));
    assert [] + [Message(SECOND, PROOF2)] == [Message(SECOND, PROOF2)];
  }
}
