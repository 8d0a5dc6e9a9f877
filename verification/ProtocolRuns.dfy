/** Whole runs of the protocol. */
module ProtocolRuns {
  import opened Ledger
  import opened ChainReach
  import opened Replicas
  import opened Validation
  import opened Protocol
  import opened ProtocolInvariant
  import opened ProtocolSteps
  import opened ProtocolSend
  import opened ProtocolDelivery
  import opened ProtocolReceive
  import opened ProtocolIntact
  import PC = ProofConstruction

  // ---- steps ----

  lemma StepKeeps(w: World, a: Action)
    requires Inv(w) && Enabled(w, a)
    ensures Inv(Apply(w, a))
  {
    match a
    case Create(n, r, amount, sources) => CreateKeeps(w, n, r, amount, sources);
    case AppendEmpty(n) => AppendEmptyKeeps(w, n);
    case Commit(n, reaches) => CommitKeeps(w, n, reaches);
    case Learn(n, block) => LearnKeeps(w, n, block);
    case Recognise(n, k, b) => RecogniseKeeps(w, n, k, b);
    case SendNext(n, updates) => SendKeeps(w, n, updates);
    case SendFails(n) => PassedKeeps(w, n);
    case Receive(from, to) => ReceiveKeeps(w, from, to);
  }

  /** A message that brings something new is handled before its receiver sees a commit for
      all of its history. */
  ghost predicate Early(w: World, a: Action, n: NodeId, m: NodeId)
    requires Enabled(w, a)
  {
    && a == Receive(n, m)
    && var msg := Queue(w, n, m)[0];
       !NothingNew(w, m, msg) && !CommitsShow(w, m, msg, msg.main)
  }

  lemma StepIntact(w: World, a: Action, n: NodeId, m: NodeId)
    requires Inv(w) && Enabled(w, a) && Intact(w, n, m)
    ensures if Early(w, a, n, m) then !Safe(Apply(w, a), n, m) else Intact(Apply(w, a), n, m)
  {
    assert ChannelOk(w, n, m);
    match a
    case Create(k, r, amount, sources) =>
      CreateFacts(w, k, r, amount, sources);
      QuietIntact(w, Apply(w, a), n, m);
    case AppendEmpty(k) =>
      AppendEmptyFacts(w, k);
      QuietIntact(w, Apply(w, a), n, m);
    case Commit(k, reaches) =>
      assert CopyOk(w, k, k);
      CommitFacts(w, k, reaches);
      QuietIntact(w, Apply(w, a), n, m);
    case Learn(k, block) =>
      assert CopyOk(w, k, k);
      LearnFacts(w, k, block);
      QuietIntact(w, Apply(w, a), n, m);
    case Recognise(k, c, b) =>
      RecogniseIntact(w, k, c, b, n, m);
    case SendNext(k, updates) => SendIntact(w, k, updates, n, m);
    case SendFails(k) => PassedIntact(w, k, n, m);
    case Receive(from, to) => ReceiveIntact(w, from, to, n, m);
  }

  lemma RecogniseIntact(w: World, k: NodeId, c: NodeId, b: nat, n: NodeId, m: NodeId)
    requires Inv(w) && Enabled(w, Recognise(k, c, b)) && Intact(w, n, m)
    ensures Intact(AfterRecognise(w, k, c, b), n, m)
  {
    assert c in w.state[k].copies;
    assert CopyOk(w, k, c) && ChannelOk(w, n, m);
    RecogniseFacts(w, k, c, b);
    QuietIntact(w, AfterRecognise(w, k, c, b), n, m);
  }

  lemma SendIntact(w: World, k: NodeId, updates: PC.Family, n: NodeId, m: NodeId)
    requires Inv(w) && Enabled(w, SendNext(k, updates)) && Intact(w, n, m)
    ensures Intact(AfterSend(w, k, updates), n, m)
  {
    SendIsReady(w, k, updates);
    PassedIntact(w, k, n, m);
    PassedKeeps(w, k);
    var p, ts := Passed(w, k), Own(w, k)[Sent(w, k) + 1].transactions;
    ShippedIntact(p, k, ts, updates, n, m);
    SendShips(w, k, updates, p, ts);
  }

  lemma ShippedIntact(p: World, k: NodeId, ts: seq<Transaction>, updates: PC.Family, n: NodeId, m: NodeId)
    requires Inv(p) && k in p.state && Intact(p, n, m)
    requires ts != [] ==> Proven(p, k, ts[0], updates) && Next(p, k, ts[0])
    ensures Intact(Shipped(p, k, ts, updates), n, m)
  {
    if ts != [] {
      PostStays(p, k, ts[0], updates, n, m);
    }
  }

  lemma PassedIntact(w: World, k: NodeId, n: NodeId, m: NodeId)
    requires Inv(w) && MaySend(w, k) && Intact(w, n, m)
    ensures Intact(Passed(w, k), n, m)
  {
    assert CopyOk(w, k, k) && ChannelOk(w, n, m);
    PassedFacts(w, k);
    QuietIntact(w, Passed(w, k), n, m);
  }

  lemma PostStays(p: World, k: NodeId, t: Transaction, f: PC.Family, n: NodeId, m: NodeId)
    requires Inv(p) && Proven(p, k, t, f) && Next(p, k, t) && Intact(p, n, m)
    ensures Intact(Post(p, k, t.receiver, Message(t, f)), n, m)
  {
    var v := Post(p, k, t.receiver, Message(t, f));
    assert ChannelOk(p, n, m);
    PostFacts(p, k, t.receiver, Message(t, f));
    if n == k && m == t.receiver {
      PostIntact(p, n, t, f, v);
    } else {
      QuietIntact(p, v, n, m);
    }
  }

  lemma ReceiveIntact(w: World, from: NodeId, to: NodeId, n: NodeId, m: NodeId)
    requires Inv(w) && Enabled(w, Receive(from, to)) && Intact(w, n, m)
    ensures if Early(w, Receive(from, to), n, m) then !Safe(AfterReceive(w, from, to), n, m)
            else Intact(AfterReceive(w, from, to), n, m)
  {
    var v, msg := AfterReceive(w, from, to), Queue(w, from, to)[0];
    HeadIsOk(w, from, to);
    assert ChannelOk(w, n, m) && ChannelOk(w, from, to);
    if from == n && to == m {
      IntactDecodes(w, n, m);
      HeadAcceptedIff(w, n, m);
    }
    if Protocol.Accepted(w, to, msg) {
      HeadFits(w, from, to);
      DeliveredFacts(w, from, to);
      DeliveredIntact(w, from, to, v, n, m);
    } else {
      ShedFacts(w, from, to);
      if from == n && to == m {
        ShedIntactIff(w, n, m, v);
      } else {
        QuietIntact(w, v, n, m);
      }
    }
  }

  // ---- runs ----

  lemma InitHolds(w: World)
    requires Init(w)
    ensures Inv(w)
    ensures forall n, m :: Intact(w, n, m)
  {
    forall n | n in w.state
      ensures Copy(w, n, n) == Replica([w.genesis], [0])
      ensures forall k | k != n :: Copy(w, n, k) == Replica([], [])
    {
    }
    assert forall t :: !InChain(w, t);
    forall n, k | n in w.state && k in w.state
      ensures CopyOk(w, n, k)
    {
    }
    forall n, m
      ensures ChannelOk(w, n, m) && Intact(w, n, m)
    {
      assert Queue(w, n, m) == [] && Known(w, n, m) == map[];
    }
  }

  /** A run from a world: every action is enabled when its turn comes. */
  ghost predicate IsRun(w: World, actions: seq<Action>)
    decreases |actions|
  {
    actions == [] || (Enabled(w, actions[0]) && IsRun(Apply(w, actions[0]), actions[1..]))
  }

  ghost function Outcome(w: World, actions: seq<Action>): World
    requires IsRun(w, actions)
    decreases |actions|
  {
    if actions == [] then w else Outcome(Apply(w, actions[0]), actions[1..])
  }

  lemma {:induction false} RunKeeps(w: World, actions: seq<Action>)
    requires Inv(w) && IsRun(w, actions)
    ensures Inv(Outcome(w, actions))
    decreases |actions|
  {
    if actions != [] {
      StepKeeps(w, actions[0]);
      RunKeeps(Apply(w, actions[0]), actions[1..]);
    }
  }

  /** At every moment of the run, what `n` takes `m` to know is right, and nothing on the
      way from `n` to `m` leaves a gap. */
  ghost predicate AlwaysSafe(w: World, actions: seq<Action>, n: NodeId, m: NodeId)
    requires IsRun(w, actions)
    decreases |actions|
  {
    Safe(w, n, m) && (actions == [] || AlwaysSafe(Apply(w, actions[0]), actions[1..], n, m))
  }

  ghost predicate NeverEarly(w: World, actions: seq<Action>, n: NodeId, m: NodeId)
    requires IsRun(w, actions)
    decreases |actions|
  {
    actions == [] || (!Early(w, actions[0], n, m) && NeverEarly(Apply(w, actions[0]), actions[1..], n, m))
  }

  lemma {:induction false} IntactIff(w: World, actions: seq<Action>, n: NodeId, m: NodeId)
    requires Inv(w) && Intact(w, n, m) && IsRun(w, actions)
    ensures AlwaysSafe(w, actions, n, m) <==> NeverEarly(w, actions, n, m)
    ensures NeverEarly(w, actions, n, m) ==> Intact(Outcome(w, actions), n, m)
    decreases |actions|
  {
    if actions != [] {
      var v := Apply(w, actions[0]);
      StepKeeps(w, actions[0]);
      StepIntact(w, actions[0], n, m);
      if !Early(w, actions[0], n, m) {
        IntactIff(v, actions[1..], n, m);
      }
    }
  }

  // ---- what holds in every run ----

  /** Every copy is a prefix of the chain it copies.  A foreign copy holds only blocks at or
      before a block on the main chain; of our own, what we have sent is. */
  lemma {:induction false} CopiesArePrefixes(w: World, actions: seq<Action>, n: NodeId, k: NodeId, i: nat)
    requires Init(w) && IsRun(w, actions)
    ensures var v := Outcome(w, actions);
            n in v.state && k in v.state ==>
              && Copy(v, n, k).blocks <= Own(v, k)
              && ((n != k || i <= Sent(v, n)) && i < |Copy(v, n, k).blocks| ==>
                    exists c :: i <= c < |Copy(v, n, k).blocks| && Own(v, k)[c] in v.mainChain)
  {
    InitHolds(w);
    RunKeeps(w, actions);
    var v := Outcome(w, actions);
    if n in v.state && k in v.state {
      assert CopyOk(v, n, k);
      if (n != k || i <= Sent(v, n)) && i < |Copy(v, n, k).blocks| {
        var c := Copy(v, n, k).next[i];
        assert i <= c < |Copy(v, n, k).blocks| && Own(v, k)[c] in v.mainChain;
      }
    }
  }

  /** A channel is safe throughout a run exactly when no message of it that brings something
      new is handled before its commits show: from then on its head always decodes. */
  lemma {:induction false} ChannelSafeIff(w: World, actions: seq<Action>, n: NodeId, m: NodeId)
    requires Init(w) && IsRun(w, actions)
    ensures AlwaysSafe(w, actions, n, m) <==> NeverEarly(w, actions, n, m)
    ensures var v := Outcome(w, actions);
            NeverEarly(w, actions, n, m) && Queue(v, n, m) != [] ==>
              && m in v.state && Decodes(v, m, Queue(v, n, m)[0])
              && forall k | k in Queue(v, n, m)[0].updates ::
                   Queue(v, n, m)[0].updates[k] != [] && Queue(v, n, m)[0].updates[k][0].number <= |Copy(v, m, k).blocks|
  {
    InitHolds(w);
    IntactIff(w, actions, n, m);
    RunKeeps(w, actions);
    var v := Outcome(w, actions);
    if NeverEarly(w, actions, n, m) && Queue(v, n, m) != [] {
      IntactDecodes(v, n, m);
      assert ChannelOk(v, n, m);
      assert MessageOk(v, n, m, 0);
      IntactFits(v, n, m);
      forall k | k in Queue(v, n, m)[0].updates
        ensures SegmentOk(v, n, m, k, Queue(v, n, m)[0].updates[k], |Copy(v, m, k).blocks|)
      {
      }
    }
  }

  lemma {:induction false} RunEndsIn(w: World, actions: seq<Action>, v: World)
    requires Init(w) && IsRun(w, actions) && v == Outcome(w, actions)
    ensures Inv(v)
  {
    InitHolds(w);
    RunKeeps(w, actions);
  }

  lemma AcceptedIsCredited(w: World, n: NodeId, m: NodeId)
    requires Enabled(w, Receive(n, m)) && Protocol.Accepted(w, m, Queue(w, n, m)[0])
    ensures var msg, v := Queue(w, n, m)[0], AfterReceive(w, n, m);
            msg.main in Received(v, m) && (msg.main.amount > 0 ==> msg.main in Unspent(v, m))
  {
  }

  /** In every run, a delivered message that decodes is accepted exactly when its receiver
      sees a commit for everything in its history, which it does once it has seen the end
      of each segment on the main chain; and the receiver can then spend it. */
  lemma {:induction false} DeliveryIsAccepted(w: World, actions: seq<Action>, v: World, n: NodeId, m: NodeId)
    requires Init(w) && IsRun(w, actions) && v == Outcome(w, actions)
    requires Enabled(v, Receive(n, m)) && Decodes(v, m, Queue(v, n, m)[0])
    ensures var msg, u := Queue(v, n, m)[0], AfterReceive(v, n, m);
            && (Protocol.Accepted(v, m, msg) <==> CommitsShow(v, m, msg, msg.main))
            && (Timely(v, m, msg.updates) ==> Protocol.Accepted(v, m, msg))
            && (Protocol.Accepted(v, m, msg) ==>
                  msg.main in Received(u, m) && (msg.main.amount > 0 ==> msg.main in Unspent(u, m)))
  {
    RunEndsIn(w, actions, v);
    HeadAcceptedIff(v, n, m);
    if Timely(v, m, Queue(v, n, m)[0].updates) {
      EndToEnd(v, n, m);
    }
    if Protocol.Accepted(v, m, Queue(v, n, m)[0]) {
      AcceptedIsCredited(v, n, m);
    }
  }

  // ---- a channel whose messages come in time ----

  /** Every message from `n` to `m` is handled after `m` has seen the end of each of its segments. */
  ghost predicate AlwaysTimely(w: World, actions: seq<Action>, n: NodeId, m: NodeId)
    requires IsRun(w, actions)
    decreases |actions|
  {
    actions == [] ||
      (&& (actions[0] == Receive(n, m) ==> Timely(w, m, Queue(w, n, m)[0].updates))
       && AlwaysTimely(Apply(w, actions[0]), actions[1..], n, m))
  }

  /** The first message decodes, is accepted, and can then be spent. */
  ghost predicate Delivers(w: World, n: NodeId, m: NodeId)
    requires Enabled(w, Receive(n, m))
  {
    var msg, v := Queue(w, n, m)[0], AfterReceive(w, n, m);
    && Decodes(w, m, msg) && Protocol.Accepted(w, m, msg)
    && msg.main in Received(v, m) && (msg.main.amount > 0 ==> msg.main in Unspent(v, m))
  }

  ghost predicate AlwaysDelivers(w: World, actions: seq<Action>, n: NodeId, m: NodeId)
    requires IsRun(w, actions)
    decreases |actions|
  {
    actions == [] ||
      (&& (actions[0] == Receive(n, m) ==> Delivers(w, n, m))
       && AlwaysDelivers(Apply(w, actions[0]), actions[1..], n, m))
  }

  lemma TimelyHeadDelivers(w: World, n: NodeId, m: NodeId)
    requires Inv(w) && Intact(w, n, m) && Enabled(w, Receive(n, m)) && Timely(w, m, Queue(w, n, m)[0].updates)
    ensures Delivers(w, n, m) && !Early(w, Receive(n, m), n, m)
  {
    assert ChannelOk(w, n, m);
    IntactDecodes(w, n, m);
    HeadAcceptedIff(w, n, m);
    EndToEnd(w, n, m);
    AcceptedIsCredited(w, n, m);
  }

  lemma {:induction false} IntactDelivers(w: World, actions: seq<Action>, n: NodeId, m: NodeId)
    requires Inv(w) && Intact(w, n, m) && IsRun(w, actions) && AlwaysTimely(w, actions, n, m)
    ensures NeverEarly(w, actions, n, m) && AlwaysDelivers(w, actions, n, m)
    decreases |actions|
  {
    if actions != [] {
      var a := actions[0];
      if a == Receive(n, m) {
        TimelyHeadDelivers(w, n, m);
      }
      StepKeeps(w, a);
      StepIntact(w, a, n, m);
      IntactDelivers(Apply(w, a), actions[1..], n, m);
    }
  }

  /** End to end: in a run in which no message of a channel is handled before its commits are
      seen, every one of them decodes, is accepted and is credited, and the channel is always safe. */
  lemma {:induction false} TimelyChannelDelivers(w: World, actions: seq<Action>, n: NodeId, m: NodeId)
    requires Init(w) && IsRun(w, actions) && AlwaysTimely(w, actions, n, m)
    ensures NeverEarly(w, actions, n, m) && AlwaysSafe(w, actions, n, m) && AlwaysDelivers(w, actions, n, m)
  {
    InitHolds(w);
    IntactDelivers(w, actions, n, m);
    IntactIff(w, actions, n, m);
  }

  /** The proof builder can always build the next proof, */
  lemma {:induction false} SendingNeverFails(w: World, actions: seq<Action>, v: World, n: NodeId, r: NodeId)
    requires Init(w) && IsRun(w, actions) && v == Outcome(w, actions) && MaySend(v, n)
    ensures SettingOf(v, n, r).WellFormed()
    ensures Sent(v, n) + 1 <= Copy(v, n, n).next[Sent(v, n) + 1] < |Copy(v, n, n).blocks|
  {
    RunEndsIn(w, actions, v);
    SendReady(v, n, r);
  }

  /** and no two transactions in the chains spend the same output. */
  lemma {:induction false} NoDoubleSpendInRuns(w: World, actions: seq<Action>, t: Transaction, u: Transaction, s: Transaction)
    requires Init(w) && IsRun(w, actions) && InChain(Outcome(w, actions), t) && InChain(Outcome(w, actions), u)
    requires s in t.source && s in u.source && Spent(t, s) == Spent(u, s)
    ensures t == u
  {
    InitHolds(w);
    RunKeeps(w, actions);
    var v := Outcome(w, actions);
    assert TransactionOk(v, t) && TransactionOk(v, u);
    assert Involves(t.sender.value, s) && Involves(u.sender.value, s);
  }
}
