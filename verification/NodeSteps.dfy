/** The two steps in which a node meets its peers, as its methods take them
    (`TransactionSender.sendTransaction`, `CommunicationHelper.receiveTransaction`), with
    their flags and caches: they are the steps of the protocol. */
module NodeSteps {
  import opened Ledger
  import opened ChainReach
  import opened LocalStores
  import opened Replicas
  import opened Validation
  import opened Protocol
  import opened ProtocolInvariant
  import opened ProtocolReceive
  import opened ProtocolMemory
  import PC = ProofConstruction
  import PV = ProofVerification

  /** What a node keeps of the flags that a check has set. */
  function StillHeld(flags: set<Transaction>, s: NodeState): set<Transaction> {
    set t | t in flags && Held(s, t)
  }

  lemma AllApplied(s: NodeState, sender: NodeId, updates: PC.Family, copies: map<NodeId, Replica>)
    requires forall k :: k in copies <==> k in s.copies || k in updates
    requires forall k | k in copies && k !in updates :: copies[k] == s.copies[k]
    requires forall k | k in updates :: copies[k] == Updated(CopyIn(s, k), updates[k], s.cache)
    ensures copies == Applied(s, sender, updates).copies
  {
    var applied := Applied(s, sender, updates).copies;
    forall k | k in copies
      ensures copies[k] == applied[k]
    {
    }
  }

  /** Handling on the state of the node is handling in the world. */
  lemma HandledIsReceived(w: World, from: NodeId, own: NodeId, msg: Message)
    requires Enabled(w, Receive(from, own)) && msg == Queue(w, from, own)[0] && DecodesIn(w.state[own], msg)
    ensures Protocol.Accepted(w, own, msg) <==> AcceptedIn(w.state[own], w.state.Keys, own, msg)
    ensures var v := AfterReceive(w, from, own);
            && v.state.Keys == w.state.Keys
            && v.state[own] == if Protocol.Accepted(w, own, msg) then Absorbed(w.state[own], msg) else Refused(w.state[own], own, msg)
  {
  }

  lemma DroppedLeaves(w: World, from: NodeId, own: NodeId)
    requires Enabled(w, Receive(from, own)) && !DecodesIn(w.state[own], Queue(w, from, own)[0])
    ensures AfterReceive(w, from, own).state == w.state
    ensures OwnEvidence(AfterReceive(w, from, own), own) == OwnEvidence(w, own)
  {
  }

  /** It makes no difference that the transaction is marked as received before the proof is applied. */
  lemma MarkedIsAbsorbed(s: NodeState, marked: NodeState, msg: Message)
    requires msg.main.sender.Some? && marked == s.(received := s.received + {msg.main})
    ensures Applied(marked, msg.main.sender.value, msg.updates).(
              unspent := s.unspent + if msg.main.amount > 0 then {msg.main} else {}) == Absorbed(s, msg)
  {
    var a, b := Applied(marked, msg.main.sender.value, msg.updates), Applied(s, msg.main.sender.value, msg.updates);
    assert a.copies == b.copies;
  }

  lemma {:induction false} FlagsRecalled(e: PV.Evidence, msg: Message, accepted: bool, s: NodeState, before: Memory,
                      verified: set<Transaction>, cache: Cache)
    requires PV.WellFormed(e)
    requires forall t | t in verified :: PV.Verifies(e, t) && (t in before.flags || InHistory(t, msg.main))
    requires if accepted then CacheGood(ViewsShown(e), cache) else cache == before.cache
    ensures Recalled(e, msg, accepted, s, before, Memory(StillHeld(verified, s), cache))
  {
  }

  /** A new node represents itself in a world that starts. */
  lemma NewRepresents(p: Participant, w: World)
    requires Init(w) && p.own in w.state && p.nodes == w.state.Keys && w.state[p.own].cache == {w.genesis}
    requires p.copies == map[p.own := Replica([w.genesis], [0])] && p.known == map[] && p.alreadySent == 0
    requires p.cache == {w.genesis} && p.flags == {}
    requires p.verification.validationCache == map[] && p.verification.receivedTransactions == {}
    requires p.store.Valid() && p.store.own == p.own
    requires p.store.unspent == w.state[p.own].unspent && p.store.transactionId == w.state[p.own].transactionId
    ensures p.Represents(w)
  {
    EvidenceWellFormed(w.state[p.own], w.state.Keys, map[]);
    assert p.Current() == w.state[p.own];
  }

  class Participant {
    const own: NodeId
    const nodes: set<NodeId>
    const verification: Verification
    const store: LocalStore
    var copies: map<NodeId, Replica>
    var known: map<NodeId, Knowledge>
    var alreadySent: nat
    var cache: set<Block>
    var flags: set<Transaction>       // transactions in our copies that are `locallyVerified`

    constructor (own: NodeId, nodes: set<NodeId>, verification: Verification, store: LocalStore, genesis: Block)
      ensures this.own == own && this.nodes == nodes && this.verification == verification && this.store == store
      ensures copies == map[own := Replica([genesis], [0])] && known == map[] && alreadySent == 0
      ensures cache == {genesis} && flags == {}
    {
      this.own, this.nodes, this.verification, this.store := own, nodes, verification, store;
      copies, known, alreadySent := map[own := Replica([genesis], [0])], map[], 0;
      cache, flags := {genesis}, {};
    }

    /** The node as the protocol sees it. */
    function Current(): NodeState
      reads this, verification, store
    {
      NodeState(copies, known, alreadySent, store.transactionId, store.unspent, verification.receivedTransactions, cache)
    }

    function Remembered(): Memory
      reads this, verification
    {
      Memory(flags, verification.validationCache)
    }

    /** We are the node `own` of `w`, and remember only what is right. */
    ghost predicate Represents(w: World)
      reads this, verification, store
    {
      && own in w.state && nodes == w.state.Keys && Current() == w.state[own]
      && store.Valid() && store.own == own
      && MemoryOk(w, own, Remembered())
    }

    /** What the proof builder works with. */
    function SettingFor(receiver: NodeId): PC.Setting
      reads this
    {
      PC.Setting(own, receiver, if receiver in known then known[receiver] else map[], copies, nodes)
    }

    /** Builds the proof of a transaction and sends it.  Only a send that succeeds tells us
        that the receiver knows the proof's blocks. */
    method SendTransaction(t: Transaction, socketWorks: bool) returns (proof: PC.Family)
      requires SettingFor(t.receiver).WellFormed() && own in nodes && own != t.receiver
      requires var c := SettingFor(t.receiver).Chain(own);
               && t.block < |c.next| == |c.blocks| && 0 <= c.next[t.block] < |c.blocks|
      modifies this`known
      ensures PC.IsProof(old(SettingFor(t.receiver)), t.block, proof)
      ensures Current() == if socketWorks then Informed(old(Current()), t.receiver, Message(t, proof)) else old(Current())
    {
      proof := BuildProof(SettingFor(t.receiver), t);
      if socketWorks {
        known := known[t.receiver := LearnFrom(KnownIn(Current(), t.receiver), t.receiver, proof)];
      }
    }

    static method BuildProof(s: PC.Setting, t: Transaction) returns (proof: PC.Family)
      requires s.WellFormed() && s.sender in s.nodes && s.sender != s.receiver
      requires var c := s.Chain(s.sender);
               && t.block < |c.next| == |c.blocks| && 0 <= c.next[t.block] < |c.blocks|
      ensures PC.IsProof(s, t.block, proof)
    {
      var builder := new PC.ProofConstructor(s, t);
      proof := builder.ConstructProof();
    }

    /** Handles the next message of the channel from `from`.  With all its flags and caches
        the node does what the protocol says, and still remembers only what is right. */
    method HandleMessage(msg: Message, ghost w: World, ghost from: NodeId) returns (accepted: bool)
      requires Inv(w) && Represents(w) && Enabled(w, Receive(from, own)) && msg == Queue(w, from, own)[0]
      modifies this`copies, this`known, this`flags, verification, store
      ensures accepted <==> Protocol.Accepted(w, own, msg)
      ensures Represents(AfterReceive(w, from, own))
    {
      HeadIsOk(w, from, own);
      if !DecodesIn(Current(), msg) {
        DroppedLeaves(w, from, own);
        return false;
      }
      MemoryFitsHead(w, from, own, Remembered());
      ghost var before := Remembered();
      accepted := ReceiveTransaction(msg, EvidenceIn(Current(), nodes, msg.updates));
      HandledIsReceived(w, from, own, msg);
      RecallsKeeps(w, from, own, before, Remembered());
    }

    /** Handles a decoded message, whose proof shows `e`, with the flags and verdicts we have. */
    method ReceiveTransaction(msg: Message, e: PV.Evidence) returns (accepted: bool)
      requires store.Valid() && store.own == own && Fitting(e, Remembered())
      requires msg.main.sender == Some(own) ==> msg.main.number < store.transactionId
      modifies this`copies, this`known, this`flags, verification, store
      ensures store.Valid()
      ensures accepted <==> msg.main.receiver == own && msg.main !in old(verification.receivedTransactions)
                            && msg.main.sender.Some? && PV.Verifies(e, msg.main) && Accepts(ViewsShown(e), msg.main)
      ensures Current() == if accepted then Absorbed(old(Current()), msg) else Refused(old(Current()), own, msg)
      ensures Recalled(e, msg, accepted, Current(), old(Remembered()), Remembered())
    {
      ghost var before := Remembered();
      if msg.main.receiver != own {
        assert verification.receivedTransactions + {} == verification.receivedTransactions;
        flags := StillHeld(flags, Current());
        FlagsRecalled(e, msg, false, Current(), before, before.flags, before.cache);
        return false;
      }
      var verified;
      ghost var s := Current();
      accepted, verified := Check(msg, e);
      if accepted {
        MarkedIsAbsorbed(s, Current(), msg);
        Settle(msg);
      }
      flags := StillHeld(verified, Current());
      FlagsRecalled(e, msg, accepted, Current(), before, verified, verification.validationCache);
    }

    /** The check itself, on what the proof shows. */
    method Check(msg: Message, e: PV.Evidence) returns (accepted: bool, verified: set<Transaction>)
      requires Fitting(e, Remembered())
      modifies verification
      ensures accepted <==> msg.main !in old(verification.receivedTransactions) && msg.main.sender.Some?
                            && PV.Verifies(e, msg.main) && Accepts(ViewsShown(e), msg.main)
      ensures verification.receivedTransactions == old(verification.receivedTransactions) + {msg.main}
      ensures forall t | t in verified :: PV.Verifies(e, t) && (t in flags || InHistory(t, msg.main))
      ensures if accepted then CacheGood(ViewsShown(e), verification.validationCache)
              else verification.validationCache == old(verification.validationCache)
    {
      var verifier := new PV.ProofVerifier(e, flags);
      accepted := verification.ValidateNewMessage(msg.main, verifier);
      verified := verifier.verified;
    }

    /** A valid transaction: its proof is applied, and we can spend it. */
    method Settle(msg: Message)
      requires store.Valid() && store.own == own && msg.main.sender.Some?
      requires msg.main.sender == Some(own) ==> msg.main.number < store.transactionId
      modifies this`copies, this`known, store
      ensures store.Valid()
      ensures Current() == Applied(old(Current()), msg.main.sender.value, msg.updates).(
                             unspent := old(store.unspent) + if msg.main.amount > 0 then {msg.main} else {})
    {
      ApplyUpdates(msg.updates, msg.main.sender.value);
      if msg.main.amount > 0 {
        store.AddUnspentTransaction(msg.main);
      }
    }

    /** `Proof.applyUpdates`: all chains, and what the sender now knows. */
    method ApplyUpdates(updates: PC.Family, sender: NodeId)
      modifies this`copies, this`known
      ensures Current() == Applied(old(Current()), sender, updates)
    {
      var before := Current();
      var applied := copies;
      var todo := updates.Keys;
      while todo != {}
        invariant todo <= updates.Keys && Current() == before
        invariant forall k :: k in applied <==> k in copies || (k in updates && k !in todo)
        invariant forall k | k in applied && (k !in updates || k in todo) :: applied[k] == copies[k]
        invariant forall k | k in updates && k !in todo :: applied[k] == Updated(CopyIn(before, k), updates[k], cache)
        decreases todo
      {
        var node :| node in todo;
        todo := todo - {node};
        applied := applied[node := Updated(CopyIn(Current(), node), updates[node], cache)];
      }
      AllApplied(before, sender, updates, applied);
      copies := applied;
      known := known[sender := LearnFrom(KnownIn(before, sender), sender, updates)];
    }
  }
}
