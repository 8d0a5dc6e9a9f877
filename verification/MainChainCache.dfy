/** The cache of main-chain hashes (`TendermintChain.updateCacheBlocking`, `ABCIClient.query`). */
module MainChainCache {
  import opened Ledger

  type Hash = nat

  /** An entry of a main-chain block.  An unreadable one is no abstract (`BlockAbstract.fromBytes`
      gives null); a malformed one is not even a base64 string. */
  datatype Entry = Abstract(hash: Hash) | Unreadable | Malformed

  /** The main chain by height; the first block has height 1. */
  type MainChain = seq<seq<Entry>>

  function AtHeight(chain: MainChain, height: nat): seq<Entry> {
    if 1 <= height <= |chain| then chain[height - 1] else []
  }

  /** The abstracts before the first entry that is none. */
  function Leading(block: seq<Entry>): seq<Hash> {
    if block != [] && block[0].Abstract? then [block[0].hash] + Leading(block[1..]) else []
  }

  /** An update gets past a block of abstracts only, and past one with some abstracts before
      a malformed entry. */
  predicate Passes(block: seq<Entry>) {
    |Leading(block)| >= |block| || (Leading(block) != [] && block[|Leading(block)|].Malformed?)
  }

  /** Getting past it caches all its abstracts. */
  ghost predicate LosesNothing(block: seq<Entry>) {
    forall x | Abstract(x) in block :: x in Leading(block)
  }

  /** What the main chain's node tells us of a height, or None when it has no answer. */
  type Answers = nat -> Option<seq<Entry>>

  ghost predicate Truthful(chain: MainChain, answers: Answers) {
    forall h: nat | answers(h).Some? :: 1 <= h <= |chain| && answers(h).value == AtHeight(chain, h)
  }

  // ---- one update ----

  lemma {:induction false} LeadingAre(block: seq<Entry>)
    ensures var n := |Leading(block)|;
            && n <= |block| && (n < |block| ==> !block[n].Abstract?)
            && forall i | 0 <= i < n :: block[i] == Abstract(Leading(block)[i])
  {
    if block != [] && block[0].Abstract? {
      LeadingAre(block[1..]);
    }
  }

  /** What has been read of a block up to a malformed entry leads as far as the block itself. */
  lemma {:induction false} LeadingRead(block: seq<Entry>, read: seq<Entry>)
    requires read <= block && (|read| < |block| ==> !block[|read|].Abstract?)
    ensures Leading(read) == Leading(block)
  {
    if read != [] && read[0].Abstract? {
      assert read[1..] <= block[1..];
      LeadingRead(block[1..], read[1..]);
    }
  }

  ghost predicate IsRead(block: seq<Entry>, read: seq<Entry>) {
    && read <= block && Malformed !in read
    && (|read| < |block| ==> block[|read|].Malformed? && read != [])
  }

  lemma {:induction false} ReadPasses(block: seq<Entry>, read: seq<Entry>)
    requires IsRead(block, read)
    ensures Leading(read) == Leading(block)
    ensures Passes(block) <==> |Leading(read)| == |read|
  {
    LeadingRead(block, read);
    LeadingAre(read);
    LeadingAre(block);
    if |Leading(read)| < |read| {
      assert read[|Leading(read)|] != Malformed;
    }
  }

  lemma {:induction false} LeadingAdds(block: seq<Entry>, i: nat)
    requires i < |block| && |Leading(block[..i])| == i
    ensures if block[i].Abstract? then Leading(block[..i + 1]) == Leading(block[..i]) + [block[i].hash]
            else Leading(block) == Leading(block[..i])
  {
    if block[i].Abstract? {
      assert block[..i + 1] == block[..i] + [block[i]];
      LeadingAppended(block[..i], block[i]);
    } else {
      LeadingRead(block, block[..i]);
    }
  }

  lemma {:induction false} LeadingAppended(block: seq<Entry>, entry: Entry)
    requires |Leading(block)| == |block| && entry.Abstract?
    ensures Leading(block + [entry]) == Leading(block) + [entry.hash]
  {
    if block == [] {
      assert ([] + [entry])[1..] == [];
    } else {
      LeadingAre(block);
      assert (block + [entry])[1..] == block[1..] + [entry];
      LeadingAppended(block[1..], entry);
    }
  }

  predicate Gets(answers: Answers, h: nat) {
    answers(h).Some? && Passes(answers(h).value)
  }

  /** An update to `to` from above `from` stops at the first height it does not get past, or is through. */
  ghost predicate StopsAt(answers: Answers, from: nat, to: nat, end: nat) {
    && from < end <= (if from < to then to else from) + 1
    && (forall h: nat | from < h < end :: Gets(answers, h))
    && (end <= to ==> !Gets(answers, end))
  }

  ghost predicate Leads(answers: Answers, h: nat, x: Hash) {
    answers(h).Some? && x in Leading(answers(h).value)
  }

  ghost predicate LeadsIn(answers: Answers, from: nat, upto: nat, x: Hash) {
    exists h: nat :: from < h <= upto && Leads(answers, h, x)
  }

  class TendermintChain {
    var cache: set<Hash>
    var currentHeight: nat

    constructor (genesis: Hash)
      ensures cache == {genesis} && currentHeight == 0
    {
      cache, currentHeight := {genesis}, 0;
    }

    /** Fetches the heights up to `height`.  Where there is no answer, or a null in it, the
        update ends: the hashes before stay, the height does not move. */
    method UpdateCacheBlocking(height: nat, answers: Answers) returns (ghost end: nat)
      modifies this
      ensures StopsAt(answers, old(currentHeight), height, end)
      ensures forall x :: x in cache <==>
                x in old(cache) || LeadsIn(answers, old(currentHeight), if end <= height then end else height, x)
      ensures currentHeight == if end <= height || height <= old(currentHeight) then old(currentHeight) else height
    {
      var i := currentHeight + 1;
      while i <= height
        invariant old(currentHeight) == currentHeight < i <= (if currentHeight < height then height else currentHeight) + 1
        invariant forall h: nat | currentHeight < h < i :: Gets(answers, h)
        invariant forall x :: x in cache <==> x in old(cache) || LeadsIn(answers, currentHeight, i - 1, x)
        decreases height + 1 - i
      {
        ghost var before := cache;
        var passed := FetchHeight(answers(i));
        forall x
          ensures x in cache <==> x in old(cache) || LeadsIn(answers, currentHeight, i, x)
        {
          OneMoreHeight(answers, currentHeight, i, x);
          assert x in cache <==> x in before || Leads(answers, i, x);
        }
        if !passed {
          return i;
        }
        i := i + 1;
      }
      currentHeight := if currentHeight < height then height else currentHeight;
      return i;
    }

    static lemma OneMoreHeight(answers: Answers, from: nat, i: nat, x: Hash)
      requires from < i
      ensures LeadsIn(answers, from, i, x) <==> LeadsIn(answers, from, i - 1, x) || Leads(answers, i, x)
    {
    }

    method FetchHeight(block: Option<seq<Entry>>) returns (passed: bool)
      modifies this`cache
      ensures passed <==> block.Some? && Passes(block.value)
      ensures forall x :: x in cache <==> x in old(cache) || (block.Some? && x in Leading(block.value))
    {
      var abstracts := Query(block);
      if abstracts.None? {
        return false;
      }
      ReadPasses(block.value, abstracts.value);
      var thrown := AddAll(abstracts.value);
      return !thrown;
    }

    /** `ABCIClient.query`: a malformed entry ends the list; if nothing came before it, there is
        no list at all. */
    static method Query(block: Option<seq<Entry>>) returns (abstracts: Option<seq<Entry>>)
      ensures abstracts.Some? ==> block.Some? && IsRead(block.value, abstracts.value)
      ensures abstracts.None? <==> block.None? || (block.value != [] && block.value[0].Malformed?)
    {
      if block.None? {
        return None;
      }
      var read := [];
      for i := 0 to |block.value|
        invariant read == block.value[..i] && Malformed !in read
      {
        if block.value[i].Malformed? {
          return if read == [] then None else Some(read);
        }
        read := read + [block.value[i]];
      }
      return Some(read);
    }

    /** A null has no hash: the exception leaves the hashes before it in the cache. */
    method AddAll(abstracts: seq<Entry>) returns (thrown: bool)
      modifies this`cache
      ensures thrown <==> |Leading(abstracts)| != |abstracts|
      ensures forall x :: x in cache <==> x in old(cache) || x in Leading(abstracts)
    {
      for i := 0 to |abstracts|
        invariant |Leading(abstracts[..i])| == i
        invariant forall x :: x in cache <==> x in old(cache) || x in Leading(abstracts[..i])
      {
        LeadingAdds(abstracts, i);
        if !abstracts[i].Abstract? {
          return true;
        }
        cache := cache + {abstracts[i].hash};
      }
      assert abstracts[..|abstracts|] == abstracts;
      return false;
    }
  }

  // ---- updates that overlap ----

  /** A running update: the height it fetches next, and its last one. */
  datatype Update = Update(next: nat, target: nat)

  datatype State = State(cache: set<Hash>, currentHeight: nat, running: map<nat, Update>)

  datatype Step =
    | Begin(id: nat, target: nat)
    | Fetch(id: nat)      // the next height is answered
    | NoAnswer(id: nat)
    | Finish(id: nat)

  predicate Enabled(chain: MainChain, s: State, step: Step) {
    match step
    case Begin(id, _) => id !in s.running
    case Fetch(id) => id in s.running && 1 <= s.running[id].next <= s.running[id].target && s.running[id].next <= |chain|
    case NoAnswer(id) => id in s.running && s.running[id].next <= s.running[id].target
    case Finish(id) => id in s.running && s.running[id].next > s.running[id].target
  }

  function SetOf(hs: seq<Hash>): set<Hash> {
    set x | x in hs
  }

  function After(chain: MainChain, s: State, step: Step): State
    requires Enabled(chain, s, step)
  {
    match step
    case Begin(id, target) => s.(running := s.running[id := Update(s.currentHeight + 1, target)])
    case Fetch(id) =>
      var u, block := s.running[id], AtHeight(chain, s.running[id].next);
      State(s.cache + SetOf(Leading(block)), s.currentHeight,
            if Passes(block) then s.running[id := u.(next := u.next + 1)] else s.running - {id})
    case NoAnswer(id) => s.(running := s.running - {id})
    case Finish(id) =>
      var target := s.running[id].target;
      State(s.cache, if s.currentHeight < target then target else s.currentHeight, s.running - {id})
  }

  ghost predicate IsRun(chain: MainChain, s: State, steps: seq<Step>)
    decreases |steps|
  {
    steps == [] || (Enabled(chain, s, steps[0]) && IsRun(chain, After(chain, s, steps[0]), steps[1..]))
  }

  ghost function Outcome(chain: MainChain, s: State, steps: seq<Step>): State
    requires IsRun(chain, s, steps)
    decreases |steps|
  {
    if steps == [] then s else Outcome(chain, After(chain, s, steps[0]), steps[1..])
  }

  function Start(genesis: Hash): State {
    State({genesis}, 0, map[])
  }

  // ---- what holds in every run ----

  /** Every block up to `height` passes, and what leads it is cached. */
  ghost predicate Passed(chain: MainChain, cache: set<Hash>, height: nat) {
    && height <= |chain|
    && forall h: nat | 1 <= h <= height :: Passes(AtHeight(chain, h)) && SetOf(Leading(AtHeight(chain, h))) <= cache
  }

  ghost predicate AllPass(chain: MainChain, height: int) {
    height <= |chain| && forall h: nat | 1 <= h <= height :: Passes(AtHeight(chain, h))
  }

  /** What is cached leads a block that an update can get to, except genesis. */
  ghost predicate Sound(chain: MainChain, genesis: Hash, cache: set<Hash>) {
    forall x | x in cache :: x == genesis || WithinReach(chain, x)
  }

  ghost predicate WithinReach(chain: MainChain, x: Hash) {
    exists h: nat :: x in Leading(AtHeight(chain, h)) && AllPass(chain, h - 1)
  }

  ghost predicate Inv(chain: MainChain, genesis: Hash, s: State) {
    && Sound(chain, genesis, s.cache) && Passed(chain, s.cache, s.currentHeight)
    && forall id | id in s.running :: s.running[id].next > 0 && Passed(chain, s.cache, s.running[id].next - 1)
  }

  lemma StepKeeps(chain: MainChain, genesis: Hash, s: State, step: Step)
    requires Inv(chain, genesis, s) && Enabled(chain, s, step)
    ensures Inv(chain, genesis, After(chain, s, step))
    ensures s.currentHeight <= After(chain, s, step).currentHeight && s.cache <= After(chain, s, step).cache
  {
    var u := After(chain, s, step);
    if step.Fetch? {
      FetchIsSound(chain, genesis, s, step.id);
      assert Passed(chain, u.cache, u.currentHeight);
      forall id | id in u.running
        ensures u.running[id].next > 0 && Passed(chain, u.cache, u.running[id].next - 1)
      {
        assert Passed(chain, s.cache, s.running[id].next - 1);
      }
    }
  }

  lemma FetchIsSound(chain: MainChain, genesis: Hash, s: State, id: nat)
    requires Inv(chain, genesis, s) && Enabled(chain, s, Fetch(id))
    ensures Sound(chain, genesis, After(chain, s, Fetch(id)).cache)
  {
    var h := s.running[id].next;
    assert AllPass(chain, h - 1);
    assert forall x | x in Leading(AtHeight(chain, h)) :: WithinReach(chain, x);
  }

  /** Over every interleaving of updates, finished or broken off, the height only rises, the
      cache only grows, */
  lemma {:induction false} RunKeeps(chain: MainChain, genesis: Hash, s: State, steps: seq<Step>)
    requires Inv(chain, genesis, s) && IsRun(chain, s, steps)
    ensures var u := Outcome(chain, s, steps);
            Inv(chain, genesis, u) && s.currentHeight <= u.currentHeight && s.cache <= u.cache
    decreases |steps|
  {
    if steps != [] {
      StepKeeps(chain, genesis, s, steps[0]);
      RunKeeps(chain, genesis, After(chain, s, steps[0]), steps[1..]);
    }
  }

  /** and nothing is cached but genesis and abstracts of the main chain. */
  lemma {:induction false} CacheIsSound(chain: MainChain, genesis: Hash, steps: seq<Step>, x: Hash)
    requires IsRun(chain, Start(genesis), steps) && x in Outcome(chain, Start(genesis), steps).cache
    ensures x == genesis || exists h: nat :: Abstract(x) in AtHeight(chain, h)
  {
    RunKeeps(chain, genesis, Start(genesis), steps);
    if x != genesis {
      var h: nat :| x in Leading(AtHeight(chain, h)) && AllPass(chain, h - 1);
      LeadingAre(AtHeight(chain, h));
      assert Abstract(x) in AtHeight(chain, h);
    }
  }

  // ---- how far the height can get ----

  /** The steps of one update that is always answered. */
  function Through(id: nat, from: nat, target: nat): seq<Step>
    decreases target - from
  {
    if from >= target then [Finish(id)] else [Fetch(id)] + Through(id, from + 1, target)
  }

  lemma {:induction false} ThroughReaches(chain: MainChain, s: State, id: nat, target: nat)
    requires AllPass(chain, target) && id in s.running && s.running[id].target == target
    requires 1 <= s.running[id].next <= target + 1
    ensures IsRun(chain, s, Through(id, s.running[id].next - 1, target))
    ensures Outcome(chain, s, Through(id, s.running[id].next - 1, target)).currentHeight >= target
    decreases target + 1 - s.running[id].next
  {
    var from := s.running[id].next - 1;
    var steps := Through(id, from, target);
    var u := After(chain, s, steps[0]);
    if from >= target {
      assert steps[1..] == [];
      assert Outcome(chain, u, steps[1..]) == u;
    } else {
      assert steps[1..] == Through(id, from + 1, target);
      ThroughReaches(chain, u, id, target);
    }
  }

  /** The height can get to `height` exactly when an update gets past every block up to there. */
  lemma {:induction false} HeightReachableIff(chain: MainChain, genesis: Hash, height: nat)
    ensures (exists steps :: IsRun(chain, Start(genesis), steps)
                             && Outcome(chain, Start(genesis), steps).currentHeight >= height)
            <==> AllPass(chain, height)
  {
    if steps :| IsRun(chain, Start(genesis), steps) && Outcome(chain, Start(genesis), steps).currentHeight >= height {
      RunKeeps(chain, genesis, Start(genesis), steps);
    }
    if AllPass(chain, height) {
      var begin := Begin(0, height);
      var s := After(chain, Start(genesis), begin);
      ThroughReaches(chain, s, 0, height);
      var steps := [begin] + Through(0, 0, height);
      assert steps[1..] == Through(0, 0, height);
      assert IsRun(chain, Start(genesis), steps);
      assert Outcome(chain, Start(genesis), steps).currentHeight >= height;
    }
  }

  // ---- how much of it is cached ----

  /** A hash is on the main chain at one height only, and that of genesis is not. */
  ghost predicate Distinct(chain: MainChain, genesis: Hash) {
    && (forall h: nat, g: nat, x | Abstract(x) in AtHeight(chain, h) && Abstract(x) in AtHeight(chain, g) :: h == g)
    && forall h: nat :: Abstract(genesis) !in AtHeight(chain, h)
  }

  /** Every abstract up to `height` is cached. */
  ghost predicate Complete(chain: MainChain, cache: set<Hash>, height: nat) {
    forall h: nat, x | h <= height && Abstract(x) in AtHeight(chain, h) :: x in cache
  }

  /** An abstract that does not lead its block, or is behind a block that no update gets past,
      is never cached. */
  lemma {:induction false} NeverCached(chain: MainChain, genesis: Hash, steps: seq<Step>, h: nat, x: Hash)
    requires Distinct(chain, genesis) && IsRun(chain, Start(genesis), steps)
    requires Abstract(x) in AtHeight(chain, h) && (x !in Leading(AtHeight(chain, h)) || !AllPass(chain, h - 1))
    ensures x !in Outcome(chain, Start(genesis), steps).cache
  {
    RunKeeps(chain, genesis, Start(genesis), steps);
    forall g: nat | x in Leading(AtHeight(chain, g))
      ensures g == h
    {
      LeadingAre(AtHeight(chain, g));
      assert Abstract(x) in AtHeight(chain, g);
    }
    assert x != genesis && !WithinReach(chain, x);
  }

  /** At every moment the cache is complete up to the current height exactly when no block up
      to there has an abstract behind a malformed entry. */
  lemma {:induction false} CompleteIff(chain: MainChain, genesis: Hash, steps: seq<Step>)
    requires Distinct(chain, genesis) && IsRun(chain, Start(genesis), steps)
    ensures var u := Outcome(chain, Start(genesis), steps);
            Complete(chain, u.cache, u.currentHeight)
            <==> forall h: nat | 1 <= h <= u.currentHeight :: LosesNothing(AtHeight(chain, h))
  {
    var u := Outcome(chain, Start(genesis), steps);
    RunKeeps(chain, genesis, Start(genesis), steps);
    forall h: nat, x | h <= u.currentHeight && Abstract(x) in AtHeight(chain, h)
      ensures x in u.cache <==> x in Leading(AtHeight(chain, h))
    {
      if x in Leading(AtHeight(chain, h)) {
        assert x in SetOf(Leading(AtHeight(chain, h)));
      } else {
        NeverCached(chain, genesis, steps, h, x);
      }
    }
  }

  /** Without malformed entries it always is. */
  lemma {:induction false} CompleteInRuns(chain: MainChain, genesis: Hash, steps: seq<Step>)
    requires IsRun(chain, Start(genesis), steps)
    requires forall h: nat :: Malformed !in AtHeight(chain, h)
    ensures var u := Outcome(chain, Start(genesis), steps); Complete(chain, u.cache, u.currentHeight)
  {
    var u := Outcome(chain, Start(genesis), steps);
    RunKeeps(chain, genesis, Start(genesis), steps);
    forall h: nat, x | h <= u.currentHeight && Abstract(x) in AtHeight(chain, h)
      ensures x in u.cache
    {
      LeadingAre(AtHeight(chain, h));
      assert x in SetOf(Leading(AtHeight(chain, h)));
    }
  }

  // ---- one entry that is no abstract ----

  /** A block that no update gets past stops the cache for good: the height stays below it,
      and no abstract behind it is ever cached. */
  lemma {:induction false} StuckForever(chain: MainChain, genesis: Hash, steps: seq<Step>, h: nat)
    requires 1 <= h <= |chain| && !Passes(AtHeight(chain, h)) && IsRun(chain, Start(genesis), steps)
    ensures Outcome(chain, Start(genesis), steps).currentHeight < h
    ensures Distinct(chain, genesis) ==>
              forall g: nat, x | g > h && Abstract(x) in AtHeight(chain, g) :: x !in Outcome(chain, Start(genesis), steps).cache
  {
    RunKeeps(chain, genesis, Start(genesis), steps);
    if Distinct(chain, genesis) {
      forall g: nat, x | g > h && Abstract(x) in AtHeight(chain, g)
        ensures x !in Outcome(chain, Start(genesis), steps).cache
      {
        NeverCached(chain, genesis, steps, g, x);
      }
    }
  }

  lemma OneLeads(x: Hash, rest: seq<Entry>)
    requires rest != [] && !rest[0].Abstract?
    ensures var block := [Abstract(x)] + rest; Leading(block) == [x] && (Passes(block) <==> rest[0].Malformed?)
  {
    var block := [Abstract(x)] + rest;
    assert block[1..] == rest && Leading(rest) == [];
    assert Leading(block) == [x] + Leading(block[1..]) == [x] && block[1] == rest[0];
  }

  /** It takes one unreadable entry: the abstract before it is cached, the height stays 0. */
  lemma UnreadableStops(x: Hash, y: Hash, genesis: Hash) returns (chain: MainChain, steps: seq<Step>)
    requires x != y && genesis != x && genesis != y
    ensures chain == [[Abstract(x), Unreadable], [Abstract(y)]]
    ensures IsRun(chain, Start(genesis), steps) && x in Outcome(chain, Start(genesis), steps).cache
    ensures forall more | IsRun(chain, Start(genesis), more) ::
              Outcome(chain, Start(genesis), more).currentHeight == 0 && y !in Outcome(chain, Start(genesis), more).cache
  {
    var first, second := [Abstract(x)] + [Unreadable], [Abstract(y)];
    chain, steps := [first, second], [Begin(0, 2), Fetch(0)];
    assert first == [Abstract(x), Unreadable];
    OneLeads(x, [Unreadable]);
    assert AtHeight(chain, 1) == first && AtHeight(chain, 2) == second;
    assert forall h: nat :: AtHeight(chain, h) == if h == 1 then first else if h == 2 then second else [];
    assert Distinct(chain, genesis);
    var s := After(chain, Start(genesis), steps[0]);
    assert steps[1..] == [Fetch(0)] && steps[1..][1..] == [];
    assert x in SetOf(Leading(first));
    assert Outcome(chain, Start(genesis), steps) == Outcome(chain, s, steps[1..]) == After(chain, s, Fetch(0));
    forall more | IsRun(chain, Start(genesis), more)
      ensures Outcome(chain, Start(genesis), more).currentHeight == 0 && y !in Outcome(chain, Start(genesis), more).cache
    {
      StuckForever(chain, genesis, more, 1);
      assert Abstract(y) in AtHeight(chain, 2);
    }
  }

  /** A malformed entry with an abstract on either side is passed, and loses the second. */
  lemma MalformedLoses(x: Hash, y: Hash, genesis: Hash) returns (chain: MainChain, steps: seq<Step>)
    requires x != y && genesis != x && genesis != y
    ensures chain == [[Abstract(x), Malformed, Abstract(y)]]
    ensures IsRun(chain, Start(genesis), steps) && Outcome(chain, Start(genesis), steps).currentHeight >= 1
    ensures forall more | IsRun(chain, Start(genesis), more) :: y !in Outcome(chain, Start(genesis), more).cache
  {
    var block := [Abstract(x)] + [Malformed, Abstract(y)];
    chain := [block];
    assert block == [Abstract(x), Malformed, Abstract(y)];
    OneLeads(x, [Malformed, Abstract(y)]);
    assert AtHeight(chain, 1) == block && block[2] == Abstract(y);
    assert forall h: nat :: AtHeight(chain, h) == if h == 1 then block else [];
    assert Distinct(chain, genesis);
    assert AllPass(chain, 1);
    HeightReachableIff(chain, genesis, 1);
    steps :| IsRun(chain, Start(genesis), steps) && Outcome(chain, Start(genesis), steps).currentHeight >= 1;
    forall more | IsRun(chain, Start(genesis), more)
      ensures y !in Outcome(chain, Start(genesis), more).cache
    {
      NeverCached(chain, genesis, more, 1, y);
    }
  }

  // ---- one update on its own ----

  /** The steps of an update that has got to `from` and stops at `end`. */
  function StepsTo(id: nat, from: nat, to: nat, end: nat, answered: bool): seq<Step>
    decreases end - from
  {
    if from + 1 < end then [Fetch(id)] + StepsTo(id, from + 1, to, end, answered)
    else if end > to then [Finish(id)]
    else if answered then [Fetch(id)] else [NoAnswer(id)]
  }

  /** What `UpdateCacheBlocking` does to the cache is a run of such steps. */
  lemma {:induction false} UpdateIsRun(chain: MainChain, answers: Answers, s: State, id: nat, to: nat, end: nat, cache: set<Hash>)
    requires Truthful(chain, answers) && StopsAt(answers, s.currentHeight, to, end) && id !in s.running
    requires forall x :: x in cache <==> x in s.cache || LeadsIn(answers, s.currentHeight, if end <= to then end else to, x)
    ensures var steps := [Begin(id, to)] + StepsTo(id, s.currentHeight, to, end, answers(end).Some?);
            && IsRun(chain, s, steps)
            && Outcome(chain, s, steps) ==
               State(cache, if end <= to || to <= s.currentHeight then s.currentHeight else to, s.running)
  {
    var rest := StepsTo(id, s.currentHeight, to, end, answers(end).Some?);
    var steps := [Begin(id, to)] + rest;
    var u := After(chain, s, Begin(id, to));
    assert steps[1..] == rest && u.running - {id} == s.running;
    FetchesAreRun(chain, answers, u, id, s.currentHeight, to, end, cache);
  }

  lemma {:induction false} FetchesAreRun(chain: MainChain, answers: Answers, s: State, id: nat, from: nat, to: nat, end: nat,
                                         cache: set<Hash>)
    requires Truthful(chain, answers) && StopsAt(answers, from, to, end) && id in s.running
    requires s.running[id] == Update(from + 1, to) && s.currentHeight <= from
    requires forall x :: x in cache <==> x in s.cache || LeadsIn(answers, from, if end <= to then end else to, x)
    ensures var steps := StepsTo(id, from, to, end, answers(end).Some?);
            && IsRun(chain, s, steps)
            && Outcome(chain, s, steps) ==
               State(cache, if end <= to || to <= s.currentHeight then s.currentHeight else to, s.running - {id})
    decreases end - from
  {
    var steps := StepsTo(id, from, to, end, answers(end).Some?);
    if from + 1 < end {
      var u := FetchOne(chain, answers, s, id, from, to);
      assert steps[1..] == StepsTo(id, from + 1, to, end, answers(end).Some?);
      FirstHeight(answers, from, if end <= to then end else to);
      FetchesAreRun(chain, answers, u, id, from + 1, to, end, cache);
      assert u.running - {id} == s.running - {id};
    } else {
      LastStep(chain, answers, s, id, from, to, cache);
      assert steps[1..] == [];
      assert Outcome(chain, s, steps) == After(chain, s, steps[0]);
    }
  }

  /** A height that the update gets past. */
  lemma FetchOne(chain: MainChain, answers: Answers, s: State, id: nat, from: nat, to: nat) returns (u: State)
    requires Truthful(chain, answers) && Gets(answers, from + 1) && id in s.running && s.running[id] == Update(from + 1, to)
    requires from < to
    ensures Enabled(chain, s, Fetch(id)) && u == After(chain, s, Fetch(id))
    ensures u.currentHeight == s.currentHeight && u.running == s.running[id := Update(from + 2, to)]
    ensures forall x :: x in u.cache <==> x in s.cache || Leads(answers, from + 1, x)
  {
    u := After(chain, s, Fetch(id));
  }

  lemma FirstHeight(answers: Answers, from: nat, upto: nat)
    requires from < upto
    ensures forall x :: LeadsIn(answers, from, upto, x) <==> Leads(answers, from + 1, x) || LeadsIn(answers, from + 1, upto, x)
  {
  }

  /** The last step of an update: it is through, or does not get past the next height. */
  lemma LastStep(chain: MainChain, answers: Answers, s: State, id: nat, from: nat, to: nat, cache: set<Hash>)
    requires Truthful(chain, answers) && id in s.running && s.running[id] == Update(from + 1, to) && s.currentHeight <= from
    requires StopsAt(answers, from, to, from + 1)
    requires forall x :: x in cache <==> x in s.cache || LeadsIn(answers, from, if from < to then from + 1 else to, x)
    ensures var step := if from >= to then Finish(id) else if answers(from + 1).Some? then Fetch(id) else NoAnswer(id);
            && Enabled(chain, s, step)
            && After(chain, s, step) ==
               State(cache, if from < to || to <= s.currentHeight then s.currentHeight else to, s.running - {id})
  {
    if from < to {
      var next := from + 1;
      assert forall x :: LeadsIn(answers, from, next, x) <==> Leads(answers, next, x);
      if answers(from + 1).Some? {
        assert cache == s.cache + SetOf(Leading(AtHeight(chain, from + 1)));
      } else {
        assert cache == s.cache;
      }
    } else {
      assert cache == s.cache;
    }
  }
}
