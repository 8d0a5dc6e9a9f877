/** Whole runs of one node's pattern and sender: back-pressure, progress and shutdown. */
module SendingRuns {
  import opened Ledger
  import opened ChainReplication
  import opened Sending

  datatype Step = Act(created: Option<Transaction>) | Pass | Learn(number: nat)

  /** A node that commits every `commitEvery` blocks; fewer than one means every block. */
  function Period(commitEvery: nat): nat {
    if commitEvery == 0 then 1 else commitEvery
  }

  function Start(genesis: Block): State {
    State([genesis], [true], 0, {}, 0)
  }

  function After(s: State, owner: NodeId, commitEvery: nat, step: Step): State
    requires WellFormed(s)
  {
    match step
    case Act(created) => Acted(s, owner, commitEvery, created)
    case Pass => Passed(s)
    case Learn(number) => s.(present := s.present + {number})
  }

  function Run(s: State, owner: NodeId, commitEvery: nat, steps: seq<Step>): (r: State)
    requires WellFormed(s)
    ensures WellFormed(r)
    decreases |steps|
  {
    if steps == [] then s else Run(After(s, owner, commitEvery, steps[0]), owner, commitEvery, steps[1..])
  }

  // ---- what every run keeps ----

  /** Commits are exactly the multiples of the period, and the last block sent is one of them. */
  ghost predicate Regular(s: State, period: nat)
    requires period > 0
  {
    && |s.committed| > 0
    && (forall c: nat | c < |s.committed| :: s.committed[c] <==> c % period == 0)
    && s.lastCommitted == |s.committed| - 1 - (|s.committed| - 1) % period
    && s.alreadySent % period == 0
  }

  /** No more blocks wait than may, all of them with transactions; every block sent has
      the required commits at or after it. */
  ghost predicate RunOk(s: State, commitEvery: nat) {
    && WellFormed(s) && Regular(s, Period(commitEvery))
    && (forall i | 1 <= i < |s.blocks| :: s.blocks[i].transactions != [])
    && s.alreadySent < |s.blocks| <= s.alreadySent + MAX_BLOCKS_PENDING + 1
    && (s.alreadySent > 0 ==> s.committed[s.alreadySent])
    && forall b: nat | 1 <= b <= s.alreadySent :: |CommitsFrom(s.committed, s.present, b)| >= REQUIRED_COMMITS
  }

  lemma FullBlocksWait(s: State)
    requires WellFormed(s) && forall i | 1 <= i < |s.blocks| :: s.blocks[i].transactions != []
    ensures QueueEnd(s.blocks) == |s.blocks| - 1
  {
    QueueEndIs(s.blocks, |s.blocks| - 1);
  }

  /** `n % p == 0` moves on with `n` until `p` more. */
  lemma NextMultiple(n: nat, p: nat)
    requires p > 0
    ensures var r := n % p;
            && ((n + 1) % p == 0 <==> r + 1 == p)
            && (n + 1 - (n - r) >= p <==> r + 1 == p)
            && (r + 1 != p ==> (n + 1) % p == r + 1)
  {
    if n % p + 1 == p {
      assert n + 1 == (n / p + 1) * p;
      assert (n + 1) % p == 0 by { MultipleHasNoRest(n / p + 1, p, 0); }
    } else {
      assert n + 1 == (n / p) * p + (n % p + 1);
      MultipleHasNoRest(n / p, p, n % p + 1);
    }
  }

  lemma MultipleHasNoRest(q: nat, p: nat, r: nat)
    requires r < p
    ensures (q * p + r) % p == r && (q * p + r) / p == q
  {
    var k := (q * p + r) / p;
    if k < q {
      TimesGrows(k + 1, q, p);
    } else {
      TimesGrows(q, k, p);
      if q < k {
        TimesGrows(q + 1, k, p);
      }
    }
  }

  lemma {:induction false} TimesGrows(a: nat, b: nat, p: nat)
    requires a <= b
    ensures a * p <= b * p && (a + 1) * p == a * p + p
    decreases b - a
  {
    if a < b {
      TimesGrows(a + 1, b, p);
    }
  }

  lemma ActKeeps(s: State, owner: NodeId, commitEvery: nat, created: Option<Transaction>)
    requires RunOk(s, commitEvery)
    ensures RunOk(Acted(s, owner, commitEvery, created), commitEvery)
  {
    FullBlocksWait(s);
    if Waiting(s) < MAX_BLOCKS_PENDING && created.Some? {
      var a := Appended(s, owner, [created.value]);
      var t := TipCommitted(a, false, commitEvery);
      NextMultiple(|s.committed| - 1, Period(commitEvery));
      forall b: nat | 1 <= b <= s.alreadySent
        ensures |CommitsFrom(t.committed, t.present, b)| >= REQUIRED_COMMITS
      {
        CommitsGrow(s.committed, t.committed, s.present, t.present, b, b);
      }
    }
  }

  lemma PassKeeps(s: State, commitEvery: nat)
    requires RunOk(s, commitEvery)
    ensures RunOk(Passed(s), commitEvery)
  {
    var t := Passed(s);
    PassIsSafe(s.committed, s.present, s.alreadySent);
    PassExhausts(s.committed, s.present, s.alreadySent);
    forall b: nat | 1 <= b <= t.alreadySent
      ensures |CommitsFrom(t.committed, t.present, b)| >= REQUIRED_COMMITS
    {
      if t.alreadySent != s.alreadySent {
        CommitsGrow(s.committed, s.committed, s.present, s.present, t.alreadySent, b);
      }
    }
  }

  lemma LearnKeeps(s: State, commitEvery: nat, number: nat)
    requires RunOk(s, commitEvery)
    ensures RunOk(s.(present := s.present + {number}), commitEvery)
  {
    forall b: nat | 1 <= b <= s.alreadySent
      ensures |CommitsFrom(s.committed, s.present + {number}, b)| >= REQUIRED_COMMITS
    {
      CommitsGrow(s.committed, s.committed, s.present, s.present + {number}, b, b);
    }
  }

  lemma {:induction false} RunKeeps(s: State, owner: NodeId, commitEvery: nat, steps: seq<Step>)
    requires RunOk(s, commitEvery)
    ensures RunOk(Run(s, owner, commitEvery, steps), commitEvery)
    decreases |steps|
  {
    if steps != [] {
      match steps[0] {
        case Act(created) => ActKeeps(s, owner, commitEvery, created);
        case Pass => PassKeeps(s, commitEvery);
        case Learn(number) => LearnKeeps(s, commitEvery, number);
      }
      RunKeeps(After(s, owner, commitEvery, steps[0]), owner, commitEvery, steps[1..]);
    }
  }

  /** In every run, at most `MAX_BLOCKS_PENDING` blocks wait, and every block that has been
      sent has the required commits. */
  lemma {:induction false} BackPressureInRuns(genesis: Block, owner: NodeId, commitEvery: nat, steps: seq<Step>, b: nat)
    ensures var s := Run(Start(genesis), owner, commitEvery, steps);
            && 0 <= Waiting(s) <= MAX_BLOCKS_PENDING
            && (s.alreadySent == 0 || (s.alreadySent < |s.committed| && s.committed[s.alreadySent]))
            && (1 <= b <= s.alreadySent ==> |CommitsFrom(s.committed, s.present, b)| >= REQUIRED_COMMITS)
  {
    RunKeeps(Start(genesis), owner, commitEvery, steps);
    FullBlocksWait(Run(Start(genesis), owner, commitEvery, steps));
  }

  // ---- progress ----

  ghost predicate AllPresent(s: State) {
    forall c: nat | c < |s.committed| && s.committed[c] :: c in s.present
  }

  lemma BetweenMultiples(m: nat, p: nat, d: nat)
    requires p > 0 && m % p == 0 && d <= p
    ensures (m + d) % p == 0 <==> d == 0 || d == p
  {
    var q := m / p;
    if d == p {
      assert m + d == (q + 1) * p + 0;
      MultipleHasNoRest(q + 1, p, 0);
    } else {
      assert m + d == q * p + d;
      MultipleHasNoRest(q, p, d);
    }
  }

  lemma CommittedIff(s: State, p: nat, c: nat)
    requires p > 0 && Regular(s, p) && c < |s.committed|
    ensures s.committed[c] <==> c % p == 0
  {
  }

  /** From a commit, the next one is a period away. */
  lemma NextCommit(s: State, p: nat, m: nat)
    requires p > 0 && Regular(s, p) && m % p == 0 && m < |s.committed|
    ensures NextMarked(s.committed, m + 1) == if m + p < |s.committed| then m + p else -1
    ensures (m + p) % p == 0
  {
    var marks := s.committed;
    forall c: nat | m < c < m + p && c < |marks|
      ensures !marks[c]
    {
      BetweenMultiples(m, p, c - m);
      CommittedIff(s, p, c);
    }
    BetweenMultiples(m, p, p);
    if m + p < |marks| {
      CommittedIff(s, p, m + p);
    }
    FirstMark(marks, m + 1, m + p);
  }

  lemma {:induction false} FirstMark(marks: seq<bool>, i: nat, j: nat)
    requires i <= j && i <= |marks| && (forall c | i <= c < j && c < |marks| :: !marks[c]) && (j < |marks| ==> marks[j])
    ensures NextMarked(marks, i) == if j < |marks| then j else -1
  {
    if j < |marks| {
      NextMarkedIsLeast(marks, i, j);
    } else {
      NextMarkedRange(marks, i);
    }
  }

  /** The scan from the last block sent sees at most the multiples ahead, and all of them
      once they are on the main chain. */
  lemma ScanSees(s: State, p: nat)
    requires p > 0 && Regular(s, p) && s.alreadySent < |s.committed|
    ensures |Scan(s.committed, s.present, s.alreadySent + 1)| >= REQUIRED_COMMITS ==> s.alreadySent + REQUIRED_COMMITS * p < |s.committed|
    ensures AllPresent(s) && s.alreadySent + REQUIRED_COMMITS * p < |s.committed| ==>
              |Scan(s.committed, s.present, s.alreadySent + 1)| >= REQUIRED_COMMITS
  {
    var m := s.alreadySent;
    NextCommit(s, p, m);
    ScanStepOrEnd(s, m);
    if m + p < |s.committed| {
      NextCommit(s, p, m + p);
      ScanStepOrEnd(s, m + p);
      CommittedIff(s, p, m + p);
      if m + p + p < |s.committed| {
        CommittedIff(s, p, m + p + p);
      }
    }
  }

  lemma ScanStepOrEnd(s: State, m: nat)
    requires m < |s.committed|
    ensures var c := NextMarked(s.committed, m + 1);
            if c == -1 || c !in s.present then Scan(s.committed, s.present, m + 1) == []
            else m < c < |s.committed| && Scan(s.committed, s.present, m + 1) == [c] + Scan(s.committed, s.present, c + 1)
  {
    if m + 1 < |s.committed| {
      ScanStep(s.committed, s.present, m + 1, NextMarked(s.committed, m + 1));
    }
  }

  /** When the queue is full and all commits are on the main chain, the next pass sends
      something exactly when the period is short enough. */
  lemma FullQueueMovesIff(s: State, commitEvery: nat)
    requires RunOk(s, commitEvery) && Waiting(s) >= MAX_BLOCKS_PENDING && AllPresent(s)
    ensures Passed(s).alreadySent > s.alreadySent <==> REQUIRED_COMMITS * Period(commitEvery) <= MAX_BLOCKS_PENDING
  {
    FullBlocksWait(s);
    ScanSees(s, Period(commitEvery));
  }

  /** A node that will never send again, whatever reaches the main chain. */
  ghost predicate Stuck(s: State, owner: NodeId, commitEvery: nat)
    requires WellFormed(s)
  {
    && Waiting(s) >= MAX_BLOCKS_PENDING
    && forall steps :: Run(s, owner, commitEvery, steps).alreadySent == s.alreadySent
  }

  lemma {:induction false} FullQueueStays(s: State, owner: NodeId, commitEvery: nat, steps: seq<Step>)
    requires RunOk(s, commitEvery) && Waiting(s) >= MAX_BLOCKS_PENDING
    requires REQUIRED_COMMITS * Period(commitEvery) > MAX_BLOCKS_PENDING
    ensures Run(s, owner, commitEvery, steps).alreadySent == s.alreadySent
    decreases |steps|
  {
    if steps != [] {
      FullBlocksWait(s);
      ScanSees(s, Period(commitEvery));
      RunKeeps(s, owner, commitEvery, [steps[0]]);
      assert Run(s, owner, commitEvery, [steps[0]]) == After(s, owner, commitEvery, steps[0]);
      FullQueueStays(After(s, owner, commitEvery, steps[0]), owner, commitEvery, steps[1..]);
    }
  }

  lemma {:induction false} RunsCompose(s: State, owner: NodeId, commitEvery: nat, a: seq<Step>, b: seq<Step>)
    requires WellFormed(s)
    ensures Run(s, owner, commitEvery, a + b) == Run(Run(s, owner, commitEvery, a), owner, commitEvery, b)
    decreases |a|
  {
    if a == [] {
      assert a + b == b;
    } else {
      assert (a + b)[0] == a[0] && (a + b)[1..] == a[1..] + b;
      RunsCompose(After(s, owner, commitEvery, a[0]), owner, commitEvery, a[1..], b);
    }
  }

  function Learns(n: nat): seq<Step> {
    if n == 0 then [] else Learns(n - 1) + [Learn(n - 1)]
  }

  lemma {:induction false} LearnsAll(s: State, owner: NodeId, commitEvery: nat, n: nat)
    requires WellFormed(s)
    ensures var u := Run(s, owner, commitEvery, Learns(n));
            u == s.(present := u.present) && forall i: nat | i < n :: i in u.present
  {
    if n > 0 {
      LearnsAll(s, owner, commitEvery, n - 1);
      RunsCompose(s, owner, commitEvery, Learns(n - 1), [Learn(n - 1)]);
      var u := Run(s, owner, commitEvery, Learns(n - 1));
      assert Run(u, owner, commitEvery, [Learn(n - 1)]) == u.(present := u.present + {n - 1});
    }
  }

  function Acts(t: Transaction, n: nat): seq<Step> {
    if n == 0 then [] else [Act(Some(t))] + Acts(t, n - 1)
  }

  /** As long as nothing is sent, the queue fills up. */
  lemma {:induction false} QueueFills(s: State, owner: NodeId, commitEvery: nat, t: Transaction, n: nat)
    requires RunOk(s, commitEvery) && |s.blocks| + n <= s.alreadySent + MAX_BLOCKS_PENDING + 1
    ensures var u := Run(s, owner, commitEvery, Acts(t, n));
            u.alreadySent == s.alreadySent && u.present == s.present && |u.blocks| == |s.blocks| + n
    decreases n
  {
    if n > 0 {
      FullBlocksWait(s);
      ActKeeps(s, owner, commitEvery, Some(t));
      assert Acts(t, n)[1..] == Acts(t, n - 1);
      QueueFills(Acted(s, owner, commitEvery, Some(t)), owner, commitEvery, t, n - 1);
    }
  }

  /** A node can get stuck in some run exactly when its period is too long: back-pressure
      then keeps it from making the blocks whose commits its queue is waiting for. */
  lemma StuckReachableIff(genesis: Block, owner: NodeId, commitEvery: nat, t: Transaction)
    ensures (exists steps :: Stuck(Run(Start(genesis), owner, commitEvery, steps), owner, commitEvery))
            <==> REQUIRED_COMMITS * Period(commitEvery) > MAX_BLOCKS_PENDING
  {
    var s := Start(genesis);
    if REQUIRED_COMMITS * Period(commitEvery) > MAX_BLOCKS_PENDING {
      var steps := Acts(t, MAX_BLOCKS_PENDING);
      var u := Run(s, owner, commitEvery, steps);
      QueueFills(s, owner, commitEvery, t, MAX_BLOCKS_PENDING);
      RunKeeps(s, owner, commitEvery, steps);
      FullBlocksWait(u);
      forall more
        ensures Run(u, owner, commitEvery, more).alreadySent == u.alreadySent
      {
        FullQueueStays(u, owner, commitEvery, more);
      }
      assert Stuck(u, owner, commitEvery);
    } else {
      forall steps
        ensures !Stuck(Run(s, owner, commitEvery, steps), owner, commitEvery)
      {
        RunKeeps(s, owner, commitEvery, steps);
        ShortPeriodMoves(Run(s, owner, commitEvery, steps), owner, commitEvery);
      }
    }
  }

  lemma ShortPeriodMoves(s: State, owner: NodeId, commitEvery: nat)
    requires RunOk(s, commitEvery) && REQUIRED_COMMITS * Period(commitEvery) <= MAX_BLOCKS_PENDING
    ensures !Stuck(s, owner, commitEvery)
  {
    if Waiting(s) >= MAX_BLOCKS_PENDING {
      var steps := Learns(|s.committed|);
      LearnsAll(s, owner, commitEvery, |s.committed|);
      var u := Run(s, owner, commitEvery, steps);
      RunKeeps(s, owner, commitEvery, steps);
      assert AllPresent(u) && Waiting(u) == Waiting(s);
      FullQueueMovesIff(u, commitEvery);
      RunsCompose(s, owner, commitEvery, steps, [Pass]);
      assert Run(u, owner, commitEvery, [Pass]) == Passed(u);
      assert Run(s, owner, commitEvery, steps + [Pass]).alreadySent != s.alreadySent;
    }
  }

  // ---- a commit that never arrives ----

  lemma {:induction false} ScanStopsBefore(committed: seq<bool>, present: set<nat>, i: nat, c: nat)
    requires i <= c < |committed| && committed[c] && c !in present
    ensures forall j | 0 <= j < |Scan(committed, present, i)| :: Scan(committed, present, i)[j] < c
    decreases |committed| - i
  {
    var scan, next := Scan(committed, present, i), NextMarked(committed, i);
    NextMarkedIsLeast(committed, i, c);
    if scan != [] {
      assert scan == [next] + Scan(committed, present, next + 1);
      ScanStopsBefore(committed, present, next + 1, c);
    }
  }

  /** `Block.commit` ignores that `commitAbstract` failed.  Such a block stops the sender for
      good: whatever is committed and learnt later, nothing from it on is ever sent. */
  lemma {:induction false} LostCommitStops(s: State, owner: NodeId, commitEvery: nat, steps: seq<Step>, c: nat)
    requires WellFormed(s) && c < |s.committed| && s.committed[c] && c !in s.present && s.alreadySent < c
    requires forall i | 0 <= i < |steps| :: steps[i] != Learn(c)
    ensures Run(s, owner, commitEvery, steps).alreadySent < c
    decreases |steps|
  {
    if steps != [] {
      var u := After(s, owner, commitEvery, steps[0]);
      ScanStopsBefore(s.committed, s.present, s.alreadySent + 1, c);
      assert u.alreadySent < c && c < |u.committed| && u.committed[c] && c !in u.present;
      LostCommitStops(u, owner, commitEvery, steps[1..], c);
    }
  }

  /** The run never learns that one of `lost` is on the main chain. */
  ghost predicate Misses(steps: seq<Step>, lost: set<nat>) {
    forall i | 0 <= i < |steps| && steps[i].Learn? :: steps[i].number !in lost
  }

  /** Every commit that has to be seen before block `c` is sent was seen, or can be. */
  ghost predicate Available(s: State, p: nat, lost: set<nat>, c: nat)
    requires p > 0
  {
    forall d: nat | s.alreadySent < d <= c + p && d % p == 0 :: d in s.present || d !in lost
  }

  /** Since `s`, nothing was sent, or all commits up to a period past the last block sent were seen. */
  ghost predicate SentSeen(s: State, u: State, p: nat)
    requires p > 0
  {
    u.alreadySent > s.alreadySent ==> forall d: nat | s.alreadySent < d <= u.alreadySent + p && d % p == 0 :: d in u.present
  }

  /** What a pass sends ends a period before a commit that it has seen. */
  lemma PassSeesPeriod(s: State, commitEvery: nat, d: nat)
    requires RunOk(s, commitEvery) && Passed(s).alreadySent > s.alreadySent
    requires s.alreadySent < d <= Passed(s).alreadySent + Period(commitEvery) && d % Period(commitEvery) == 0
    ensures d in s.present
  {
    var p, a := Period(commitEvery), Passed(s).alreadySent;
    PassKeeps(s, commitEvery);
    PassSendsIff(s.committed, s.present, s.alreadySent, a);
    var c, e :| a <= c < e < |s.committed| && Released(s.committed, s.present, s.alreadySent, c, e);
    if e < a + p {
      BetweenMultiples(a, p, e - a);
      assert false;
    }
    CommittedIff(s, p, d);
  }

  lemma StepSeen(s: State, u: State, owner: NodeId, commitEvery: nat, step: Step)
    requires RunOk(u, commitEvery) && s.alreadySent <= u.alreadySent && SentSeen(s, u, Period(commitEvery))
    ensures SentSeen(s, After(u, owner, commitEvery, step), Period(commitEvery))
    ensures s.alreadySent <= After(u, owner, commitEvery, step).alreadySent
  {
    var p := Period(commitEvery);
    PassExhausts(u.committed, u.present, u.alreadySent);
    if step.Pass? && Passed(u).alreadySent > u.alreadySent {
      forall d: nat | s.alreadySent < d <= Passed(u).alreadySent + p && d % p == 0
        ensures d in u.present
      {
        if d > u.alreadySent {
          PassSeesPeriod(u, commitEvery, d);
        }
      }
    }
  }

  lemma {:induction false} RunSeen(s: State, u: State, owner: NodeId, commitEvery: nat, steps: seq<Step>, lost: set<nat>)
    requires RunOk(u, commitEvery) && s.alreadySent <= u.alreadySent && SentSeen(s, u, Period(commitEvery)) && Misses(steps, lost)
    ensures var v := Run(u, owner, commitEvery, steps);
            && SentSeen(s, v, Period(commitEvery))
            && forall d | d in v.present :: d in u.present || d !in lost
    decreases |steps|
  {
    if steps != [] {
      var next := After(u, owner, commitEvery, steps[0]);
      StepSeen(s, u, owner, commitEvery, steps[0]);
      RunKeeps(u, owner, commitEvery, [steps[0]]);
      assert Run(u, owner, commitEvery, [steps[0]]) == next;
      RunSeen(s, next, owner, commitEvery, steps[1..], lost);
    }
  }

  /** Blocks are made until the second commit from here is there. */
  lemma MakeBlocks(s: State, owner: NodeId, commitEvery: nat, t: Transaction, lost: set<nat>) returns (steps: seq<Step>)
    requires RunOk(s, commitEvery) && REQUIRED_COMMITS * Period(commitEvery) <= MAX_BLOCKS_PENDING
    ensures Misses(steps, lost)
    ensures var u := Run(s, owner, commitEvery, steps);
            && RunOk(u, commitEvery) && u.alreadySent == s.alreadySent && u.present == s.present
            && s.alreadySent + REQUIRED_COMMITS * Period(commitEvery) < |u.committed|
  {
    var end := s.alreadySent + REQUIRED_COMMITS * Period(commitEvery);
    var n := if end < |s.blocks| then 0 else end + 1 - |s.blocks|;
    steps := Acts(t, n);
    QueueFills(s, owner, commitEvery, t, n);
    RunKeeps(s, owner, commitEvery, steps);
    ActsMissAll(t, n, lost);
  }

  lemma {:induction false} ActsMissAll(t: Transaction, n: nat, lost: set<nat>)
    ensures Misses(Acts(t, n), lost)
  {
    if n > 0 {
      ActsMissAll(t, n - 1, lost);
    }
  }

  /** One commit is learnt, if it was not. */
  lemma LearnOne(s: State, owner: NodeId, commitEvery: nat, lost: set<nat>, d: nat) returns (steps: seq<Step>)
    requires RunOk(s, commitEvery) && (d in s.present || d !in lost)
    ensures Misses(steps, lost)
    ensures var u := Run(s, owner, commitEvery, steps);
            RunOk(u, commitEvery) && u == s.(present := s.present + {d})
  {
    if d in s.present {
      steps := [];
      assert s.present + {d} == s.present;
    } else {
      steps := [Learn(d)];
      assert Run(s, owner, commitEvery, steps) == After(s, owner, commitEvery, Learn(d));
      LearnKeeps(s, commitEvery, d);
    }
  }

  /** With two more commits at hand, a pass sends one more period. */
  lemma PassSendsPeriod(s: State, commitEvery: nat)
    requires RunOk(s, commitEvery) && s.alreadySent + REQUIRED_COMMITS * Period(commitEvery) < |s.committed|
    requires s.alreadySent + Period(commitEvery) in s.present && s.alreadySent + REQUIRED_COMMITS * Period(commitEvery) in s.present
    ensures Passed(s).alreadySent >= s.alreadySent + Period(commitEvery)
  {
    var p, m := Period(commitEvery), s.alreadySent;
    BetweenMultiples(m, p, p);
    BetweenMultiples(m + p, p, p);
    CommittedIff(s, p, m + p);
    CommittedIff(s, p, m + p + p);
    forall x: nat | m < x <= m + p + p && s.committed[x]
      ensures x in s.present
    {
      CommittedIff(s, p, x);
      if x <= m + p {
        BetweenMultiples(m, p, x - m);
      } else {
        BetweenMultiples(m + p, p, x - m - p);
      }
    }
    assert Released(s.committed, s.present, m, m + p, m + p + p);
    PassSendsIff(s.committed, s.present, m, m + p);
  }

  lemma SendPeriod(s: State, owner: NodeId, commitEvery: nat, t: Transaction, lost: set<nat>) returns (steps: seq<Step>)
    requires RunOk(s, commitEvery) && REQUIRED_COMMITS * Period(commitEvery) <= MAX_BLOCKS_PENDING
    requires Available(s, Period(commitEvery), lost, s.alreadySent + Period(commitEvery))
    ensures Misses(steps, lost)
    ensures var u := Run(s, owner, commitEvery, steps);
            RunOk(u, commitEvery) && u.alreadySent >= s.alreadySent + Period(commitEvery) && s.present <= u.present
  {
    var p, m := Period(commitEvery), s.alreadySent;
    BetweenMultiples(m, p, p);
    BetweenMultiples(m + p, p, p);
    var make := MakeBlocks(s, owner, commitEvery, t, lost);
    var u := Run(s, owner, commitEvery, make);
    var first := LearnOne(u, owner, commitEvery, lost, m + p);
    var v := Run(u, owner, commitEvery, first);
    var second := LearnOne(v, owner, commitEvery, lost, m + p + p);
    var x := Run(v, owner, commitEvery, second);
    PassSendsPeriod(x, commitEvery);
    PassKeeps(x, commitEvery);
    assert Run(x, owner, commitEvery, [Pass]) == Passed(x);
    RunsCompose(v, owner, commitEvery, second, [Pass]);
    RunsCompose(u, owner, commitEvery, first, second + [Pass]);
    RunsCompose(s, owner, commitEvery, make, first + (second + [Pass]));
    steps := make + (first + (second + [Pass]));
  }

  lemma {:induction false} SendUpTo(s: State, owner: NodeId, commitEvery: nat, t: Transaction, lost: set<nat>, c: nat)
    returns (steps: seq<Step>)
    requires RunOk(s, commitEvery) && REQUIRED_COMMITS * Period(commitEvery) <= MAX_BLOCKS_PENDING
    requires c % Period(commitEvery) == 0 && Available(s, Period(commitEvery), lost, c)
    ensures Misses(steps, lost) && Run(s, owner, commitEvery, steps).alreadySent >= c
    decreases if c > s.alreadySent then c - s.alreadySent else 0
  {
    if s.alreadySent >= c {
      return [];
    }
    var p := Period(commitEvery);
    if c < s.alreadySent + p {
      BetweenMultiples(s.alreadySent, p, c - s.alreadySent);
      assert false;
    }
    var first := SendPeriod(s, owner, commitEvery, t, lost);
    var u := Run(s, owner, commitEvery, first);
    var rest := SendUpTo(u, owner, commitEvery, t, lost, c);
    RunsCompose(s, owner, commitEvery, first, rest);
    steps := first + rest;
  }

  /** Exactly what a lost commit costs: with a period that fits the queue, commit `c` gets sent
      in some run that never sees the commits in `lost` if and only if none of those is still
      missing up to one period past `c`. */
  lemma LossIff(s: State, owner: NodeId, commitEvery: nat, t: Transaction, lost: set<nat>, c: nat)
    requires RunOk(s, commitEvery) && REQUIRED_COMMITS * Period(commitEvery) <= MAX_BLOCKS_PENDING
    requires c % Period(commitEvery) == 0 && c > s.alreadySent
    ensures (exists steps :: Misses(steps, lost) && Run(s, owner, commitEvery, steps).alreadySent >= c)
            <==> Available(s, Period(commitEvery), lost, c)
  {
    if steps :| Misses(steps, lost) && Run(s, owner, commitEvery, steps).alreadySent >= c {
      RunSeen(s, s, owner, commitEvery, steps, lost);
    }
    if Available(s, Period(commitEvery), lost, c) {
      var steps := SendUpTo(s, owner, commitEvery, t, lost, c);
      assert Misses(steps, lost) && Run(s, owner, commitEvery, steps).alreadySent >= c;
    }
  }

  // ---- shutdown ----

  lemma {:induction false} TailScan(committed: seq<bool>, present: set<nat>, from: nat)
    requires from <= |committed| && forall c: nat | from <= c < |committed| :: committed[c] && c in present
    ensures |Scan(committed, present, from)| == |committed| - from
    ensures forall i | 0 <= i < |committed| - from :: Scan(committed, present, from)[i] == from + i
    decreases |committed| - from
  {
    if from < |committed| {
      TailScan(committed, present, from + 1);
    }
  }

  /** A scan that starts earlier ends in the same commits. */
  lemma {:induction false} ScanEndsWith(committed: seq<bool>, present: set<nat>, i: nat, j: nat)
    requires i <= j < |committed| && committed[j] && forall c: nat | c < |committed| && committed[c] :: c in present
    ensures var long, short := Scan(committed, present, i), Scan(committed, present, j);
            |long| >= |short| && long[|long| - |short|..] == short
    decreases j - i
  {
    NextMarkedIsLeast(committed, i, j);
    var c := NextMarked(committed, i);
    NextMarkedRange(committed, i);
    if c < j {
      ScanEndsWith(committed, present, c + 1, j);
    } else {
      NextMarkedIsLeast(committed, j, j);
    }
  }

  /** With two commits more behind block `n`, a pass gets past it. */
  lemma PassReaches(committed: seq<bool>, present: set<nat>, alreadySent: nat, n: nat)
    requires n + 1 + REQUIRED_COMMITS == |committed| && forall c: nat | n < c < |committed| :: committed[c]
    requires forall c: nat | c < |committed| && committed[c] :: c in present
    ensures AfterPass(committed, present, alreadySent) > n
  {
    if alreadySent <= n {
      TailScan(committed, present, n + 1);
      ScanEndsWith(committed, present, alreadySent + 1, n + 1);
      var scan, tail := Scan(committed, present, alreadySent + 1), Scan(committed, present, n + 1);
      assert |tail| == 2 && scan[|scan| - 2] == scan[|scan| - 2..][0] == tail[0] == n + 1;
    } else {
      PassExhausts(committed, present, alreadySent);
    }
  }

  /** After the pattern has stopped and all its commits are on the main chain, one pass
      leaves nothing waiting, whatever had been sent before. */
  lemma StopDrains(s: State, commitEvery: nat, stopped: State, present: set<nat>, alreadySent: nat)
    requires WellFormed(s) && WellFormed(stopped)
    requires Sending.Extended(TipCommitted(s, true, commitEvery), stopped, REQUIRED_COMMITS + 1)
    requires AllPresent(stopped.(present := present))
    ensures Waiting(Passed(stopped.(present := present, alreadySent := alreadySent))) <= 0
  {
    var e := QueueEnd(stopped.blocks);
    QueueEndIs(stopped.blocks, e);
    assert e <= |s.blocks|;
    PassReaches(stopped.committed, present, alreadySent, |s.blocks|);
  }
}
