/** A chain seen together with blocks that were received but not applied yet
    (`ChainView`, `LightView`).

    `Block.equals` also compares the predecessors; the first received block hangs
    on our own chain and each later one on the one before, so comparing number,
    owner and transactions from the start of the overlap says the same. */
module ChainViews {
  import opened Ledger
  import opened AppendOnly
  import opened Replicas
  import opened ChainReplication

  /** What the integrity check is after: the received blocks are numbered without a
      gap, follow what we have, and agree with it where they overlap. */
  predicate Consistent(own: seq<Block>, updates: seq<Block>) {
    updates != [] ==>
      var first := updates[0].number;
      && (own != [] ==> first <= |own|)
      && forall i | 0 <= i < |updates| ::
           && updates[i].number == first + i
           && (own != [] && first + i < |own| ==> updates[i] == own[first + i])
  }

  /** How many received blocks we have already. */
  function Overlap(own: seq<Block>, updates: seq<Block>): (r: nat)
    ensures r <= |updates|
  {
    if updates == [] || own == [] || updates[0].number >= |own| then 0
    else if |own| - updates[0].number <= |updates| then |own| - updates[0].number
    else |updates|
  }

  /** A view of an empty chain may start anywhere; all others start at or before its end. */
  predicate Anchored(own: seq<Block>, updates: seq<Block>) {
    own != [] || updates == [] || updates[0].number == 0
  }

  /** A valid view shows the chain as it will be once the same blocks are applied,
      exactly when it is anchored. */
  lemma {:induction false} ViewPredictsUpdateIff(own: seq<Block>, updates: seq<Block>)
    requires Consistent(own, updates)
    ensures own + From(updates, Overlap(own, updates)) == own + Accepted(updates, |own|) <==> Anchored(own, updates)
    ensures Anchored(own, updates) && Numbered(own) ==> Numbered(own + From(updates, Overlap(own, updates)))
  {
    var shown, applied := own + From(updates, Overlap(own, updates)), own + Accepted(updates, |own|);
    if updates != [] {
      AcceptedIsSuffix(updates, |own|);
      if !Anchored(own, updates) {
        assert |shown| != |applied|;
      }
    }
  }

  datatype Lookup = Found(block: Block) | OutOfBounds | InvalidView

  /** `LightView.getBlock`. */
  function LightGet(own: seq<Block>, updates: seq<Block>, number: nat): Lookup {
    if number < |own| then Found(own[number])
    else if updates == [] then OutOfBounds
    else
      var index := number - updates[0].number;
      if 0 <= index < |updates| then Found(updates[index]) else OutOfBounds
  }

  /** `ChainView.getBlock` on a valid view that has skipped the overlap. */
  function ViewGet(own: seq<Block>, updates: seq<Block>, number: nat): Lookup {
    if number < |own| then Found(own[number])
    else
      var index := number - |own| + Overlap(own, updates);
      if index < |updates| then Found(updates[index]) else OutOfBounds
  }

  /** Both lookups find the same block under every number, again exactly when the view is anchored. */
  lemma LookupsAgreeIff(own: seq<Block>, updates: seq<Block>)
    requires Consistent(own, updates)
    ensures (forall number: nat :: ViewGet(own, updates, number) == LightGet(own, updates, number))
            <==> Anchored(own, updates)
    ensures forall number: nat ::
              var all := own + From(updates, Overlap(own, updates));
              ViewGet(own, updates, number) == if number < |all| then Found(all[number]) else OutOfBounds
  {
    if !Anchored(own, updates) {
      assert ViewGet(own, updates, 0) != LightGet(own, updates, 0);
    }
  }

  /** Without a block of our own, a received block 1 shows under number 0 in the view, and not
      at all in the light view; the update does not take it. */
  lemma UnanchoredViewMisleads(b: Block)
    requires b.number == 1
    ensures Consistent([], [b]) && !Anchored([], [b])
    ensures [] + From([b], Overlap([], [b])) == [b] && Accepted([b], 0) == []
    ensures ViewGet([], [b], 0) == Found(b) && LightGet([], [b], 0) == OutOfBounds
  {
    assert Accepted([b][1..], 0) == [];
  }

  /** Blocks that attach to our chain, as the decoder makes sure of, never give such a view. */
  lemma {:induction false} AttachedViewsPredict(own: seq<Block>, updates: seq<Block>, number: nat)
    requires Consistent(own, updates) && (updates != [] ==> updates[0].number <= |own|)
    ensures own + From(updates, Overlap(own, updates)) == own + Accepted(updates, |own|)
    ensures ViewGet(own, updates, number) == LightGet(own, updates, number)
  {
    ViewPredictsUpdateIff(own, updates);
    LookupsAgreeIff(own, updates);
  }

  class ChainView {
    const chain: AppendOnlyArrayList<Block>
    var updates: seq<Block>
    var valid: Option<bool>
    const trim: bool
    var startIndex: nat
    var chainSize: nat

    constructor (chain: AppendOnlyArrayList<Block>, updates: seq<Block>, trim: bool)
      ensures this.chain == chain && this.updates == updates && this.trim == trim
      ensures valid == None && startIndex == 0 && chainSize == |chain.elems|
    {
      this.chain, this.updates, this.trim := chain, updates, trim;
      valid, startIndex, chainSize := None, 0, |chain.elems|;
    }

    /** The view has been checked, and found to be valid for `given`. */
    ghost predicate ShowsBlocks(given: seq<Block>)
      reads this, chain
    {
      && valid == Some(true) && chainSize == |chain.elems| && Consistent(chain.elems, given)
      && startIndex <= |updates| && From(updates, startIndex) == From(given, Overlap(chain.elems, given))
      && (!trim ==> updates == given && startIndex == Overlap(chain.elems, given))
    }

    /** The first call runs the integrity check. */
    method IsValid(ghost given: seq<Block>) returns (r: bool)
      requires Numbered(chain.elems)
      requires valid == None ==> updates == given && startIndex == 0 && chainSize == |chain.elems|
      requires valid == Some(true) ==> ShowsBlocks(given)
      requires valid == Some(false) ==> !Consistent(chain.elems, given)
      modifies this
      ensures valid == Some(r) && r == Consistent(chain.elems, given)
      ensures r ==> ShowsBlocks(given)
    {
      if valid.Some? {
        return valid.value;
      }
      r := CheckIntegrity();
    }

    method CheckIntegrity() returns (r: bool)
      requires Numbered(chain.elems) && startIndex == 0 && chainSize == |chain.elems|
      modifies this
      ensures valid == Some(r) && r == Consistent(chain.elems, old(updates))
      ensures r ==> ShowsBlocks(old(updates))
    {
      if updates == [] {
        valid := Some(true);
        return true;
      }
      var own, given := chain.elems, updates;
      var firstUpdateNumber := updates[0].number;
      if chainSize == 0 {
        r := CheckNoGaps(1, firstUpdateNumber);
        return;
      }
      var lastOwnNumber := chainSize - 1;
      if firstUpdateNumber - lastOwnNumber > 1 {
        valid := Some(false);
        return false;
      } else if lastOwnNumber >= firstUpdateNumber {
        var overlap := lastOwnNumber + 1 - firstUpdateNumber;
        var baseI := chainSize - overlap;
        var i := 0;
        while i < overlap && updates != [] && startIndex < |updates|
          invariant 0 <= i <= overlap && i <= |given| && chainSize == |own|
          invariant if trim then startIndex == 0 && updates == given[i..] else startIndex == i && updates == given
          invariant forall j | 0 <= j < i :: given[j] == own[firstUpdateNumber + j]
          decreases overlap - i
        {
          if chain.elems[baseI + i] != updates[startIndex] {
            assert given[i] != own[firstUpdateNumber + i];
            valid := Some(false);
            return false;
          }
          if trim {
            updates := updates[1..];
          } else {
            startIndex := startIndex + 1;
          }
          i := i + 1;
        }
        assert i == Overlap(own, given) && From(updates, startIndex) == From(given, i);
        r := CheckNoGaps(startIndex, lastOwnNumber);
        NoGapsFrom(own, given, i, updates, startIndex);
      } else {
        r := CheckNoGaps(0, lastOwnNumber);
      }
    }

    method CheckNoGaps(start: nat, previousNr: nat) returns (r: bool)
      requires start <= |updates|
      modifies this`valid
      ensures valid == Some(r)
      ensures r <==> forall i | start <= i < |updates| :: updates[i].number == previousNr + 1 + (i - start)
    {
      var previous := previousNr;
      for i := start to |updates|
        invariant previous == previousNr + (i - start)
        invariant forall j | start <= j < i :: updates[j].number == previousNr + 1 + (j - start)
      {
        if updates[i].number - previous != 1 {
          valid := Some(false);
          assert updates[i].number != previousNr + 1 + (i - start);
          return false;
        }
        previous := previous + 1;
      }
      valid := Some(true);
      return true;
    }

    /** Once the overlap has been compared, only the numbers of the rest matter. */
    static lemma NoGapsFrom(own: seq<Block>, given: seq<Block>, k: nat, updates: seq<Block>, start: nat)
      requires Numbered(own) && given != [] && given[0].number < |own|
      requires k == Overlap(own, given) && start <= |updates| && From(updates, start) == From(given, k)
      requires forall j | 0 <= j < k :: given[j] == own[given[0].number + j]
      ensures Consistent(own, given) <==>
              forall i | start <= i < |updates| :: updates[i].number == |own| + (i - start)
    {
      if Consistent(own, given) {
        forall i | start <= i < |updates|
          ensures updates[i].number == |own| + (i - start)
        {
          assert updates[i] == From(updates, start)[i - start] == From(given, k)[i - start];
        }
      }
      if forall i | start <= i < |updates| :: updates[i].number == |own| + (i - start) {
        forall i | k <= i < |given|
          ensures given[i].number == given[0].number + i
        {
          assert given[i] == From(given, k)[i - k] == From(updates, start)[i - k] == updates[start + (i - k)];
        }
      }
    }

    /** Our own blocks can be had from any view; for the others the view is checked first. */
    method GetBlock(number: nat, ghost given: seq<Block>) returns (r: Lookup)
      requires Numbered(chain.elems)
      requires valid == None ==> updates == given && startIndex == 0 && chainSize == |chain.elems|
      requires valid == Some(true) ==> ShowsBlocks(given)
      requires valid == Some(false) ==> !Consistent(chain.elems, given)
      modifies this
      ensures Consistent(chain.elems, given) ==> r == ViewGet(chain.elems, given, number)
      ensures !Consistent(chain.elems, given) ==>
                r == if number < |chain.elems| then Found(chain.elems[number]) else InvalidView
      ensures if number < |chain.elems| then unchanged(this) else valid == Some(Consistent(chain.elems, given))
      ensures valid == Some(true) ==> ShowsBlocks(given)
    {
      if number < |chain.elems| {
        return Found(chain.elems[number]);
      }
      var ok := IsValid(given);
      if !ok {
        return InvalidView;
      }
      var index := number - chainSize + startIndex;
      ghost var rest := From(given, Overlap(chain.elems, given));
      assert |updates| - startIndex == |rest|;
      assert index < |updates| ==> updates[index] == From(updates, startIndex)[number - chainSize] == rest[number - chainSize];
      return if index < |updates| then Found(updates[index]) else OutOfBounds;
    }
  }

  /** The iterator of a view: one over our own blocks, then one over the received
      ones, acting as one cursor over both. */
  class ChainViewIterator {
    const chainIterator: BoundedIterator<Block>
    const updatesIterator: BoundedIterator<Block>
    var updatesReached: bool
    var currentIndex: int

    /** The blocks it runs over. */
    ghost function Blocks(): seq<Block> {
      chainIterator.window + updatesIterator.window
    }

    /** Where the cursor stands. */
    ghost function Position(): nat
      reads chainIterator, updatesIterator
    {
      chainIterator.index + updatesIterator.index
    }

    ghost predicate Valid()
      reads this, chainIterator, updatesIterator, chainIterator.list, updatesIterator.list
    {
      && chainIterator != updatesIterator
      && chainIterator.Valid() && updatesIterator.Valid() && Numbered(Blocks())
      && (if updatesReached then chainIterator.index == chainIterator.size else updatesIterator.index == 0)
      && currentIndex == Position() - 1
    }

    /** Starts at block `number`; `rest` holds the received blocks past the overlap. */
    constructor (chain: AppendOnlyArrayList<Block>, chainSize: nat, rest: AppendOnlyArrayList<Block>, number: nat)
      requires chainSize <= |chain.elems| && number <= chainSize + |rest.elems|
      requires Numbered(chain.elems[..chainSize] + rest.elems)
      ensures Valid() && fresh(chainIterator) && fresh(updatesIterator)
      ensures chainIterator.list == chain && updatesIterator.list == rest
      ensures Blocks() == chain.elems[..chainSize] + rest.elems && Position() == number
    {
      var inChain := if number < chainSize then number else chainSize;
      chainIterator := new BoundedIterator<Block>(chain, inChain, chainSize);
      updatesIterator := new BoundedIterator<Block>(rest, number - inChain, |rest.elems|);
      updatesReached := number >= chainSize;
      currentIndex := number - 1;
      new;
      assert rest.elems[..|rest.elems|] == rest.elems;
    }

    method HasNext() returns (r: bool)
      requires Valid()
      modifies this
      ensures Valid() && Position() == old(Position())
      ensures r == (Position() < |Blocks()|)
    {
      if !updatesReached {
        if chainIterator.HasNext() {
          return true;
        }
        updatesReached := true;
      }
      return updatesIterator.HasNext();
    }

    method HasPrevious() returns (r: bool)
      requires Valid()
      modifies this
      ensures Valid() && Position() == old(Position())
      ensures r == (Position() > 0)
    {
      if updatesReached {
        if updatesIterator.HasPrevious() {
          return true;
        }
        updatesReached := false;
      }
      return chainIterator.HasPrevious();
    }

    /** None stands for NoSuchElementException. */
    method Next() returns (r: Option<Block>)
      requires Valid()
      modifies this, chainIterator, updatesIterator
      ensures Valid()
      ensures old(Position()) < |Blocks()| ==>
                r == Some(Blocks()[old(Position())]) && Position() == old(Position()) + 1
      ensures old(Position()) == |Blocks()| ==> r == None && Position() == old(Position())
    {
      var current;
      if !updatesReached && chainIterator.HasNext() {
        current := chainIterator.Next();
      } else {
        updatesReached := true;
        if !updatesIterator.HasNext() {
          return None;
        }
        current := updatesIterator.Next();
      }
      assert current == Blocks()[old(Position())];
      currentIndex := current.number;
      return Some(current);
    }

    method Previous() returns (r: Option<Block>)
      requires Valid()
      modifies this, chainIterator, updatesIterator
      ensures Valid()
      ensures old(Position()) > 0 ==>
                r == Some(Blocks()[old(Position()) - 1]) && Position() == old(Position()) - 1
      ensures old(Position()) == 0 ==> r == None && Position() == 0
    {
      var current;
      if updatesReached && updatesIterator.HasPrevious() {
        current := updatesIterator.Previous();
      } else {
        updatesReached := false;
        if !chainIterator.HasPrevious() {
          return None;
        }
        current := chainIterator.Previous();
      }
      assert current == Blocks()[old(Position()) - 1];
      currentIndex := current.number - 1;
      return Some(current);
    }

    method NextIndex() returns (r: int)
      requires Valid()
      ensures r == Position()
    {
      return currentIndex + 1;
    }

    method PreviousIndex() returns (r: int)
      requires Valid()
      ensures r == Position() - 1
    {
      return currentIndex;
    }

    /** Appending to the chain leaves the iterator, and what it runs over, as they were. */
    twostate lemma AppendKeepsIterator()
      requires old(Valid())
      requires old(chainIterator.list.elems) <= chainIterator.list.elems
      requires old(updatesIterator.list.elems) <= updatesIterator.list.elems
      requires unchanged(this) && unchanged(chainIterator) && unchanged(updatesIterator)
      ensures Valid() && Position() == old(Position())
    {
    }
  }
}
