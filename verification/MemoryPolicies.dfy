// Retention: how many records to evict, and which.
module MemoryPolicies {
  import opened Basics
  import opened StableSorting

  datatype Record = Record(id: string, importance: real, createdAt: int, readOnly: bool)

  function EvictionCount(records: seq<Record>, maxCount: Option<int>): nat {
    if maxCount.None? || |records| <= maxCount.value then 0 else |records| - maxCount.value
  }

  function Unpinned(records: seq<Record>): (unpinned: seq<Record>)
    ensures |unpinned| <= |records|
  {
    if records == [] then []
    else (if records[0].readOnly then [] else [records[0]]) + Unpinned(records[1..])
  }

  // Least important first, then oldest first.
  function EvictionKey(r: Record): Key {
    Key(r.importance, r.createdAt)
  }

  function EvictionCandidates(records: seq<Record>, count: int): seq<Record> {
    if count <= 0 then []
    else
      var sorted := StableSort(Unpinned(records), EvictionKey);
      sorted[..if count <= |sorted| then count else |sorted|]
  }

  function Pinned(records: seq<Record>): nat {
    |records| - |Unpinned(records)|
  }

  lemma {:induction false} UnpinnedCount(records: seq<Record>, r: Record)
    ensures multiset(Unpinned(records))[r] == if r.readOnly then 0 else multiset(records)[r]
  {
    if records != [] {
      UnpinnedCount(records[1..], r);
      assert records == [records[0]] + records[1..];
    }
  }

  lemma {:induction false} UnpinnedMembers(records: seq<Record>)
    ensures multiset(Unpinned(records)) <= multiset(records)
    ensures forall r :: r in Unpinned(records) <==> r in records && !r.readOnly
    ensures forall r: Record :: !r.readOnly ==> multiset(Unpinned(records))[r] == multiset(records)[r]
  {
    forall r
      ensures multiset(Unpinned(records))[r] == if r.readOnly then 0 else multiset(records)[r]
      ensures r in Unpinned(records) <==> r in records && !r.readOnly
    {
      UnpinnedCount(records, r);
      assert r in Unpinned(records) <==> r in multiset(Unpinned(records));
      assert r in records <==> r in multiset(records);
    }
  }

  function Max(a: int, b: int): int {
    if a >= b then a else b
  }

  ghost function Kept(records: seq<Record>, evicted: seq<Record>): multiset<Record> {
    multiset(records) - multiset(evicted)
  }

  // The candidates are the head of the unpinned records, sorted; the tail stays.
  function Spared(records: seq<Record>, count: nat): seq<Record> {
    var sorted := StableSort(Unpinned(records), EvictionKey);
    sorted[if count <= |sorted| then count else |sorted|..]
  }

  lemma {:induction false} CandidatesHead(records: seq<Record>, count: nat)
    ensures var evicted, rest := EvictionCandidates(records, count), Spared(records, count);
      && |evicted| == (if count <= |Unpinned(records)| then count else |Unpinned(records)|)
      && multiset(Unpinned(records)) == multiset(evicted) + multiset(rest)
      && SortedBy(evicted, EvictionKey)
      && forall e, r :: e in evicted && r in rest ==> AtMost(EvictionKey(e), EvictionKey(r))
  {
    SortedSplit(Unpinned(records), EvictionKey, if count <= |Unpinned(records)| then count else |Unpinned(records)|);
  }

  // What goes before what: the less important, and of equally important records the older or an equally old one.
  ghost predicate GoesFirst(e: Record, r: Record) {
    e.importance < r.importance || (e.importance == r.importance && e.createdAt <= r.createdAt)
  }

  // Evicting removes no pinned record and nothing that is more important, or equally important and
  // newer, than an unpinned record that stays.
  lemma {:induction false} EvictionSparesTheBest(records: seq<Record>, count: nat)
    ensures var evicted := EvictionCandidates(records, count);
      && multiset(evicted) <= multiset(records)
      && (forall r :: r in evicted ==> !r.readOnly)
      && (forall e, r :: e in evicted && r in Kept(records, evicted) && !r.readOnly ==> GoesFirst(e, r))
  {
    var evicted := EvictionCandidates(records, count);
    var rest := Spared(records, count);
    CandidatesHead(records, count);
    UnpinnedMembers(records);
    forall r | r in evicted
      ensures !r.readOnly
    {
      assert r in multiset(evicted) && r in multiset(Unpinned(records));
    }
    forall e, r | e in evicted && r in Kept(records, evicted) && !r.readOnly
      ensures GoesFirst(e, r)
    {
      KeptInRest(records, evicted, rest, r);
      assert AtMost(EvictionKey(e), EvictionKey(r));
    }
  }

  // The candidates come in that order, as many as asked for if there are as many unpinned records.
  lemma {:induction false} CandidatesInOrder(records: seq<Record>, count: nat)
    ensures var evicted := EvictionCandidates(records, count);
      && (forall i, j :: 0 <= i <= j < |evicted| ==> GoesFirst(evicted[i], evicted[j]))
      && |evicted| == (if count <= |records| - Pinned(records) then count else |records| - Pinned(records))
  {
    CandidatesHead(records, count);
    var evicted := EvictionCandidates(records, count);
    forall i, j | 0 <= i <= j < |evicted|
      ensures GoesFirst(evicted[i], evicted[j])
    {
      assert AtMost(EvictionKey(evicted[i]), EvictionKey(evicted[j]));
    }
  }

  // The unpinned records of one importance and age, in the order given.
  function Equals(records: seq<Record>, importance: real, createdAt: int): seq<Record> {
    if records == [] then []
    else
      var r := records[0];
      (if !r.readOnly && r.importance == importance && r.createdAt == createdAt then [r] else [])
      + Equals(records[1..], importance, createdAt)
  }

  lemma {:induction false} EqualsAmong(records: seq<Record>, importance: real, createdAt: int)
    ensures Among(Unpinned(records), EvictionKey, Key(importance, createdAt)) == Equals(records, importance, createdAt)
  {
    if records != [] {
      EqualsAmong(records[1..], importance, createdAt);
      var rest := Unpinned(records[1..]);
      if !records[0].readOnly {
        assert Unpinned(records)[1..] == rest;
      } else {
        assert Unpinned(records) == rest;
      }
    }
  }

  // Among equals the first ones given are the first to go.
  lemma {:induction false} FirstOfEquals(records: seq<Record>, count: nat, importance: real, createdAt: int)
    ensures Among(EvictionCandidates(records, count), EvictionKey, Key(importance, createdAt))
         <= Equals(records, importance, createdAt)
  {
    EqualsAmong(records, importance, createdAt);
    SortTheorem(Unpinned(records), EvictionKey);
    if count > 0 {
      HeadStable(Unpinned(records), EvictionKey, Key(importance, createdAt),
          if count <= |Unpinned(records)| then count else |Unpinned(records)|);
    }
  }

  lemma {:induction false} KeptInRest(records: seq<Record>, evicted: seq<Record>, rest: seq<Record>, r: Record)
    requires multiset(Unpinned(records)) == multiset(evicted) + multiset(rest)
    requires r in Kept(records, evicted) && !r.readOnly
    ensures r in rest
  {
    UnpinnedMembers(records);
    assert multiset(Unpinned(records))[r] == multiset(records)[r];
    assert multiset(rest)[r] > 0;
  }

  // Without a limit, and with a count that is not positive, nothing is evicted.
  lemma {:induction false} NothingEvicted(records: seq<Record>, count: int)
    ensures EvictionCount(records, None) == 0
    ensures count <= 0 ==> EvictionCandidates(records, count) == []
  {
  }

  // Evicting down to a limit leaves exactly the limit, or the pinned records if there are more of those.
  lemma {:induction false} EvictionMeetsLimit(records: seq<Record>, maxCount: int)
    ensures var count := EvictionCount(records, Some(maxCount));
      var evicted := EvictionCandidates(records, count);
      && |Kept(records, evicted)| == |records| - |evicted|
      && |Kept(records, evicted)| <= Max(maxCount, Pinned(records))
      && (count > 0 ==> |Kept(records, evicted)| == Max(maxCount, Pinned(records)))
      && (count == 0 ==> Kept(records, evicted) == multiset(records))
  {
    var count := EvictionCount(records, Some(maxCount));
    var evicted := EvictionCandidates(records, count);
    CandidatesHead(records, count);
    EvictionSparesTheBest(records, count);
    assert multiset(records) == Kept(records, evicted) + multiset(evicted);
    assert |multiset(evicted)| == |evicted| && |multiset(records)| == |records|;
  }
}
