// The kernel's module inventory: an insertion-ordered list and an index into it by name.
module HermesModuleRegistry {
  import opened Basics

  datatype Health = Healthy | Degraded | Unhealthy | Unknown

  datatype Spec = Spec(name: string, dependencies: seq<string>, required: bool, hasHealthCheck: bool, hasShutdown: bool)

  datatype Record = Record(spec: Spec, health: Health)

  datatype RegistryError =
    | EmptyName
    | NoHealthCheck
    | NoShutdown
    | AlreadyRegistered
    | SelfDependency
    | UnresolvedDependencies(missing: seq<string>)
    | NotRegistered

  function ModuleNames(records: seq<Record>): (names: seq<string>)
    ensures |names| == |records|
    ensures forall i :: 0 <= i < |records| ==> names[i] == records[i].spec.name
  {
    Map(records, (r: Record) => r.spec.name)
  }

  // Why a registration is refused, if it is.
  function Refusal(records: seq<Record>, spec: Spec): Option<RegistryError> {
    var names := ModuleNames(records);
    if spec.name == "" then Some(EmptyName)
    else if !spec.hasHealthCheck then Some(NoHealthCheck)
    else if !spec.hasShutdown then Some(NoShutdown)
    else if spec.name in names then Some(AlreadyRegistered)
    else if spec.name in spec.dependencies then Some(SelfDependency)
    else if Missing(spec.dependencies, names) != [] then Some(UnresolvedDependencies(Missing(spec.dependencies, names)))
    else None
  }

  // What a specification must be to join these modules.
  ghost predicate Admissible(names: seq<string>, spec: Spec) {
    && spec.name != "" && spec.hasHealthCheck && spec.hasShutdown
    && spec.name !in names && spec.name !in spec.dependencies
    && forall d :: d in spec.dependencies ==> d in names
  }

  // A registration is refused for the first thing that is wrong with it, and for nothing else; unresolved
  // dependencies are named, all of them and no others.
  lemma {:induction false} RefusalIs(records: seq<Record>, spec: Spec)
    ensures Refusal(records, spec) == None <==> Admissible(ModuleNames(records), spec)
    ensures Refusal(records, spec) == Some(EmptyName) <==> spec.name == ""
    ensures Refusal(records, spec) == Some(NoHealthCheck) <==> spec.name != "" && !spec.hasHealthCheck
    ensures Refusal(records, spec) == Some(NoShutdown) <==> spec.name != "" && spec.hasHealthCheck && !spec.hasShutdown
    ensures Refusal(records, spec) == Some(AlreadyRegistered) <==>
      spec.name != "" && spec.hasHealthCheck && spec.hasShutdown && spec.name in ModuleNames(records)
    ensures Refusal(records, spec) == Some(SelfDependency) <==>
      && spec.name != "" && spec.hasHealthCheck && spec.hasShutdown && spec.name !in ModuleNames(records)
      && spec.name in spec.dependencies
    ensures Refusal(records, spec).Some? && Refusal(records, spec).value.UnresolvedDependencies? ==>
      && Refusal(records, spec).value.missing != []
      && forall d :: d in Refusal(records, spec).value.missing <==>
        d in spec.dependencies && d !in ModuleNames(records)
    ensures Refusal(records, spec) != Some(NotRegistered)
  {
    var missing := Missing(spec.dependencies, ModuleNames(records));
    if missing != [] {
      assert missing[0] in missing;
    }
    assert forall d :: d in spec.dependencies && d !in ModuleNames(records) ==> d in missing;
  }

  // Specifications listed in dependency order, each fit to join those before it.
  ghost predicate Admitted(names: seq<string>, specs: seq<Spec>)
    decreases |specs|
  {
    specs != [] ==> Admissible(names, specs[0]) && Admitted(names + [specs[0].name], specs[1..])
  }

  // Drop the record and mark every record that depended on it.
  function Without(records: seq<Record>, i: nat): (rest: seq<Record>)
    requires i < |records|
    ensures |rest| == |records| - 1
  {
    Marked(records[..i] + records[i + 1..], records[i].spec.name)
  }

  function Marked(records: seq<Record>, name: string): (rest: seq<Record>)
    ensures |rest| == |records|
  {
    Map(records, (r: Record) => MarkedOne(r, name))
  }

  function MarkedOne(r: Record, name: string): Record {
    if name in r.spec.dependencies then r.(health := Degraded) else r
  }

  // ---- Ordering ------------------------------------------------------------------------

  // Every dependency that is registered sits earlier than its dependent.
  ghost predicate Ordered(records: seq<Record>) {
    forall i, j | 0 <= i < |records| && 0 <= j < |records| ::
      records[j].spec.name in records[i].spec.dependencies ==> j < i
  }

  // Every dependency is registered.
  ghost predicate Complete(records: seq<Record>) {
    forall i, d :: 0 <= i < |records| && d in records[i].spec.dependencies ==> d in ModuleNames(records)
  }

  // A record that lost a dependency says so.
  ghost predicate LossesMarked(records: seq<Record>) {
    forall i, d :: 0 <= i < |records| && d in records[i].spec.dependencies && d !in ModuleNames(records)
      ==> records[i].health == Degraded
  }

  // Accepting a module keeps the order exactly when no earlier record still waits for its name:
  // the registry alone allows a removed dependency to come back behind its dependents.
  lemma {:induction false} RegisterOrderedIff(records: seq<Record>, spec: Spec)
    requires Ordered(records) && Refusal(records, spec).None?
    ensures Ordered(records + [Record(spec, Unknown)])
        <==> forall i :: 0 <= i < |records| ==> spec.name !in records[i].spec.dependencies
  {
    var after := records + [Record(spec, Unknown)];
    var n := |records|;
    if i :| 0 <= i < n && spec.name in records[i].spec.dependencies {
      assert after[n].spec.name in after[i].spec.dependencies;
    } else {
      assert spec.name !in spec.dependencies;
    }
  }

  lemma {:induction false} AllResolved(records: seq<Record>, spec: Spec)
    requires Refusal(records, spec).None?
    ensures forall d :: d in spec.dependencies ==> d in ModuleNames(records)
  {
    var missing := Missing(spec.dependencies, ModuleNames(records));
    assert forall d :: d in spec.dependencies && d !in ModuleNames(records) ==> d in missing;
  }

  lemma {:induction false} RegisterComplete(records: seq<Record>, spec: Spec)
    requires Complete(records) && Refusal(records, spec).None?
    ensures Complete(records + [Record(spec, Unknown)])
    ensures Ordered(records) ==> Ordered(records + [Record(spec, Unknown)])
  {
    var after := records + [Record(spec, Unknown)];
    assert ModuleNames(after) == ModuleNames(records) + [spec.name];
    AllResolved(records, spec);
    if Ordered(records) {
      RegisterOrderedIff(records, spec);
    }
  }

  lemma {:induction false} RegisterMarked(records: seq<Record>, spec: Spec)
    requires LossesMarked(records) && Refusal(records, spec).None?
    ensures LossesMarked(records + [Record(spec, Unknown)])
  {
    var after := records + [Record(spec, Unknown)];
    assert ModuleNames(after) == ModuleNames(records) + [spec.name];
    AllResolved(records, spec);
  }

  function Origin(i: nat, k: nat): nat {
    if k < i then k else k + 1
  }

  lemma {:induction false} WithoutRecords(records: seq<Record>, i: nat)
    requires i < |records|
    ensures forall k :: 0 <= k < |records| - 1 ==>
      Without(records, i)[k] == MarkedOne(records[Origin(i, k)], records[i].spec.name)
    ensures forall d :: d in ModuleNames(records) && d != records[i].spec.name ==> d in ModuleNames(Without(records, i))
  {
    var after := Without(records, i);
    forall d | d in ModuleNames(records) && d != records[i].spec.name
      ensures d in ModuleNames(after)
    {
      var j :| 0 <= j < |records| && ModuleNames(records)[j] == d;
      var k := if j < i then j else j - 1;
      assert Origin(i, k) == j && ModuleNames(after)[k] == d;
    }
  }

  lemma {:induction false} UnregisterKeepsOrder(records: seq<Record>, i: nat)
    requires i < |records|
    ensures Ordered(records) ==> Ordered(Without(records, i))
    ensures LossesMarked(records) ==> LossesMarked(Without(records, i))
  {
    var after := Without(records, i);
    WithoutRecords(records, i);
    if Ordered(records) {
      forall a, b | 0 <= a < |after| && 0 <= b < |after| && after[b].spec.name in after[a].spec.dependencies
        ensures b < a
      {
        assert Origin(i, b) < Origin(i, a);
      }
    }
    if LossesMarked(records) {
      forall a, d | 0 <= a < |after| && d in after[a].spec.dependencies && d !in ModuleNames(after)
        ensures after[a].health == Degraded
      {
        assert after[a] == MarkedOne(records[Origin(i, a)], records[i].spec.name);
      }
    }
  }

  // Losing a dependency and getting it back breaks the order.
  lemma {:induction false} RegistryAloneLosesOrder()
    ensures var dependent, dependency := Spec("b", ["a"], false, true, true), Spec("a", [], false, true, true);
      var before := [Record(dependency, Unknown), Record(dependent, Unknown)];
      var removed := Without(before, 0);
      && Ordered(before) && Refusal(removed, dependency).None?
      && !Ordered(removed + [Record(dependency, Unknown)])
  {
    var dependent, dependency := Spec("b", ["a"], false, true, true), Spec("a", [], false, true, true);
    var before := [Record(dependency, Unknown), Record(dependent, Unknown)];
    var removed := Without(before, 0);
    WithoutRecords(before, 0);
    assert removed[0].spec == dependent;
    assert "a" in removed[0].spec.dependencies;
    var after := removed + [Record(dependency, Unknown)];
    assert after[1].spec.name in after[0].spec.dependencies;
    assert ModuleNames(removed)[0] == "b" && |ModuleNames(removed)| == 1;
    assert Missing([], ModuleNames(removed)) == [];
  }

  // The module at position i is gone; every other record is as it was, or marked if it depended on that module.
  ghost predicate LeftWithout(before: seq<Record>, after: seq<Record>, name: string, i: int) {
    && 0 <= i < |before| && before[i].spec.name == name && |after| == |before| - 1
    && forall k :: 0 <= k < |after| ==>
      var r := before[if k < i then k else k + 1];
      after[k] == Record(r.spec, if name in r.spec.dependencies then Degraded else r.health)
  }

  // The other modules keep their order and their health, but for those that depended on the one removed.
  lemma {:induction false} WithoutLeaves(records: seq<Record>, i: nat)
    requires i < |records|
    ensures LeftWithout(records, Without(records, i), records[i].spec.name, i)
  {
    WithoutRecords(records, i);
  }

  // ---- The object ---------------------------------------------------------------------------

  class HermesModuleRegistry {
    var records: seq<Record>
    var indexByName: map<string, nat>

    constructor ()
      ensures Valid() && records == []
    {
      records, indexByName := [], map[];
    }

    // The index and the list are inverse to each other, so names are distinct; lost dependencies are marked.
    ghost predicate Valid()
      reads this
    {
      Inverse(records, indexByName) && LossesMarked(records)
    }

    static ghost predicate Inverse(records: seq<Record>, index: map<string, nat>) {
      && (forall name :: name in index ==> index[name] < |records| && records[index[name]].spec.name == name)
      && (forall i :: 0 <= i < |records| ==> records[i].spec.name in index && index[records[i].spec.name] == i)
    }

    static lemma {:induction false} InverseNames(records: seq<Record>, index: map<string, nat>)
      requires Inverse(records, index)
      ensures Distinct(ModuleNames(records))
      ensures forall name :: name in index <==> name in ModuleNames(records)
    {
      forall name
        ensures name in index <==> name in ModuleNames(records)
      {
        if name in index {
          assert ModuleNames(records)[index[name]] == name;
        }
      }
    }

    static lemma {:induction false} IndexFinds(records: seq<Record>, index: map<string, nat>, name: string)
      requires Inverse(records, index) && name in index
      ensures Find(ModuleNames(records), name) == index[name]
    {
      assert ModuleNames(records)[index[name]] == name;
    }

    method RegisterModule(spec: Spec) returns (error: Option<RegistryError>)
      requires Valid()
      modifies this
      ensures Valid()
      ensures error == Refusal(old(records), spec)
      ensures error.None? <==> Admissible(ModuleNames(old(records)), spec)
      ensures records == old(records) + if error.None? then [Record(spec, Unknown)] else []
    {
      InverseNames(records, indexByName);
      RefusalIs(records, spec);
      if spec.name == "" {
        return Some(EmptyName);
      }
      if !spec.hasHealthCheck {
        return Some(NoHealthCheck);
      }
      if !spec.hasShutdown {
        return Some(NoShutdown);
      }
      if spec.name in indexByName {
        return Some(AlreadyRegistered);
      }
      if spec.name in spec.dependencies {
        return Some(SelfDependency);
      }
      var missing := Missing(spec.dependencies, ModuleNames(records));
      if |missing| > 0 {
        return Some(UnresolvedDependencies(missing));
      }
      RegisterMarked(records, spec);
      indexByName := indexByName[spec.name := |records|];
      records := records + [Record(spec, Unknown)];
      return None;
    }

    method UnregisterModule(name: string) returns (error: Option<RegistryError>)
      requires Valid()
      modifies this
      ensures Valid()
      ensures error == if name == "" then Some(EmptyName)
                       else if name in ModuleNames(old(records)) then None
                       else Some(NotRegistered)
      ensures error.Some? ==> records == old(records)
      ensures error.None? ==>
        var i := Find(ModuleNames(old(records)), name);
        i < |old(records)| && records == Without(old(records), i)
    {
      InverseNames(records, indexByName);
      if name == "" {
        return Some(EmptyName);
      }
      if name !in indexByName {
        return Some(NotRegistered);
      }
      var idx := indexByName[name];
      IndexFinds(records, indexByName, name);
      DropInverse(records, indexByName, name);
      DropMarked(records, idx);
      ghost var before, index := records, indexByName;
      records := records[..idx] + records[idx + 1..];
      indexByName := indexByName - {name};
      Reindex(before, index, name, idx);
      MarkDependents(name);
      return None;
    }

    // Without the record, and with the index shifted, the two are inverse again.
    static lemma {:induction false} DropInverse(before: seq<Record>, index: map<string, nat>, name: string)
      requires Inverse(before, index) && name in index
      ensures Inverse(Without(before, index[name]), Shifted(index, name, index[name], |before| - 1))
    {
      var i := index[name];
      var rest := before[..i] + before[i + 1..];
      ShiftedInverse(before, index, name);
      MarkedSpecs(rest, name);
      SameNamesInverse(rest, Marked(rest, name), Shifted(index, name, i, |before| - 1));
    }

    static lemma {:induction false} MarkedSpecs(records: seq<Record>, name: string)
      ensures forall k :: 0 <= k < |records| ==> Marked(records, name)[k].spec == records[k].spec
    {
    }

    static lemma {:induction false} DropMarked(before: seq<Record>, i: nat)
      requires i < |before| && LossesMarked(before)
      ensures LossesMarked(Without(before, i))
    {
      UnregisterKeepsOrder(before, i);
    }

    // The records behind the removed one moved up by one.
    method Reindex(ghost before: seq<Record>, ghost index: map<string, nat>, name: string, idx: nat)
      requires Inverse(before, index) && name in index && idx == index[name]
      requires records == before[..idx] + before[idx + 1..] && indexByName == index - {name}
      modifies this`indexByName
      ensures indexByName == Shifted(index, name, idx, |before| - 1)
    {
      var i := idx;
      while i < |records|
        invariant idx <= i <= |records|
        invariant indexByName == Shifted(index, name, idx, i)
      {
        assert records[i] == before[i + 1];
        ShiftedStep(before, index, name, i);
        indexByName := indexByName[records[i].spec.name := i];
        i := i + 1;
      }
    }

    method MarkDependents(name: string)
      modifies this`records
      ensures records == Marked(old(records), name)
    {
      var k := 0;
      while k < |records|
        invariant k <= |records| == |old(records)|
        invariant forall j :: 0 <= j < k ==> records[j] == MarkedOne(old(records)[j], name)
        invariant forall j :: k <= j < |records| ==> records[j] == old(records)[j]
      {
        if name in records[k].spec.dependencies {
          records := records[k := records[k].(health := Degraded)];
        }
        k := k + 1;
      }
    }

    static lemma {:induction false} SameNamesInverse(before: seq<Record>, after: seq<Record>, index: map<string, nat>)
      requires Inverse(before, index) && |after| == |before|
      requires forall k :: 0 <= k < |before| ==> after[k].spec == before[k].spec
      ensures Inverse(after, index)
    {
    }

    // The index while the reindexing loop has done the positions below i.
    static ghost function Shifted(index: map<string, nat>, name: string, idx: nat, i: nat): map<string, nat> {
      map n | n in index && n != name :: if idx < index[n] <= i then (index[n] - 1) as nat else index[n]
    }

    static lemma {:induction false} ShiftedStep(before: seq<Record>, index: map<string, nat>, name: string, i: nat)
      requires Inverse(before, index) && name in index && index[name] <= i < |before| - 1
      ensures Shifted(index, name, index[name], i + 1)
           == Shifted(index, name, index[name], i)[before[i + 1].spec.name := i]
    {
      assert index[before[i + 1].spec.name] == i + 1;
    }

    static lemma {:induction false} ShiftedInverse(before: seq<Record>, index: map<string, nat>, name: string)
      requires Inverse(before, index) && name in index
      ensures var idx := index[name];
        Inverse(before[..idx] + before[idx + 1..], Shifted(index, name, idx, |before| - 1))
    {
      var idx := index[name];
      var after := before[..idx] + before[idx + 1..];
      assert forall j :: 0 <= j < |after| ==> after[j] == before[Origin(idx, j)];
      assert forall j :: 0 <= j < |after| ==> index[after[j].spec.name] == Origin(idx, j);
    }

    method Clear()
      requires Valid()
      modifies this
      ensures Valid() && records == []
    {
      records, indexByName := [], map[];
    }
  }
}
