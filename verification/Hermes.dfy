// The kernel façade: phase gates around the registry, start, stop and the module drain.
module Hermes {
  import opened Basics
  import opened HermesLifecycle
  import opened HermesModuleRegistry

  // A call somebody makes on the kernel, or on the lifecycle it was given.
  datatype Action =
    | CallStart
    | CallStop
    | CallRegister(spec: Spec)
    | CallUnregister(name: string)
    | Force(to: Phase)

  // One module's shutdown: whether it threw or timed out, and what happened while it was awaited.
  datatype Shutdown = Shutdown(threw: bool, actions: seq<Action>)

  // One of the first n shutdowns threw or timed out.
  ghost predicate SomeThrew(script: nat -> Shutdown, n: nat) {
    exists k :: 0 <= k < n && script(k).threw
  }

  datatype StopStart = AlreadyStopped | Refused | Draining

  // ---- Phases only go forward ----------------------------------------------------------

  lemma {:induction false} DrainDescends(p: Phase, to: Phase, reactions: Reactions, k: nat)
    ensures Rank(Drain(p, [to], reactions, k).phase) <= Rank(p)
    ensures to in Legal(p) ==> Rank(Drain(p, [to], reactions, k).phase) <= Rank(to) < Rank(p)
    ensures to in Legal(p) && Terminal(to) ==> Drain(p, [to], reactions, k).phase == to
    ensures to in Legal(p) && reactions(k) == [] ==> Drain(p, [to], reactions, k).phase == to
  {
    var d := Drain(p, [to], reactions, k);
    DrainTheorem(p, [to], reactions, k);
    PathIsShort(p, d.fired, d.phase);
    if to in Legal(p) {
      LegalDescends(p, to);
      assert [to][1..] == [];
      var rest := [] + Asked(to, reactions, k);
      DrainTheorem(to, rest, reactions, k + 1);
      PathIsShort(to, Drain(to, rest, reactions, k + 1).fired, d.phase);
    }
  }

  // ---- The drain's order and budget -------------------------------------------------------

  function Reversed(names: seq<string>): (r: seq<string>)
    ensures |r| == |names|
    ensures forall i :: 0 <= i < |names| ==> r[i] == names[|names| - 1 - i]
  {
    seq(|names|, i requires 0 <= i < |names| => names[|names| - 1 - i])
  }

  function DependenciesOf(records: seq<Record>, name: string): seq<string> {
    if records == [] then []
    else if records[0].spec.name == name then records[0].spec.dependencies
    else DependenciesOf(records[1..], name)
  }

  lemma {:induction false} DependenciesAt(records: seq<Record>, i: nat)
    requires i < |records| && Distinct(ModuleNames(records))
    ensures DependenciesOf(records, records[i].spec.name) == records[i].spec.dependencies
  {
    if i > 0 {
      assert ModuleNames(records)[0] != ModuleNames(records)[i];
      assert ModuleNames(records[1..]) == ModuleNames(records)[1..];
      DependenciesAt(records[1..], i - 1);
    }
  }

  lemma {:induction false} DependencyEarlier(records: seq<Record>, a: nat, b: nat)
    requires Ordered(records) && Distinct(ModuleNames(records))
    requires a < |records| && b < |records|
    requires records[b].spec.name in DependenciesOf(records, records[a].spec.name)
    ensures b < a
  {
    DependenciesAt(records, a);
  }

  // In the reverse of an ordered registry every module comes before the modules it depends on.
  lemma {:induction false} DrainDependentsFirst(records: seq<Record>, called: seq<string>, i: nat, j: nat)
    requires Ordered(records) && Distinct(ModuleNames(records))
    requires called == Reversed(ModuleNames(records))
    requires i < |called| && j < |called| && called[j] in DependenciesOf(records, called[i])
    ensures i < j
  {
    DependencyEarlier(records, |records| - 1 - i, |records| - 1 - j);
  }

  function Deadline(timeoutMs: int, count: nat): int {
    if count > 0 then timeoutMs / count else timeoutMs
  }

  function Total(xs: seq<int>): int {
    if xs == [] then 0 else xs[0] + Total(xs[1..])
  }

  lemma {:induction false} TotalOfEqual(xs: seq<int>, x: int)
    requires forall i :: 0 <= i < |xs| ==> xs[i] == x
    ensures Total(xs) == |xs| * x
  {
    if xs != [] {
      TotalOfEqual(xs[1..], x);
      assert |xs| * x == x + (|xs| - 1) * x;
    }
  }

  // Equal shares of the shutdown time: together they fit into it, and one more unit for each module would not.
  lemma {:induction false} BudgetFits(timeoutMs: int, deadlines: seq<int>)
    requires deadlines != []
    requires forall i :: 0 <= i < |deadlines| ==> deadlines[i] == Deadline(timeoutMs, |deadlines|)
    ensures Total(deadlines) <= timeoutMs < Total(deadlines) + |deadlines|
  {
    var n := |deadlines|;
    TotalOfEqual(deadlines, timeoutMs / n);
    assert timeoutMs == n * (timeoutMs / n) + timeoutMs % n;
  }

  // What a drain of the registered modules comes to: each of them called once, dependents before their
  // dependencies, within the time there is.
  ghost predicate ShutDown(records: seq<Record>, shutdowns: seq<string>, deadlines: seq<int>, timeoutMs: int) {
    && Distinct(shutdowns) && ToSet(shutdowns) == ToSet(ModuleNames(records))
    && (forall i, j | 0 <= i < |shutdowns| && 0 <= j < |shutdowns| ::
          shutdowns[j] in DependenciesOf(records, shutdowns[i]) ==> i < j)
    && |deadlines| == |shutdowns|
    && (deadlines != [] ==> Total(deadlines) <= timeoutMs < Total(deadlines) + |deadlines|)
  }

  lemma {:induction false} ReversedDrains(
    records: seq<Record>, shutdowns: seq<string>, deadlines: seq<int>, timeoutMs: int)
    requires Ordered(records) && Distinct(ModuleNames(records))
    requires shutdowns == Reversed(ModuleNames(records)) && |deadlines| == |shutdowns|
    requires forall i :: 0 <= i < |deadlines| ==> deadlines[i] == Deadline(timeoutMs, |shutdowns|)
    ensures ShutDown(records, shutdowns, deadlines, timeoutMs)
  {
    ReversedMembers(ModuleNames(records));
    forall i, j | 0 <= i < |shutdowns| && 0 <= j < |shutdowns| && shutdowns[j] in DependenciesOf(records, shutdowns[i])
      ensures i < j
    {
      DrainDependentsFirst(records, shutdowns, i, j);
    }
    if deadlines != [] {
      BudgetFits(timeoutMs, deadlines);
    }
  }

  lemma {:induction false} ReversedMembers(names: seq<string>)
    requires Distinct(names)
    ensures Distinct(Reversed(names)) && ToSet(Reversed(names)) == ToSet(names)
  {
    var r := Reversed(names);
    assert forall i :: 0 <= i < |names| ==> names[i] == r[|names| - 1 - i];
    assert forall i, j :: 0 <= i < j < |names| ==> r[i] != r[j];
  }

  // The last k modules have been called, each with the deadline.
  ghost predicate CalledTo(
    names: seq<string>, deadline: int, script: nat -> Shutdown, k: nat, shutdowns: seq<string>, deadlines: seq<int>,
    threw: bool)
  {
    && k <= |names| && shutdowns == Reversed(names)[..k]
    && |deadlines| == k && (forall i :: 0 <= i < k ==> deadlines[i] == deadline)
    && (threw <==> SomeThrew(script, k))
  }

  lemma {:induction false} CalledNext(
    names: seq<string>, deadline: int, script: nat -> Shutdown, k: nat, shutdowns: seq<string>, deadlines: seq<int>,
    threw: bool)
    requires CalledTo(names, deadline, script, k, shutdowns, deadlines, threw) && k < |names| && Distinct(names)
    ensures Distinct(shutdowns + [names[|names| - 1 - k]])
    ensures CalledTo(names, deadline, script, k + 1, shutdowns + [names[|names| - 1 - k]], deadlines + [deadline],
                     threw || script(k).threw)
  {
    assert forall i, j :: 0 <= i < j < |names| ==> Reversed(names)[i] != Reversed(names)[j];
    assert Reversed(names)[..k + 1] == shutdowns + [names[|names| - 1 - k]];
  }

  // ---- The kernel as a value ---------------------------------------------------------------

  datatype Kernel = Kernel(phase: Phase, fired: seq<(Phase, Phase)>, records: seq<Record>)

  function Moved(k: Kernel, reactions: Reactions, to: Phase): Kernel {
    if to in Legal(k.phase) then
      var d := Drain(k.phase, [to], reactions, |k.fired|);
      k.(phase := d.phase, fired := k.fired + d.fired)
    else k
  }

  // What one call does.
  ghost function Call(k: Kernel, reactions: Reactions, a: Action): Kernel {
    match a
    case CallStart => Moved(k, reactions, Starting)
    case CallStop => Moved(k, reactions, if k.phase == Running then Stopping else Failed)
    case CallRegister(spec) =>
      if k.phase == Starting && Admissible(ModuleNames(k.records), spec) then
        k.(records := k.records + [Record(spec, Unknown)])
      else if spec.required then Moved(k, reactions, Failed)
      else k
    case CallUnregister(name) =>
      var i := Find(ModuleNames(k.records), name);
      if (k.phase == Running || k.phase == Stopping) && name != "" && i < |k.records| then
        k.(records := Without(k.records, i))
      else k
    case Force(to) => Moved(k, reactions, to)
  }

  ghost function Calls(k: Kernel, reactions: Reactions, actions: seq<Action>): Kernel
    decreases |actions|
  {
    if actions == [] then k else Calls(Call(k, reactions, actions[0]), reactions, actions[1..])
  }

  lemma {:induction false} CallsConcat(k: Kernel, reactions: Reactions, a: seq<Action>, b: seq<Action>)
    ensures Calls(k, reactions, a + b) == Calls(Calls(k, reactions, a), reactions, b)
    decreases |a|
  {
    if a == [] {
      assert a + b == b;
    } else {
      assert (a + b)[1..] == a[1..] + b;
      CallsConcat(Call(k, reactions, a[0]), reactions, a[1..], b);
    }
  }

  // Modules listed in dependency order are all accepted while the kernel is starting.
  lemma {:induction false} RegisterInOrder(k: Kernel, reactions: Reactions, specs: seq<Spec>)
    requires k.phase == Starting && Admitted(ModuleNames(k.records), specs)
    ensures Calls(k, reactions, Map(specs, (s: Spec) => CallRegister(s)))
         == k.(records := k.records + Map(specs, (s: Spec) => Record(s, Unknown)))
    decreases |specs|
  {
    var calls := Map(specs, (s: Spec) => CallRegister(s));
    if specs == [] {
      assert k.records + [] == k.records;
    } else {
      var next := k.(records := k.records + [Record(specs[0], Unknown)]);
      assert Call(k, reactions, calls[0]) == next;
      assert calls[1..] == Map(specs[1..], (s: Spec) => CallRegister(s));
      assert ModuleNames(next.records) == ModuleNames(k.records) + [specs[0].name];
      RegisterInOrder(next, reactions, specs[1..]);
      assert next.records + Map(specs[1..], (s: Spec) => Record(s, Unknown))
          == k.records + Map(specs, (s: Spec) => Record(s, Unknown));
    }
  }

  // ---- Calls while the kernel stops ------------------------------------------------------------

  // Everything that is called during the first n shutdowns.
  function Meanwhile(script: nat -> Shutdown, n: nat): seq<Action> {
    if n == 0 then [] else Meanwhile(script, n - 1) + script(n - 1).actions
  }

  lemma {:induction false} OneMoreShutdown(k: Kernel, reactions: Reactions, script: nat -> Shutdown, n: nat)
    ensures Calls(k, reactions, Meanwhile(script, n + 1))
         == Calls(Calls(k, reactions, Meanwhile(script, n)), reactions, script(n).actions)
  {
    CallsConcat(k, reactions, Meanwhile(script, n), script(n).actions);
  }

  // How the first call that ends a stopping kernel ends it: another stop, a required module that cannot be
  // registered any more, or a transition of the lifecycle itself.
  function FirstEnding(actions: seq<Action>): (ending: Option<Phase>)
    ensures ending.Some? ==> Terminal(ending.value)
  {
    if actions == [] then None
    else
      match actions[0]
      case CallStop => Some(Failed)
      case CallRegister(spec) => if spec.required then Some(Failed) else FirstEnding(actions[1..])
      case Force(to) => if Terminal(to) then Some(to) else FirstEnding(actions[1..])
      case _ => FirstEnding(actions[1..])
  }

  // The modules unregistered before the kernel ended.
  function Unregistered(actions: seq<Action>): set<string> {
    if actions == [] || FirstEnding(actions[..1]).Some? then {}
    else
      var a := actions[0];
      (if a.CallUnregister? && a.name != "" then {a.name} else {}) + Unregistered(actions[1..])
  }

  // Once the kernel has ended no call does anything.
  lemma {:induction false} EndedCalls(k: Kernel, reactions: Reactions, actions: seq<Action>)
    requires Terminal(k.phase)
    ensures Calls(k, reactions, actions) == k
    decreases |actions|
  {
    if actions != [] {
      EndedCalls(k, reactions, actions[1..]);
    }
  }

  lemma {:induction false} StoppingCall(k: Kernel, reactions: Reactions, a: Action)
    requires k.phase == Stopping && Distinct(ModuleNames(k.records))
    requires forall i :: reactions(i) == []
    ensures var after, ending := Call(k, reactions, a), FirstEnding([a]);
      && after.phase == (if ending.Some? then ending.value else Stopping)
      && Distinct(ModuleNames(after.records))
      && (ending.Some? ==> after.records == k.records)
      && forall name :: name in ModuleNames(after.records) <==>
           name in ModuleNames(k.records) && !(a == CallUnregister(name) && name != "")
  {
    assert [a][1..] == [];
    DrainDescends(Stopping, Failed, reactions, |k.fired|);
    DrainDescends(Stopping, Stopped, reactions, |k.fired|);
    if a.CallUnregister? {
      var i := Find(ModuleNames(k.records), a.name);
      if a.name != "" && i < |k.records| {
        NamesWithout(k.records, i);
      }
    }
  }

  lemma {:induction false} NamesWithout(records: seq<Record>, i: nat)
    requires i < |records| && Distinct(ModuleNames(records))
    ensures var before, after := ModuleNames(records), ModuleNames(Without(records, i));
      && Distinct(after)
      && forall name :: name in after <==> name in before && name != before[i]
  {
    var before, after := ModuleNames(records), ModuleNames(Without(records, i));
    WithoutLeaves(records, i);
    forall k | 0 <= k < |after|
      ensures after[k] == before[if k < i then k else k + 1]
    {
    }
    forall name | name in before && name != before[i]
      ensures name in after
    {
      var j :| 0 <= j < |before| && before[j] == name;
      assert after[if j < i then j else j - 1] == name;
    }
  }

  // A kernel that is stopping takes no more modules; those unregistered meanwhile are gone; and the first call that
  // can end it does.
  lemma {:induction false} StoppingCalls(k: Kernel, reactions: Reactions, actions: seq<Action>)
    requires k.phase == Stopping && Distinct(ModuleNames(k.records))
    requires forall i :: reactions(i) == []
    ensures var after, ending := Calls(k, reactions, actions), FirstEnding(actions);
      && after.phase == (if ending.Some? then ending.value else Stopping)
      && forall name :: name in ModuleNames(after.records) <==>
           name in ModuleNames(k.records) && name !in Unregistered(actions)
    decreases |actions|
  {
    if actions != [] {
      var next := Call(k, reactions, actions[0]);
      StoppingCall(k, reactions, actions[0]);
      assert actions[..1] == [actions[0]] && [actions[0]][1..] == [];
      if next.phase == Stopping {
        StoppingCalls(next, reactions, actions[1..]);
      } else {
        EndedCalls(next, reactions, actions[1..]);
      }
    }
  }

  lemma {:induction false} StillOrdered(records: seq<Record>, i: nat)
    requires i < |records| && Ordered(records) && Distinct(ModuleNames(records)) && LossesMarked(records)
    ensures Ordered(Without(records, i))
  {
    UnregisterKeepsOrder(records, i);
  }

  lemma {:induction false} QuietStop(k: Kernel, reactions: Reactions, actions: seq<Action>)
    requires k.phase == Running && Distinct(ModuleNames(k.records)) && forall i :: reactions(i) == []
    ensures var drained, ending := Calls(Call(k, reactions, CallStop), reactions, actions), FirstEnding(actions);
      && drained.phase == (if ending.Some? then ending.value else Stopping)
      && forall name :: name in ModuleNames(drained.records) <==>
           name in ModuleNames(k.records) && name !in Unregistered(actions)
  {
    DrainDescends(Running, Stopping, reactions, |k.fired|);
    StoppingCalls(Call(k, reactions, CallStop), reactions, actions);
  }

  // ---- The object ------------------------------------------------------------------------------

  class Hermes {
    const shutdownTimeoutMs: int
    const lifecycle: HermesLifecycle
    const registry: HermesModuleRegistry
    // The calls made to modules' shutdown handles: names and deadlines, in order.
    var shutdowns: seq<string>
    var deadlines: seq<int>

    constructor (timeoutMs: int, lifecycle: HermesLifecycle, registry: HermesModuleRegistry)
      requires lifecycle.AtRest() && registry.Valid() && Ordered(registry.records) && Complete(registry.records)
      ensures Valid() && this.lifecycle == lifecycle && this.registry == registry && shutdownTimeoutMs == timeoutMs
      ensures shutdowns == []
    {
      shutdownTimeoutMs := timeoutMs;
      this.lifecycle, this.registry := lifecycle, registry;
      shutdowns, deadlines := [], [];
    }

    // In every state the façade can reach: registered dependencies sit earlier in the registry, none is
    // missing before the kernel runs, and no module's shutdown has been called twice.
    ghost predicate Valid()
      reads this, lifecycle, registry
    {
      && lifecycle.AtRest() && registry.Valid()
      && Ordered(registry.records)
      && (Rank(lifecycle.phase) >= 3 ==> Complete(registry.records))
      && Distinct(shutdowns)
      && (shutdowns != [] ==> Rank(lifecycle.phase) <= 1)
    }

    ghost function View(): Kernel
      reads lifecycle, registry
    {
      Kernel(lifecycle.phase, lifecycle.fired, registry.records)
    }

    // A call on the lifecycle, by the façade or by whoever else holds it.
    method Advance(to: Phase) returns (ok: bool)
      requires Valid()
      modifies lifecycle
      ensures Valid() && View() == Moved(old(View()), lifecycle.reactions, to)
      ensures ok <==> to in Legal(old(lifecycle.phase))
      ensures !ok ==> lifecycle.phase == old(lifecycle.phase)
      ensures Rank(lifecycle.phase) <= Rank(old(lifecycle.phase))
      ensures ok ==> Rank(lifecycle.phase) <= Rank(to)
      ensures ok && Terminal(to) ==> lifecycle.phase == to
      ensures ok && (forall k :: lifecycle.reactions(k) == []) ==> lifecycle.phase == to
    {
      DrainDescends(lifecycle.phase, to, lifecycle.reactions, |lifecycle.fired|);
      ok := lifecycle.Transition(to);
    }

    method Start() returns (ok: bool)
      requires Valid()
      modifies lifecycle
      ensures Valid() && Rank(lifecycle.phase) <= Rank(old(lifecycle.phase))
      ensures View() == Call(old(View()), lifecycle.reactions, CallStart)
      // It only ever asks for STARTING: becoming RUNNING is up to whoever holds the lifecycle.
      ensures ok <==> old(lifecycle.phase) == Running || old(lifecycle.phase) == Initializing
      ensures old(lifecycle.phase) != Initializing ==> lifecycle.phase == old(lifecycle.phase)
      ensures old(lifecycle.phase) == Initializing && (forall k :: lifecycle.reactions(k) == []) ==>
          lifecycle.phase == Starting
    {
      if lifecycle.phase == Running {
        return true;
      }
      if Terminal(lifecycle.phase) {
        return false;
      }
      ok := Advance(Starting);
    }

    method RegisterModule(spec: Spec) returns (ok: bool)
      requires Valid()
      modifies lifecycle, registry
      ensures Valid() && Rank(lifecycle.phase) <= Rank(old(lifecycle.phase))
      ensures View() == Call(old(View()), lifecycle.reactions, CallRegister(spec))
      ensures ok <==> old(lifecycle.phase) == Starting && Admissible(ModuleNames(old(registry.records)), spec)
      ensures registry.records == old(registry.records) + if ok then [Record(spec, Unknown)] else []
      // Refusing a required module fails the kernel, unless it has ended already.
      ensures lifecycle.phase
           == if !ok && spec.required && !Terminal(old(lifecycle.phase)) then Failed else old(lifecycle.phase)
    {
      if lifecycle.phase != Starting {
        if spec.required {
          var failed := Advance(Failed);
        }
        return false;
      }
      RefusalIs(registry.records, spec);
      if Refusal(registry.records, spec).None? {
        RegisterComplete(registry.records, spec);
      }
      var error := registry.RegisterModule(spec);
      ok := error.None?;
      assert !ok ==> registry.records == old(registry.records);
      if !ok && spec.required {
        var failed := Advance(Failed);
      }
    }

    method UnregisterModule(name: string) returns (ok: bool)
      requires Valid()
      modifies registry
      ensures Valid() && View() == Call(old(View()), lifecycle.reactions, CallUnregister(name))
      ensures ok <==>
        && (lifecycle.phase == Running || lifecycle.phase == Stopping)
        && name != ""
        && name in ModuleNames(old(registry.records))
      ensures !ok ==> registry.records == old(registry.records)
    {
      if lifecycle.phase != Running && lifecycle.phase != Stopping {
        return false;
      }
      ghost var before := registry.records;
      var error := registry.UnregisterModule(name);
      ok := error.None?;
      if ok {
        StillOrdered(before, Find(ModuleNames(before), name));
      }
    }

    // The part of `stop` before the first await.  Only RUNNING leads to a drain; stopping any earlier,
    // or while another stop is draining, fails the kernel.
    method BeginStop() returns (r: StopStart)
      requires Valid()
      modifies lifecycle
      ensures Valid() && Rank(lifecycle.phase) <= Rank(old(lifecycle.phase))
      ensures View() == Call(old(View()), lifecycle.reactions, CallStop)
      ensures r == Draining <==> old(lifecycle.phase) == Running
      ensures r == AlreadyStopped <==> old(lifecycle.phase) == Stopped
      ensures r == Refused ==> lifecycle.phase == Failed
      ensures r == Draining ==> Rank(lifecycle.phase) <= 1 && shutdowns == []
      ensures r == Draining && (forall k :: lifecycle.reactions(k) == []) ==> lifecycle.phase == Stopping
    {
      if lifecycle.phase == Stopped {
        return AlreadyStopped;
      }
      if lifecycle.phase == Failed {
        return Refused;
      }
      var ok := Advance(Stopping);
      if ok {
        return Draining;
      }
      ok := Advance(Failed);
      return Refused;
    }

    // What other callers do while the drain awaits a module.  None of them starts a second drain.
    method Interfere(actions: seq<Action>)
      requires Valid() && Rank(lifecycle.phase) <= 1
      modifies lifecycle, registry
      ensures Valid() && Rank(lifecycle.phase) <= 1
      ensures View() == Calls(old(View()), lifecycle.reactions, actions)
    {
      var i := 0;
      while i < |actions|
        invariant i <= |actions|
        invariant Valid() && Rank(lifecycle.phase) <= 1
        invariant Calls(View(), lifecycle.reactions, actions[i..]) == Calls(old(View()), lifecycle.reactions, actions)
      {
        assert actions[i..][0] == actions[i] && actions[i..][1..] == actions[i + 1..];
        match actions[i] {
          case CallStart =>
            var ok := Start();
          case CallStop =>
            var r := BeginStop();
            assert r != Draining;
          case CallRegister(spec) =>
            var ok := RegisterModule(spec);
          case CallUnregister(name) =>
            var ok := UnregisterModule(name);
          case Force(to) =>
            var ok := Advance(to);
        }
        i := i + 1;
      }
    }

    // One module's shutdown, and what is called while it is awaited.
    method DrainOne(name: string, deadline: int, actions: seq<Action>)
      requires Valid() && Rank(lifecycle.phase) <= 1 && Distinct(shutdowns + [name])
      modifies this, lifecycle, registry
      ensures Valid() && Rank(lifecycle.phase) <= 1
      ensures shutdowns == old(shutdowns) + [name] && deadlines == old(deadlines) + [deadline]
      ensures View() == Calls(old(View()), lifecycle.reactions, actions)
    {
      shutdowns := shutdowns + [name];
      deadlines := deadlines + [deadline];
      Interfere(actions);
    }

    // The shutdown loop, latest module first.
    method DrainEach(names: seq<string>, deadline: int, script: nat -> Shutdown) returns (anyDrainThrew: bool)
      requires Valid() && Rank(lifecycle.phase) <= 1 && shutdowns == [] && Distinct(names)
      modifies this, lifecycle, registry
      ensures Valid() && Rank(lifecycle.phase) <= 1
      ensures shutdowns == Reversed(names)
      ensures |deadlines| == |names| && forall i :: 0 <= i < |names| ==> deadlines[i] == deadline
      ensures anyDrainThrew <==> SomeThrew(script, |names|)
      ensures View() == Calls(old(View()), lifecycle.reactions, Meanwhile(script, |names|))
    {
      anyDrainThrew := false;
      deadlines := [];
      var k := 0;
      while k < |names|
        invariant Valid() && Rank(lifecycle.phase) <= 1
        invariant CalledTo(names, deadline, script, k, shutdowns, deadlines, anyDrainThrew)
        invariant View() == Calls(old(View()), lifecycle.reactions, Meanwhile(script, k))
      {
        CalledNext(names, deadline, script, k, shutdowns, deadlines, anyDrainThrew);
        DrainOne(names[|names| - 1 - k], deadline, script(k).actions);
        OneMoreShutdown(old(View()), lifecycle.reactions, script, k);
        anyDrainThrew := anyDrainThrew || script(k).threw;
        k := k + 1;
      }
      assert Reversed(names)[..k] == Reversed(names);
    }

    // Shut the modules down in reverse order of registration.  `ok` is false where the source throws.
    method DrainModules(script: nat -> Shutdown) returns (ok: bool)
      requires Valid() && Rank(lifecycle.phase) <= 1 && shutdowns == []
      modifies this, lifecycle, registry
      ensures Valid() && Rank(lifecycle.phase) <= 1
      ensures shutdowns == Reversed(ModuleNames(old(registry.records)))
      ensures |deadlines| == |shutdowns|
      ensures forall i :: 0 <= i < |deadlines| ==> deadlines[i] == Deadline(shutdownTimeoutMs, |shutdowns|)
      // The drain ends the kernel, unless something called meanwhile has ended it before.
      ensures var drained := Calls(old(View()), lifecycle.reactions, Meanwhile(script, |old(registry.records)|));
        && (ok <==> drained.phase == Stopping)
        && registry.records == drained.records
        && lifecycle.phase
           == if !ok then drained.phase
              else if SomeThrew(script, |old(registry.records)|) then Failed
              else Stopped
    {
      var names := ModuleNames(registry.records);
      HermesModuleRegistry.InverseNames(registry.records, registry.indexByName);
      var anyDrainThrew := DrainEach(names, Deadline(shutdownTimeoutMs, |names|), script);
      if anyDrainThrew && |names| > 0 {
        ok := Advance(Failed);
        if !ok {
          ok := Advance(Stopped);
        }
      } else {
        ok := Advance(Stopped);
      }
    }

    method Stop(script: nat -> Shutdown) returns (ok: bool)
      requires Valid()
      modifies this, lifecycle, registry
      ensures Valid() && Rank(lifecycle.phase) <= Rank(old(lifecycle.phase))
      // The drain calls every registered module once, dependents first and latest first, each with its share
      // of the time; any other stop calls none.
      ensures old(lifecycle.phase) == Running ==>
        && ShutDown(old(registry.records), shutdowns, deadlines, shutdownTimeoutMs)
        && shutdowns == Reversed(ModuleNames(old(registry.records)))
        && forall i :: 0 <= i < |deadlines| ==> deadlines[i] == Deadline(shutdownTimeoutMs, |shutdowns|)
      ensures old(lifecycle.phase) != Running ==>
        && shutdowns == old(shutdowns)
        && ok == (old(lifecycle.phase) == Stopped)
        && (!ok ==> lifecycle.phase == Failed)
      // The kernel has ended after it: as a call made meanwhile, or else the modules' shutdowns, decide.  Only the
      // phase tells that a module threw; `ok` is false when somebody else was first.
      ensures old(lifecycle.phase) == Running ==> Terminal(lifecycle.phase)
      ensures old(lifecycle.phase) == Running && (forall k :: lifecycle.reactions(k) == []) ==>
        var ending := FirstEnding(Meanwhile(script, |old(registry.records)|));
        && (ok <==> ending == None)
        && lifecycle.phase
           == if ending.Some? then ending.value
              else if SomeThrew(script, |old(registry.records)|) then Failed
              else Stopped
      // What is still registered then has not been unregistered meanwhile.
      ensures old(lifecycle.phase) == Running && (forall k :: lifecycle.reactions(k) == []) ==>
        forall name :: name in ModuleNames(registry.records) <==>
          && name in ModuleNames(old(registry.records))
          && name !in Unregistered(Meanwhile(script, |old(registry.records)|))
    {
      var begun := BeginStop();
      if begun == AlreadyStopped {
        return true;
      }
      if begun == Refused {
        return false;
      }
      HermesModuleRegistry.InverseNames(registry.records, registry.indexByName);
      ghost var records := registry.records;
      ok := DrainModules(script);
      ReversedDrains(records, shutdowns, deadlines, shutdownTimeoutMs);
      if forall k :: lifecycle.reactions(k) == [] {
        QuietStop(old(View()), lifecycle.reactions, Meanwhile(script, |records|));
      }
      if !ok {
        var failed := Advance(Failed);
      }
    }
  }
}
