// The kernel's lifecycle phase: a state machine whose handlers may ask for further transitions.
module HermesLifecycle {
  datatype Phase = Initializing | Starting | Running | Stopping | Stopped | Failed

  function Legal(p: Phase): set<Phase> {
    match p
    case Initializing => {Starting, Failed}
    case Starting => {Running, Failed}
    case Running => {Stopping, Failed}
    case Stopping => {Stopped, Failed}
    case Stopped => {}
    case Failed => {}
  }

  predicate Terminal(p: Phase) {
    p == Stopped || p == Failed
  }

  // The table by target: a kernel that has not ended can fail; every other phase follows one phase only.
  lemma {:induction false} PhaseSources(p: Phase)
    ensures Failed in Legal(p) <==> !Terminal(p)
    ensures Starting in Legal(p) <==> p == Initializing
    ensures Running in Legal(p) <==> p == Starting
    ensures Stopping in Legal(p) <==> p == Running
    ensures Stopped in Legal(p) <==> p == Stopping
    ensures Initializing !in Legal(p)
  {
  }

  // How many transitions are left at most.
  function Rank(p: Phase): nat {
    match p
    case Initializing => 4
    case Starting => 3
    case Running => 2
    case Stopping => 1
    case Stopped => 0
    case Failed => 0
  }

  lemma {:induction false} LegalDescends(p: Phase, q: Phase)
    requires q in Legal(p)
    ensures Rank(q) < Rank(p)
    ensures Terminal(p) <==> Legal(p) == {}
  {
  }

  // ---- Draining the queue, as a function --------------------------------------------------

  // What handlers ask for at the k-th firing is `reactions(k)`; in a terminal phase asking throws.
  type Reactions = nat -> seq<Phase>

  datatype Drained = Drained(phase: Phase, queue: seq<Phase>, fired: seq<(Phase, Phase)>)

  function Drain(p: Phase, queue: seq<Phase>, reactions: Reactions, k: nat): Drained
    decreases Rank(p), |queue|
  {
    if queue == [] || Terminal(p) then Drained(p, queue, [])
    else if queue[0] !in Legal(p) then Drain(p, queue[1..], reactions, k)
    else
      var next := queue[0];
      var d := Drain(next, queue[1..] + Asked(next, reactions, k), reactions, k + 1);
      d.(fired := [(p, next)] + d.fired)
  }

  function Asked(p: Phase, reactions: Reactions, k: nat): seq<Phase> {
    if Terminal(p) then [] else reactions(k)
  }

  // A contiguous chain of legal transitions from p to q.
  ghost predicate LegalPath(p: Phase, fired: seq<(Phase, Phase)>, q: Phase)
    decreases |fired|
  {
    if fired == [] then p == q
    else fired[0].0 == p && fired[0].1 in Legal(p) && LegalPath(fired[0].1, fired[1..], q)
  }

  lemma {:induction false} PathIsShort(p: Phase, fired: seq<(Phase, Phase)>, q: Phase)
    requires LegalPath(p, fired, q)
    ensures |fired| + Rank(q) <= Rank(p)
    decreases |fired|
  {
    if fired != [] {
      PathIsShort(fired[0].1, fired[1..], q);
    }
  }

  lemma {:induction false} PathJoin(p: Phase, a: seq<(Phase, Phase)>, q: Phase, b: seq<(Phase, Phase)>, r: Phase)
    requires LegalPath(p, a, q) && LegalPath(q, b, r)
    ensures LegalPath(p, a + b, r)
    decreases |a|
  {
    if a == [] {
      assert a + b == b;
    } else {
      PathJoin(a[0].1, a[1..], q, b, r);
      assert (a + b)[1..] == a[1..] + b;
    }
  }

  // The drain fires a contiguous legal path and rests with an empty queue or in a terminal phase.
  lemma {:induction false} DrainTheorem(p: Phase, queue: seq<Phase>, reactions: Reactions, k: nat)
    ensures var d := Drain(p, queue, reactions, k);
      && LegalPath(p, d.fired, d.phase)
      && |d.fired| <= Rank(p)
      && (d.queue == [] || Terminal(d.phase))
    decreases Rank(p), |queue|
  {
    var d := Drain(p, queue, reactions, k);
    if queue != [] && !Terminal(p) {
      if queue[0] !in Legal(p) {
        DrainTheorem(p, queue[1..], reactions, k);
      } else {
        var next := queue[0];
        DrainTheorem(next, queue[1..] + Asked(next, reactions, k), reactions, k + 1);
        assert d.fired[1..] == Drain(next, queue[1..] + Asked(next, reactions, k), reactions, k + 1).fired;
      }
    }
    PathIsShort(p, d.fired, d.phase);
  }

  lemma {:induction false} DrainBegins(p: Phase, next: Phase, reactions: Reactions, k: nat)
    requires next in Legal(p)
    ensures var d := Drain(next, Asked(next, reactions, k), reactions, k + 1);
      Drain(p, [next], reactions, k) == d.(fired := [(p, next)] + d.fired)
  {
    assert [next][1..] + Asked(next, reactions, k) == Asked(next, reactions, k);
  }

  // A drain carries on the legal path that led to it.
  lemma {:induction false} DrainKeepsPath(
    initial: Phase, fired: seq<(Phase, Phase)>, p: Phase, queue: seq<Phase>, reactions: Reactions)
    requires LegalPath(initial, fired, p)
    ensures var d := Drain(p, queue, reactions, |fired|);
      LegalPath(initial, fired + d.fired, d.phase) && (d.queue == [] || Terminal(d.phase))
  {
    var d := Drain(p, queue, reactions, |fired|);
    DrainTheorem(p, queue, reactions, |fired|);
    PathJoin(initial, fired, p, d.fired, d.phase);
  }

  // ---- A simpler machine ----------------------------------------------------------------------

  // Take the requests one by one and follow the legal ones.
  function Follow(p: Phase, requests: seq<Phase>): Phase
    decreases |requests|
  {
    if requests == [] then p
    else Follow(if requests[0] in Legal(p) then requests[0] else p, requests[1..])
  }

  // Every request of a drain in the order it was made: those waiting, then what each firing adds.
  function Requests(p: Phase, queue: seq<Phase>, reactions: Reactions, k: nat): seq<Phase>
    decreases Rank(p), |queue|
  {
    if queue == [] || Terminal(p) then queue
    else if queue[0] !in Legal(p) then [queue[0]] + Requests(p, queue[1..], reactions, k)
    else [queue[0]] + Requests(queue[0], queue[1..] + Asked(queue[0], reactions, k), reactions, k + 1)
  }

  // What the handlers ask for at n firings from the k-th on.
  function Reacted(reactions: Reactions, k: nat, n: nat): seq<Phase>
    decreases n
  {
    if n == 0 then [] else reactions(k) + Reacted(reactions, k + 1, n - 1)
  }

  // The firings whose handlers are listened to.
  function Heard(d: Drained): nat {
    if Terminal(d.phase) && d.fired != [] then |d.fired| - 1 else |d.fired|
  }

  lemma {:induction false} DrainEnds(p: Phase, queue: seq<Phase>, reactions: Reactions, k: nat)
    requires !Terminal(p)
    ensures var d := Drain(p, queue, reactions, k); Terminal(d.phase) ==> d.fired != []
  {
    DrainTheorem(p, queue, reactions, k);
  }

  lemma {:induction false} RequestsJoin(next: Phase, rest: seq<Phase>, reactions: Reactions, k: nat, heard: nat)
    ensures [next] + ((rest + reactions(k)) + Reacted(reactions, k + 1, heard))
         == ([next] + rest) + Reacted(reactions, k, heard + 1)
  {
  }

  // The requests of a drain are the ones waiting and everything the handlers ask for at its firings, but for the
  // last one if that ends the kernel.
  lemma {:induction false} RequestsAre(p: Phase, queue: seq<Phase>, reactions: Reactions, k: nat)
    ensures Requests(p, queue, reactions, k) == queue + Reacted(reactions, k, Heard(Drain(p, queue, reactions, k)))
    decreases Rank(p), |queue|
  {
    if queue != [] && !Terminal(p) {
      var rest := queue[1..];
      assert queue == [queue[0]] + rest;
      if queue[0] !in Legal(p) {
        RequestsAre(p, rest, reactions, k);
      } else {
        RequestsAre(queue[0], rest + Asked(queue[0], reactions, k), reactions, k + 1);
        LegalRequest(p, queue, reactions, k);
      }
    }
  }

  lemma {:induction false} LegalRequest(p: Phase, queue: seq<Phase>, reactions: Reactions, k: nat)
    requires queue != [] && !Terminal(p) && queue[0] in Legal(p)
    requires var waiting := queue[1..] + Asked(queue[0], reactions, k);
      Requests(queue[0], waiting, reactions, k + 1)
      == waiting + Reacted(reactions, k + 1, Heard(Drain(queue[0], waiting, reactions, k + 1)))
    ensures Requests(p, queue, reactions, k) == queue + Reacted(reactions, k, Heard(Drain(p, queue, reactions, k)))
  {
    var next, rest := queue[0], queue[1..];
    var d := Drain(next, rest + Asked(next, reactions, k), reactions, k + 1);
    assert queue == [next] + rest;
    assert Drain(p, queue, reactions, k) == d.(fired := [(p, next)] + d.fired);
    if Terminal(next) {
      assert d.fired == [] && d.phase == next && rest + [] == rest;
    } else {
      DrainEnds(next, rest + reactions(k), reactions, k + 1);
      RequestsJoin(next, rest, reactions, k, Heard(d));
    }
  }

  lemma {:induction false} FollowTerminal(p: Phase, requests: seq<Phase>)
    requires Terminal(p)
    ensures Follow(p, requests) == p
    decreases |requests|
  {
    if requests != [] {
      FollowTerminal(p, requests[1..]);
    }
  }

  // Queueing loses nothing and reorders nothing: the drain ends where following all requests in order ends.
  lemma {:induction false} DrainFollows(p: Phase, queue: seq<Phase>, reactions: Reactions, k: nat)
    ensures Drain(p, queue, reactions, k).phase == Follow(p, Requests(p, queue, reactions, k))
    ensures queue <= Requests(p, queue, reactions, k)
    decreases Rank(p), |queue|
  {
    if queue == [] {
    } else if Terminal(p) {
      FollowTerminal(p, queue);
    } else if queue[0] !in Legal(p) {
      DrainFollows(p, queue[1..], reactions, k);
      assert Requests(p, queue, reactions, k)[1..] == Requests(p, queue[1..], reactions, k);
    } else {
      var rest := queue[1..] + Asked(queue[0], reactions, k);
      DrainFollows(queue[0], rest, reactions, k + 1);
      assert Requests(p, queue, reactions, k)[1..] == Requests(queue[0], rest, reactions, k + 1);
    }
  }

  // ---- The object --------------------------------------------------------------------------------

  class HermesLifecycle {
    const initial: Phase
    const reactions: Reactions
    var phase: Phase
    var transitioning: bool
    var pendingQueue: seq<Phase>
    // The (from, to) pairs handed to the handlers, and whether a handler is running now.
    var fired: seq<(Phase, Phase)>
    ghost var firing: bool

    constructor (initial: Phase, reactions: Reactions)
      ensures AtRest() && phase == initial && this.initial == initial && this.reactions == reactions && fired == []
    {
      this.initial, this.reactions, phase := initial, reactions, initial;
      transitioning, pendingQueue, fired, firing := false, [], [], false;
    }

    // The whole history is one legal path, and nothing is left to do.
    ghost predicate AtRest()
      reads this
    {
      && !transitioning && !firing
      && LegalPath(initial, fired, phase)
      && (pendingQueue == [] || Terminal(phase))
    }

    // `ok` is false where the source throws.  Called by a handler, it only queues.
    method Transition(to: Phase) returns (ok: bool)
      requires transitioning || AtRest()
      modifies this
      ensures old(transitioning) ==>
        && ok == !Terminal(old(phase))
        && pendingQueue == old(pendingQueue) + (if ok then [to] else [])
        && phase == old(phase) && fired == old(fired) && transitioning && firing == old(firing)
      ensures !old(transitioning) ==> AtRest() && ok == (to in Legal(old(phase)))
      ensures !old(transitioning) && !ok ==>
          phase == old(phase) && pendingQueue == old(pendingQueue) && fired == old(fired)
      ensures !old(transitioning) && ok ==>
        var d := Drain(old(phase), [to], reactions, |old(fired)|);
        phase == d.phase && pendingQueue == d.queue && fired == old(fired) + d.fired
      decreases if transitioning then 0 else 4
    {
      if Terminal(phase) {
        return false;
      }
      if transitioning {
        pendingQueue := pendingQueue + [to];
        return true;
      }
      if to !in Legal(phase) {
        return false;
      }
      transitioning := true;
      ApplyTransition(to);
      DrainPending();
      DrainBegins(old(phase), to, reactions, |old(fired)|);
      DrainKeepsPath(initial, old(fired), old(phase), [to], reactions);
      assert fired == old(fired) + ([(old(phase), to)] + fired[|old(fired)| + 1..]);
      transitioning := false;
      return true;
    }

    // The loop over the pending queue.
    method DrainPending()
      requires transitioning && !firing
      modifies this
      ensures transitioning && !firing
      ensures var d := Drain(old(phase), old(pendingQueue), reactions, |old(fired)|);
        phase == d.phase && pendingQueue == d.queue && fired == old(fired) + d.fired
      decreases 3
    {
      ghost var goal := Drain(phase, pendingQueue, reactions, |fired|);
      while pendingQueue != [] && !Terminal(phase)
        invariant transitioning && !firing
        invariant var d := Drain(phase, pendingQueue, reactions, |fired|);
          goal.phase == d.phase && goal.queue == d.queue && old(fired) + goal.fired == fired + d.fired
        decreases Rank(phase), |pendingQueue|
      {
        var next := pendingQueue[0];
        pendingQueue := pendingQueue[1..];
        if next !in Legal(phase) {
          continue;
        }
        LegalDescends(phase, next);
        ApplyTransition(next);
      }
    }

    method ApplyTransition(to: Phase)
      requires transitioning && !firing && to in Legal(phase)
      modifies this
      ensures transitioning && !firing && phase == to
      ensures fired == old(fired) + [(old(phase), to)]
      ensures pendingQueue == old(pendingQueue) + Asked(to, reactions, |old(fired)|)
      decreases 2
    {
      var from := phase;
      phase := to;
      Fire(from, to);
    }

    // Runs the handlers; they may call Transition.  No firing ever starts inside another.
    method Fire(from: Phase, to: Phase)
      requires transitioning && !firing && phase == to
      modifies this
      ensures transitioning && !firing && phase == to
      ensures fired == old(fired) + [(from, to)]
      ensures pendingQueue == old(pendingQueue) + Asked(to, reactions, |old(fired)|)
      decreases 1
    {
      firing := true;
      var asked := reactions(|fired|);
      fired := fired + [(from, to)];
      var i := 0;
      while i < |asked|
        invariant i <= |asked|
        invariant transitioning && firing && phase == to
        invariant fired == old(fired) + [(from, to)]
        invariant pendingQueue == old(pendingQueue) + if Terminal(to) then [] else asked[..i]
      {
        var ok := Transition(asked[i]);
        assert asked[..i + 1] == asked[..i] + [asked[i]];
        i := i + 1;
      }
      assert asked[..|asked|] == asked;
      firing := false;
    }
  }
}
