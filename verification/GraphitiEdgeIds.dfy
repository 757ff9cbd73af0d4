// How the event writer spells the ids of its edges, and when two different edges get the same id.
module GraphitiEdgeIds {
  import opened KnowledgeGraph

  function GoalNode(id: string): string { "goal-" + id }
  function PlanNode(id: string): string { "plan-" + id }
  function ExecNode(id: string): string { "exec-" + id }
  function StepNode(id: string): string { "step-" + id }
  function CheckpointNode(id: string): string { "checkpoint-" + id }

  function EdgeId(source: string, kind: string, target: string): string {
    "edge-" + source + "-" + kind + "-" + target
  }

  function Spelled(kind: string, source: string, target: string): Edge {
    Edge(EdgeId(source, kind, target), kind, source, target)
  }

  // An edge the writer asks for.  Each belongs to one execution.
  datatype Link =
    | Achieves(execution: string, id: string)
    | Plans(execution: string, id: string)
    | Runs(execution: string, id: string)
    | Produces(execution: string, id: string)

  function LinkEdge(l: Link): Edge {
    match l
    case Achieves(x, id) => Spelled("achieves", ExecNode(x), GoalNode(id))
    case Plans(x, id) => Spelled("contains", PlanNode(id), ExecNode(x))
    case Runs(x, id) => Spelled("contains", ExecNode(x), StepNode(id))
    case Produces(x, id) => Spelled("produces", ExecNode(x), CheckpointNode(id))
  }

  lemma {:induction false} LinkEdgeInjective(k: Link, l: Link)
    requires LinkEdge(k) == LinkEdge(l)
    ensures k == l
  {
    var s, t := LinkEdge(k).source, LinkEdge(k).target;
    assert s[0] == 'p' <==> k.Plans?;
    assert s[0] == 'p' <==> l.Plans?;
    assert t[0] == 's' <==> k.Runs?;
    assert t[0] == 's' <==> l.Runs?;
    assert s[5..] == if k.Plans? then k.id else k.execution;
    assert s[5..] == if l.Plans? then l.id else l.execution;
    assert k.Produces? ==> t[11..] == k.id;
    assert l.Produces? ==> t[11..] == l.id;
    assert !k.Produces? ==> t[5..] == if k.Plans? then k.execution else k.id;
    assert !l.Produces? ==> t[5..] == if l.Plans? then l.execution else l.id;
  }

  // ---- The parts of an edge id ------------------------------------------------------------

  const ACHIEVES := "-achieves-goal-"
  const RUNS := "-contains-step-"
  const PRODUCES := "-produces-checkpoint-"
  const PLANS := "-contains-exec-"

  predicate IsMiddle(m: string) {
    m == ACHIEVES || m == RUNS || m == PRODUCES
  }

  function Middle(l: Link): (m: string)
    requires !l.Plans?
    ensures IsMiddle(m)
  {
    match l
    case Achieves(_, _) => ACHIEVES
    case Runs(_, _) => RUNS
    case Produces(_, _) => PRODUCES
  }

  lemma {:induction false} Parts(a: string, x: string, k: string, t: string, y: string, m: string)
    requires m == "-" + k + "-" + t
    ensures EdgeId(a + x, k, t + y) == "edge-" + a + (x + m + y)
  {
  }

  lemma {:induction false} LinkSpelling(l: Link)
    ensures !l.Plans? ==> LinkEdge(l).id == "edge-exec-" + (l.execution + Middle(l) + l.id)
    ensures l.Plans? ==> LinkEdge(l).id == "edge-plan-" + (l.id + PLANS + l.execution)
  {
    Middles();
    match l
    case Achieves(x, id) => Parts("exec-", x, "achieves", "goal-", id, ACHIEVES);
    case Plans(x, id) => Parts("plan-", id, "contains", "exec-", x, PLANS);
    case Runs(x, id) => Parts("exec-", x, "contains", "step-", id, RUNS);
    case Produces(x, id) => Parts("exec-", x, "produces", "checkpoint-", id, PRODUCES);
  }

  lemma {:induction false} Middles()
    ensures ACHIEVES == "-" + "achieves" + "-" + "goal-"
    ensures RUNS == "-" + "contains" + "-" + "step-"
    ensures PRODUCES == "-" + "produces" + "-" + "checkpoint-"
    ensures PLANS == "-" + "contains" + "-" + "exec-"
    ensures "edge-" + "exec-" == "edge-exec-" && "edge-" + "plan-" == "edge-plan-"
  {
  }

  // ---- Which executions can get in each other's way -------------------------------------------

  predicate EndsWith(s: string, t: string) {
    |t| <= |s| && s[|s| - |t|..] == t
  }

  // With a dash after it, y begins like an edge id of x.
  predicate Begins(x: string, y: string) {
    x + ACHIEVES <= y + "-" || x + RUNS <= y + "-" || x + PRODUCES <= y + "-"
  }

  // With a dash before it, y ends like the id of x's plan edge.
  predicate Ends(x: string, y: string) {
    EndsWith("-" + y, PLANS + x)
  }

  predicate Confusable(x: string, y: string) {
    Begins(x, y) || Begins(y, x) || Ends(x, y) || Ends(y, x)
  }

  ghost predicate Clash(k: Link, l: Link) {
    k != l && LinkEdge(k).id == LinkEdge(l).id
  }

  // The first letters tell the kinds apart.
  lemma {:induction false} SameMiddle(a: string, b: string)
    requires IsMiddle(a) && IsMiddle(b) && a[1] == b[1]
    ensures a == b
  {
    assert ACHIEVES[1] == 'a' && RUNS[1] == 'c' && PRODUCES[1] == 'p';
  }

  // The first letters of b are found in a at position d, as far as a goes.
  predicate LiesAt(b: string, a: string, d: nat)
    requires |b| >= 3
  {
    forall n | 0 <= n < 3 && d + n < |a| :: a[d + n] == b[n]
  }

  // No kind can begin inside another one.
  lemma {:induction false} NoneInside(a: string, b: string, d: nat)
    requires IsMiddle(a) && IsMiddle(b) && 0 < d < |a| - 1
    ensures |b| >= 3 && !LiesAt(b, a, d)
  {
    assert |ACHIEVES| == 15 && |RUNS| == 15 && |PRODUCES| == 21;
    if a[d] == '-' {
      assert d == 9;
      assert ACHIEVES[10] == 'g' && RUNS[10] == 's' && PRODUCES[11] == 'h';
      assert a[d + 1] != b[1] || a[d + 2] != b[2];
    } else {
      assert a[d + 0] != b[0];
    }
  }

  lemma {:induction false} Overlap(x: string, a: string, i: string, y: string, b: string, j: string)
    requires x + a + i == y + b + j && |x| < |y| && |b| >= 3
    ensures LiesAt(b, a, |y| - |x|)
  {
    var s := x + a + i;
    forall n | 0 <= n < 3 && |y| - |x| + n < |a|
      ensures a[|y| - |x| + n] == b[n]
    {
      assert a[|y| - |x| + n] == s[|y| + n];
      assert b[n] == (y + b + j)[|y| + n];
    }
  }

  lemma {:induction false} StartInStart(x: string, a: string, i: string, y: string, b: string, j: string)
    requires x + a + i == y + b + j && b != [] && |x| + |a| <= |y| + 1
    ensures x + a <= y + b[..1]
  {
    var s := x + a + i;
    assert s[..|x| + |a|] == x + a;
    assert (y + b + j)[..|y| + 1] == y + b[..1];
    assert s[..|y| + 1][..|x| + |a|] == s[..|x| + |a|];
  }

  lemma {:induction false} ShorterBegins(x: string, a: string, i: string, y: string, b: string, j: string)
    requires IsMiddle(a) && IsMiddle(b)
    requires x + a + i == y + b + j && |x| < |y|
    ensures x + a <= y + "-"
  {
    if |y| + 1 < |x| + |a| {
      NoneInside(a, b, |y| - |x|);
      Overlap(x, a, i, y, b, j);
    } else {
      StartInStart(x, a, i, y, b, j);
      assert b[..1] == "-";
    }
  }

  lemma {:induction false} SameLength(x: string, a: string, i: string, y: string, b: string, j: string)
    requires IsMiddle(a) && IsMiddle(b)
    requires x + a + i == y + b + j && |x| == |y|
    ensures x == y && a == b && i == j
  {
    var s := x + a + i;
    assert s == y + b + j;
    assert x == s[..|x|] && y == s[..|y|];
    assert a[1] == s[|x| + 1] && b[1] == s[|y| + 1];
    SameMiddle(a, b);
    assert i == s[|x| + |a|..] && j == s[|y| + |b|..];
  }

  // The last letters of PLANS are not found inside it.
  lemma {:induction false} LastLetters(e: nat)
    requires 0 < e < 14
    ensures |PLANS| == 15 && !(PLANS[e] == PLANS[14] && PLANS[e - 1] == PLANS[13])
  {
    assert PLANS[14] == '-' && PLANS[13] == 'c';
    assert PLANS[e] == '-' ==> e == 9;
  }

  lemma {:induction false} OverlapAtEnd(p: string, m: string, x: string, q: string, y: string)
    requires p + m + x == q + m + y && |x| < |y| && |m| >= 2 && |y| + 1 < |m| + |x|
    ensures var e := |m| + |x| - |y| - 1; m[e] == m[|m| - 1] && m[e - 1] == m[|m| - 2]
  {
    var s, e := p + m + x, |m| + |x| - |y| - 1;
    assert m[e] == s[|p| + e] && m[e - 1] == s[|p| + e - 1];
    assert m[|m| - 1] == (q + m + y)[|p| + e] && m[|m| - 2] == (q + m + y)[|p| + e - 1];
  }

  lemma {:induction false} PlanEnds(p: string, x: string, q: string, y: string)
    requires p + PLANS + x == q + PLANS + y && |x| < |y|
    ensures Ends(x, y)
  {
    assert |PLANS| == 15;
    if |y| + 1 < |PLANS| + |x| {
      OverlapAtEnd(p, PLANS, x, q, y);
      LastLetters(|PLANS| + |x| - |y| - 1);
    } else {
      EndInEnd(p, PLANS, x, q, y);
      assert PLANS[|PLANS| - 1..] == "-";
    }
  }

  lemma {:induction false} EndInEnd(p: string, m: string, x: string, q: string, y: string)
    requires p + m + x == q + m + y && m != [] && |m| + |x| <= 1 + |y|
    ensures EndsWith(m[|m| - 1..] + y, m + x)
  {
    var s := p + m + x;
    assert s[|p|..] == m + x;
    var at := |s| - |y| - 1;
    assert (q + m + y)[at..] == m[|m| - 1..] + y;
    assert s[at..][|p| - at..] == s[|p|..];
  }

  lemma {:induction false} PlanSameLength(p: string, x: string, q: string, y: string)
    requires p + PLANS + x == q + PLANS + y && |x| == |y|
    ensures p == q && x == y
  {
    var s := p + PLANS + x;
    assert s == q + PLANS + y;
    assert p == s[..|p|] && q == s[..|q|];
    assert x == s[|p| + |PLANS|..] && y == s[|q| + |PLANS|..];
  }

  lemma {:induction false} SameLink(k: Link, l: Link)
    requires !k.Plans? && !l.Plans? && Middle(k) == Middle(l)
    requires k.execution == l.execution && k.id == l.id
    ensures k == l
  {
    assert ACHIEVES[1] == 'a' && RUNS[1] == 'c' && PRODUCES[1] == 'p';
  }

  lemma {:induction false} PlanClash(k: Link, l: Link)
    requires k.Plans? && l.Plans? && k != l
    requires k.id + PLANS + k.execution == l.id + PLANS + l.execution
    ensures Confusable(k.execution, l.execution)
  {
    var x, y := k.execution, l.execution;
    if |x| < |y| {
      PlanEnds(k.id, x, l.id, y);
    } else if |y| < |x| {
      PlanEnds(l.id, y, k.id, x);
    } else {
      PlanSameLength(k.id, x, l.id, y);
    }
  }

  lemma {:induction false} SourceClash(k: Link, l: Link)
    requires !k.Plans? && !l.Plans? && k != l
    requires k.execution + Middle(k) + k.id == l.execution + Middle(l) + l.id
    ensures Confusable(k.execution, l.execution)
  {
    var x, y := k.execution, l.execution;
    if |x| < |y| {
      ShorterBegins(x, Middle(k), k.id, y, Middle(l), l.id);
    } else if |y| < |x| {
      ShorterBegins(y, Middle(l), l.id, x, Middle(k), k.id);
    } else {
      SameLength(x, Middle(k), k.id, y, Middle(l), l.id);
      SameLink(k, l);
    }
  }

  lemma {:induction false} SameStart(a: string, s: string, b: string, t: string)
    requires a + s == b + t && |a| == |b|
    ensures a == b && s == t
  {
    assert a == (a + s)[..|a|] && b == (b + t)[..|b|];
    assert s == (a + s)[|a|..] && t == (b + t)[|b|..];
  }

  lemma {:induction false} ClashConfuses(k: Link, l: Link)
    requires Clash(k, l)
    ensures Confusable(k.execution, l.execution)
  {
    LinkSpelling(k);
    LinkSpelling(l);
    SameStart(if k.Plans? then "edge-plan-" else "edge-exec-",
              if k.Plans? then k.id + PLANS + k.execution else k.execution + Middle(k) + k.id,
              if l.Plans? then "edge-plan-" else "edge-exec-",
              if l.Plans? then l.id + PLANS + l.execution else l.execution + Middle(l) + l.id);
    assert "edge-plan-"[5] != "edge-exec-"[5];
    if k.Plans? {
      PlanClash(k, l);
    } else {
      SourceClash(k, l);
    }
  }

  function LinkOf(x: string, m: string, id: string): Link
    requires IsMiddle(m)
  {
    if m == ACHIEVES then Achieves(x, id) else if m == RUNS then Runs(x, id) else Produces(x, id)
  }

  lemma {:induction false} BeginsClash(x: string, y: string, m: string) returns (k: Link, l: Link)
    requires IsMiddle(m) && x + m <= y + "-"
    ensures k.execution == x && l.execution == y && Clash(k, l)
  {
    var rest := (y + "-")[|x + m|..];
    k, l := LinkOf(x, m, rest + "achieves-goal-"), Achieves(y, "");
    LinkSpelling(k);
    LinkSpelling(l);
    MiddleOf(x, m, k.id);
    assert ACHIEVES == "-" + "achieves-goal-";
    Regroup(x + m, rest, y, "-", "achieves-goal-");
    assert y + ACHIEVES + "" == y + ACHIEVES;
    assert |x| < |y|;
  }

  lemma {:induction false} MiddleOf(x: string, m: string, id: string)
    requires IsMiddle(m)
    ensures var l := LinkOf(x, m, id); !l.Plans? && l.execution == x && l.id == id && Middle(l) == m
  {
  }

  lemma {:induction false} Regroup(a: string, b: string, c: string, d: string, e: string)
    requires c + d == a + b
    ensures a + (b + e) == c + (d + e)
  {
    assert a + (b + e) == (a + b) + e;
    assert c + (d + e) == (c + d) + e;
  }

  lemma {:induction false} EndsClash(x: string, y: string) returns (k: Link, l: Link)
    requires Ends(x, y)
    ensures k.execution == x && l.execution == y && Clash(k, l)
  {
    var rest := ("-" + y)[..|y| + 1 - |PLANS + x|];
    assert "-" + y == rest + (PLANS + x);
    k, l := Plans(x, "-contains-exec" + rest), Plans(y, "");
    LinkSpelling(k);
    LinkSpelling(l);
    assert PLANS == "-contains-exec" + "-";
    Regrouped("-contains-exec", rest, PLANS, x, y);
    assert "" + PLANS + y == PLANS + y;
    assert |x| < |y|;
  }

  lemma {:induction false} Regrouped(a: string, rest: string, m: string, x: string, y: string)
    requires "-" + y == rest + (m + x)
    ensures a + rest + m + x == a + "-" + y
  {
    assert a + rest + m + x == a + (rest + (m + x));
    assert a + "-" + y == a + ("-" + y);
  }

  lemma {:induction false} ConfusableClash(x: string, y: string) returns (k: Link, l: Link)
    requires Confusable(x, y)
    ensures k.execution == x && l.execution == y && Clash(k, l)
  {
    if Begins(x, y) {
      k, l := BeginsClash(x, y, if x + ACHIEVES <= y + "-" then ACHIEVES
                                else if x + RUNS <= y + "-" then RUNS else PRODUCES);
    } else if Begins(y, x) {
      l, k := BeginsClash(y, x, if y + ACHIEVES <= x + "-" then ACHIEVES
                                else if y + RUNS <= x + "-" then RUNS else PRODUCES);
    } else if Ends(x, y) {
      k, l := EndsClash(x, y);
    } else {
      l, k := EndsClash(y, x);
    }
  }

  // Two executions have different edges with one id if and only if their ids are confusable.
  lemma {:induction false} ClashIff(x: string, y: string)
    ensures (exists k: Link, l: Link :: k.execution == x && l.execution == y && Clash(k, l)) <==> Confusable(x, y)
  {
    if Confusable(x, y) {
      var k, l := ConfusableClash(x, y);
    } else if k: Link, l: Link :| k.execution == x && l.execution == y && Clash(k, l) {
      ClashConfuses(k, l);
    }
  }

  lemma {:induction false} BeginsFacts(x: string, y: string)
    requires Begins(x, y)
    ensures |x| < |y| && '-' in y
  {
    assert |ACHIEVES| == 15 && |RUNS| == 15 && |PRODUCES| == 21;
    assert y[|x|] == (y + "-")[|x|] == '-';
  }

  lemma {:induction false} EndsFacts(x: string, y: string)
    requires Ends(x, y)
    ensures |x| < |y| && '-' in y
  {
    var n := |y| + 1 - |PLANS + x|;
    assert |PLANS| == 15;
    assert y[n + 13] == ("-" + y)[n + 14] == ("-" + y)[n..][14] == '-';
  }

  // Ids without dashes are never confusable, and neither are ids of one length, such as UUIDs.
  lemma {:induction false} NotConfusable(x: string, y: string)
    requires ('-' !in x && '-' !in y) || |x| == |y|
    ensures !Confusable(x, y)
  {
    if Begins(x, y) {
      BeginsFacts(x, y);
    } else if Begins(y, x) {
      BeginsFacts(y, x);
    } else if Ends(x, y) {
      EndsFacts(x, y);
    } else if Ends(y, x) {
      EndsFacts(y, x);
    }
  }
}
