// Accumulating a chat stream: content, and tool calls assembled from deltas by index.
module ChatStreaming {
  import opened Basics

  datatype ToolCallDelta = ToolCallDelta(
    index: int, id: Option<string>, name: Option<string>, arguments: Option<string>)

  datatype TokenUsage = TokenUsage(promptTokens: nat, completionTokens: nat, totalTokens: nat)

  datatype Chunk = Chunk(
    id: string,
    providerId: string,
    model: string,
    role: Option<string>,
    content: Option<string>,
    toolCalls: seq<ToolCallDelta>,
    finishReason: Option<string>,
    usage: Option<TokenUsage>)

  // What has been collected for one tool call.
  datatype Call = Call(id: Option<string>, name: Option<string>, arguments: string)

  datatype Collected = Collected(content: string, calls: map<int, Call>)

  const NO_CALL := Call(None, None, "")

  function Later<T>(a: Option<T>, b: Option<T>): Option<T> {
    if b.Some? then b else a
  }

  function Text(o: Option<string>): string {
    if o.Some? then o.value else ""
  }

  // ---- Two partial collections put together ----------------------------------------------

  function CallOf(calls: map<int, Call>, i: int): Call {
    if i in calls then calls[i] else NO_CALL
  }

  function MergeCall(a: Call, b: Call): Call {
    Call(Later(a.id, b.id), Later(a.name, b.name), a.arguments + b.arguments)
  }

  function Merge(a: Collected, b: Collected): Collected {
    Collected(
      a.content + b.content,
      map i | i in a.calls.Keys + b.calls.Keys :: MergeCall(CallOf(a.calls, i), CallOf(b.calls, i)))
  }

  const NOTHING := Collected("", map[])

  function OfDelta(d: ToolCallDelta): Collected {
    Collected("", map[d.index := Call(d.id, d.name, Text(d.arguments))])
  }

  function OfDeltas(ds: seq<ToolCallDelta>): Collected {
    if ds == [] then NOTHING
    else Merge(OfDeltas(ds[..|ds| - 1]), OfDelta(ds[|ds| - 1]))
  }

  function OfChunk(c: Chunk): Collected {
    Merge(Collected(Text(c.content), map[]), OfDeltas(c.toolCalls))
  }

  function OfChunks(cs: seq<Chunk>): Collected {
    if cs == [] then NOTHING
    else Merge(OfChunks(cs[..|cs| - 1]), OfChunk(cs[|cs| - 1]))
  }

  // Merging is pointwise, absent calls counting as empty ones.
  lemma {:induction false} MergeAt(a: Collected, b: Collected, i: int)
    ensures CallOf(Merge(a, b).calls, i) == MergeCall(CallOf(a.calls, i), CallOf(b.calls, i))
    ensures i in Merge(a, b).calls <==> i in a.calls || i in b.calls
  {
    EmptyCall(NO_CALL);
  }

  lemma {:induction false} SameCalls(a: map<int, Call>, b: map<int, Call>)
    requires forall i :: (i in a <==> i in b) && CallOf(a, i) == CallOf(b, i)
    ensures a == b
  {
    forall i
      ensures i in a <==> i in b
      ensures i in a ==> i in b && a[i] == b[i]
    {
      assert CallOf(a, i) == CallOf(b, i);
    }
    assert a == b;
  }

  lemma {:induction false} MergeCallAssociative(a: Call, b: Call, c: Call)
    ensures MergeCall(MergeCall(a, b), c) == MergeCall(a, MergeCall(b, c))
  {
    assert (a.arguments + b.arguments) + c.arguments == a.arguments + (b.arguments + c.arguments);
  }

  lemma {:induction false} MergeAssociativeAt(a: Collected, b: Collected, c: Collected, i: int)
    ensures i in Merge(Merge(a, b), c).calls <==> i in Merge(a, Merge(b, c)).calls
    ensures CallOf(Merge(Merge(a, b), c).calls, i) == CallOf(Merge(a, Merge(b, c)).calls, i)
  {
    MergeAt(a, b, i);
    MergeAt(Merge(a, b), c, i);
    MergeAt(b, c, i);
    MergeAt(a, Merge(b, c), i);
    MergeCallAssociative(CallOf(a.calls, i), CallOf(b.calls, i), CallOf(c.calls, i));
  }

  lemma {:induction false} MergeAssociative(a: Collected, b: Collected, c: Collected)
    ensures Merge(Merge(a, b), c) == Merge(a, Merge(b, c))
  {
    var left, right := Merge(Merge(a, b), c), Merge(a, Merge(b, c));
    assert left.content == right.content;
    forall i
      ensures (i in left.calls <==> i in right.calls) && CallOf(left.calls, i) == CallOf(right.calls, i)
    {
      MergeAssociativeAt(a, b, c, i);
    }
    SameCalls(left.calls, right.calls);
  }

  lemma {:induction false} EmptyCall(c: Call)
    ensures MergeCall(c, NO_CALL) == c && MergeCall(NO_CALL, c) == c
  {
    assert c.arguments + "" == c.arguments && "" + c.arguments == c.arguments;
  }

  lemma {:induction false} MergeNothing(a: Collected)
    ensures Merge(a, NOTHING) == a && Merge(NOTHING, a) == a
  {
    assert a.content + "" == a.content && "" + a.content == a.content;
    forall i
      ensures MergeCall(CallOf(a.calls, i), NO_CALL) == CallOf(a.calls, i)
      ensures MergeCall(NO_CALL, CallOf(a.calls, i)) == CallOf(a.calls, i)
    {
      EmptyCall(CallOf(a.calls, i));
    }
    assert Merge(a, NOTHING).calls == a.calls;
    assert Merge(NOTHING, a).calls == a.calls;
  }

  // Collecting a stream in two parts and merging gives what collecting it whole gives.
  lemma {:induction false} CollectConcat(xs: seq<Chunk>, ys: seq<Chunk>)
    ensures OfChunks(xs + ys) == Merge(OfChunks(xs), OfChunks(ys))
    decreases ys
  {
    if ys == [] {
      assert xs + ys == xs;
      MergeNothing(OfChunks(xs));
    } else {
      var n := |ys| - 1;
      assert (xs + ys)[..|xs + ys| - 1] == xs + ys[..n];
      CollectConcat(xs, ys[..n]);
      MergeAssociative(OfChunks(xs), OfChunks(ys[..n]), OfChunk(ys[n]));
    }
  }

  // ---- What the collection is --------------------------------------------------------------

  // All content fragments and all deltas, in order of arrival.
  function ContentOf(cs: seq<Chunk>): string {
    if cs == [] then "" else ContentOf(cs[..|cs| - 1]) + Text(cs[|cs| - 1].content)
  }

  function DeltasOf(cs: seq<Chunk>): seq<ToolCallDelta> {
    if cs == [] then [] else DeltasOf(cs[..|cs| - 1]) + cs[|cs| - 1].toolCalls
  }

  // The deltas of one call.
  function Only(ds: seq<ToolCallDelta>, i: int): seq<ToolCallDelta> {
    if ds == [] then []
    else
      var n := |ds| - 1;
      Only(ds[..n], i) + if ds[n].index == i then [ds[n]] else []
  }

  // One call from its own deltas: the last id and name given, the arguments joined.
  function Assemble(ds: seq<ToolCallDelta>): Call {
    if ds == [] then NO_CALL
    else
      var n := |ds| - 1;
      MergeCall(Assemble(ds[..n]), Call(ds[n].id, ds[n].name, Text(ds[n].arguments)))
  }

  // ---- A call read off the deltas directly -------------------------------------------------

  // The last id, the last name and all the arguments given for one index.
  function LastId(ds: seq<ToolCallDelta>, i: int): Option<string> {
    if ds == [] then None
    else
      var d := ds[|ds| - 1];
      if d.index == i && d.id.Some? then d.id else LastId(ds[..|ds| - 1], i)
  }

  function LastName(ds: seq<ToolCallDelta>, i: int): Option<string> {
    if ds == [] then None
    else
      var d := ds[|ds| - 1];
      if d.index == i && d.name.Some? then d.name else LastName(ds[..|ds| - 1], i)
  }

  function ArgumentsOf(ds: seq<ToolCallDelta>, i: int): string {
    if ds == [] then ""
    else
      var d := ds[|ds| - 1];
      ArgumentsOf(ds[..|ds| - 1], i) + if d.index == i && d.arguments.Some? then d.arguments.value else ""
  }

  // What is assembled for an index is the last id given for it, the last name, and the arguments in order.
  lemma {:induction false} AssembleIs(ds: seq<ToolCallDelta>, i: int)
    ensures Assemble(Only(ds, i)) == Call(LastId(ds, i), LastName(ds, i), ArgumentsOf(ds, i))
    ensures Only(ds, i) != [] <==> exists d :: d in ds && d.index == i
  {
    if ds != [] {
      var n := |ds| - 1;
      AssembleIs(ds[..n], i);
      assert ds == ds[..n] + [ds[n]];
      if ds[n].index == i {
        assert (Only(ds[..n], i) + [ds[n]])[..|Only(ds[..n], i)|] == Only(ds[..n], i);
      } else {
        assert Only(ds, i) == Only(ds[..n], i);
        assert ArgumentsOf(ds[..n], i) + "" == ArgumentsOf(ds[..n], i);
      }
    }
  }

  lemma {:induction false} DeltasCollect(ds: seq<ToolCallDelta>)
    ensures OfDeltas(ds).content == ""
    ensures forall i :: i in OfDeltas(ds).calls <==> Only(ds, i) != []
    ensures forall i :: CallOf(OfDeltas(ds).calls, i) == Assemble(Only(ds, i))
  {
    if ds != [] {
      var n := |ds| - 1;
      DeltasCollect(ds[..n]);
      forall i
        ensures CallOf(OfDeltas(ds).calls, i) == Assemble(Only(ds, i))
        ensures i in OfDeltas(ds).calls <==> Only(ds, i) != []
      {
        var before := Only(ds[..n], i);
        EmptyCall(CallOf(OfDeltas(ds[..n]).calls, i));
        if ds[n].index == i {
          assert (before + [ds[n]])[..|before|] == before;
        } else {
          assert Only(ds, i) == before;
        }
      }
    }
  }

  lemma {:induction false} DeltasConcat(ds: seq<ToolCallDelta>, es: seq<ToolCallDelta>)
    ensures OfDeltas(ds + es) == Merge(OfDeltas(ds), OfDeltas(es))
    decreases es
  {
    if es == [] {
      assert ds + es == ds;
      MergeNothing(OfDeltas(ds));
    } else {
      var n := |es| - 1;
      assert (ds + es)[..|ds + es| - 1] == ds + es[..n];
      DeltasConcat(ds, es[..n]);
      MergeAssociative(OfDeltas(ds), OfDeltas(es[..n]), OfDelta(es[n]));
    }
  }

  lemma {:induction false} CollectFlattens(cs: seq<Chunk>)
    ensures OfChunks(cs) == Merge(Collected(ContentOf(cs), map[]), OfDeltas(DeltasOf(cs)))
  {
    if cs == [] {
      MergeNothing(NOTHING);
    } else {
      var n := |cs| - 1;
      CollectFlattens(cs[..n]);
      DeltasConcat(DeltasOf(cs[..n]), cs[n].toolCalls);
      DeltasCollect(DeltasOf(cs[..n]));
      DeltasCollect(cs[n].toolCalls);
      TextThenCalls(ContentOf(cs[..n]), OfDeltas(DeltasOf(cs[..n])), Text(cs[n].content), OfDeltas(cs[n].toolCalls));
    }
  }

  // Content and calls do not interfere.
  lemma {:induction false} TextThenCalls(s: string, a: Collected, t: string, b: Collected)
    requires a.content == "" && b.content == ""
    ensures Merge(Merge(Collected(s, map[]), a), Merge(Collected(t, map[]), b))
         == Merge(Collected(s + t, map[]), Merge(a, b))
  {
    var left := Merge(Merge(Collected(s, map[]), a), Merge(Collected(t, map[]), b));
    var right := Merge(Collected(s + t, map[]), Merge(a, b));
    assert s + "" == s && t + "" == t && (s + t) + "" == s + t && "" + "" == "";
    assert left.calls.Keys == right.calls.Keys;
    forall i | i in left.calls
      ensures left.calls[i] == right.calls[i]
    {
      EmptyCall(CallOf(a.calls, i));
      EmptyCall(CallOf(b.calls, i));
      EmptyCall(MergeCall(CallOf(a.calls, i), CallOf(b.calls, i)));
    }
  }

  // The result is determined by the content and, per index, by that index's own deltas in order: neither
  // how the stream is cut into chunks nor how the indices interleave can be seen in it.
  lemma {:induction false} CollectTheorem(cs: seq<Chunk>)
    ensures OfChunks(cs).content == ContentOf(cs)
    ensures forall i :: i in OfChunks(cs).calls <==> Only(DeltasOf(cs), i) != []
    ensures forall i :: CallOf(OfChunks(cs).calls, i) == Assemble(Only(DeltasOf(cs), i))
  {
    CollectFlattens(cs);
    DeltasCollect(DeltasOf(cs));
    assert ContentOf(cs) + "" == ContentOf(cs);
    forall i
      ensures MergeCall(NO_CALL, CallOf(OfDeltas(DeltasOf(cs)).calls, i)) == CallOf(OfDeltas(DeltasOf(cs)).calls, i)
    {
      EmptyCall(CallOf(OfDeltas(DeltasOf(cs)).calls, i));
    }
  }

  // Streams with the same text whose indices have the same deltas in the same order, however those interleave.
  lemma {:induction false} InterleavingInvisible(xs: seq<Chunk>, ys: seq<Chunk>)
    requires ContentOf(xs) == ContentOf(ys)
    requires forall i :: Only(DeltasOf(xs), i) == Only(DeltasOf(ys), i)
    ensures OfChunks(xs) == OfChunks(ys)
  {
    CollectTheorem(xs);
    CollectTheorem(ys);
    SameCalls(OfChunks(xs).calls, OfChunks(ys).calls);
  }

  // ---- Cutting a stream differently -----------------------------------------------------------

  // One change to how a stream is cut: a chunk sent as two, one call's arguments sent in two deltas, or two
  // neighbouring deltas of different calls sent the other way round.
  datatype Edit =
    | SplitChunk(pre: seq<Chunk>, whole: Chunk, first: Chunk, second: Chunk, post: seq<Chunk>)
    | SplitArguments(
        pre: seq<Chunk>, chunk: Chunk, before: seq<ToolCallDelta>, delta: ToolCallDelta, left: string, right: string,
        after: seq<ToolCallDelta>, post: seq<Chunk>)
    | Swap(
        pre: seq<Chunk>, chunk: Chunk, before: seq<ToolCallDelta>, one: ToolCallDelta, other: ToolCallDelta,
        after: seq<ToolCallDelta>, post: seq<Chunk>)

  predicate Legal(e: Edit) {
    match e
    case SplitChunk(_, whole, first, second, _) =>
      && Text(whole.content) == Text(first.content) + Text(second.content)
      && whole.toolCalls == first.toolCalls + second.toolCalls
    case SplitArguments(_, _, _, delta, left, right, _, _) => delta.arguments == Some(left + right)
    case Swap(_, _, _, one, other, _, _) => one.index != other.index
  }

  function Halves(d: ToolCallDelta, left: string, right: string): seq<ToolCallDelta> {
    [d.(arguments := Some(left)), ToolCallDelta(d.index, None, None, Some(right))]
  }

  function Unedited(e: Edit): seq<Chunk> {
    match e
    case SplitChunk(pre, whole, _, _, post) => pre + [whole] + post
    case SplitArguments(pre, chunk, before, delta, _, _, after, post) =>
      pre + [chunk.(toolCalls := before + [delta] + after)] + post
    case Swap(pre, chunk, before, one, other, after, post) =>
      pre + [chunk.(toolCalls := before + [one, other] + after)] + post
  }

  function Edited(e: Edit): seq<Chunk> {
    match e
    case SplitChunk(pre, _, first, second, post) => pre + [first, second] + post
    case SplitArguments(pre, chunk, before, delta, left, right, after, post) =>
      pre + [chunk.(toolCalls := before + Halves(delta, left, right) + after)] + post
    case Swap(pre, chunk, before, one, other, after, post) =>
      pre + [chunk.(toolCalls := before + [other, one] + after)] + post
  }

  lemma {:induction false} SingleDelta(d: ToolCallDelta)
    ensures OfDeltas([d]) == OfDelta(d)
  {
    assert [d][..0] == [];
    MergeNothing(OfDelta(d));
  }

  lemma {:induction false} DeltaPair(d: ToolCallDelta, e: ToolCallDelta)
    ensures OfDeltas([d, e]) == Merge(OfDelta(d), OfDelta(e))
  {
    SingleDelta(d);
    assert [d, e][..1] == [d];
  }

  lemma {:induction false} HalvesKeep(d: ToolCallDelta, left: string, right: string)
    requires d.arguments == Some(left + right)
    ensures OfDeltas(Halves(d, left, right)) == OfDeltas([d])
  {
    var first, second := Halves(d, left, right)[0], Halves(d, left, right)[1];
    DeltaPair(first, second);
    SingleDelta(d);
    assert Merge(OfDelta(first), OfDelta(second)).calls == OfDelta(d).calls;
  }

  lemma {:induction false} SwapKeeps(d: ToolCallDelta, e: ToolCallDelta)
    requires d.index != e.index
    ensures OfDeltas([d, e]) == OfDeltas([e, d])
  {
    DeltaPair(d, e);
    DeltaPair(e, d);
    var left, right := Merge(OfDelta(d), OfDelta(e)), Merge(OfDelta(e), OfDelta(d));
    forall i
      ensures (i in left.calls <==> i in right.calls) && CallOf(left.calls, i) == CallOf(right.calls, i)
    {
      MergeAt(OfDelta(d), OfDelta(e), i);
      MergeAt(OfDelta(e), OfDelta(d), i);
      EmptyCall(CallOf(OfDelta(d).calls, i));
      EmptyCall(CallOf(OfDelta(e).calls, i));
    }
    SameCalls(left.calls, right.calls);
  }

  // What stands between two parts of a delta list matters only for what it collects to.
  lemma {:induction false} DeltasAround(
    before: seq<ToolCallDelta>, a: seq<ToolCallDelta>, b: seq<ToolCallDelta>, after: seq<ToolCallDelta>)
    requires OfDeltas(a) == OfDeltas(b)
    ensures OfDeltas(before + a + after) == OfDeltas(before + b + after)
  {
    DeltasConcat(before + a, after);
    DeltasConcat(before + b, after);
    DeltasConcat(before, a);
    DeltasConcat(before, b);
  }

  lemma {:induction false} ChunksAround(pre: seq<Chunk>, a: seq<Chunk>, b: seq<Chunk>, post: seq<Chunk>)
    requires OfChunks(a) == OfChunks(b)
    ensures OfChunks(pre + a + post) == OfChunks(pre + b + post)
  {
    CollectConcat(pre + a, post);
    CollectConcat(pre + b, post);
    CollectConcat(pre, a);
    CollectConcat(pre, b);
  }

  lemma {:induction false} SingleChunk(c: Chunk)
    ensures OfChunks([c]) == OfChunk(c)
  {
    assert [c][..0] == [];
    MergeNothing(OfChunk(c));
  }

  lemma {:induction false} SplitChunkKeeps(whole: Chunk, first: Chunk, second: Chunk)
    requires Text(whole.content) == Text(first.content) + Text(second.content)
    requires whole.toolCalls == first.toolCalls + second.toolCalls
    ensures OfChunks([first, second]) == OfChunks([whole])
  {
    SingleChunk(whole);
    SingleChunk(first);
    assert [first, second][..1] == [first];
    DeltasConcat(first.toolCalls, second.toolCalls);
    DeltasCollect(first.toolCalls);
    DeltasCollect(second.toolCalls);
    TextThenCalls(Text(first.content), OfDeltas(first.toolCalls), Text(second.content), OfDeltas(second.toolCalls));
  }

  lemma {:induction false} EditKeeps(e: Edit)
    requires Legal(e)
    ensures OfChunks(Edited(e)) == OfChunks(Unedited(e))
  {
    match e {
      case SplitChunk(pre, whole, first, second, post) =>
        SplitChunkKeeps(whole, first, second);
        ChunksAround(pre, [first, second], [whole], post);
      case SplitArguments(pre, chunk, before, delta, left, right, after, post) =>
        HalvesKeep(delta, left, right);
        DeltasAround(before, Halves(delta, left, right), [delta], after);
        ChunkAround(pre, chunk, before + Halves(delta, left, right) + after, before + [delta] + after, post);
      case Swap(pre, chunk, before, one, other, after, post) =>
        SwapKeeps(other, one);
        DeltasAround(before, [other, one], [one, other], after);
        ChunkAround(pre, chunk, before + [other, one] + after, before + [one, other] + after, post);
    }
  }

  lemma {:induction false} ChunkAround(
    pre: seq<Chunk>, chunk: Chunk, ds: seq<ToolCallDelta>, es: seq<ToolCallDelta>, post: seq<Chunk>)
    requires OfDeltas(ds) == OfDeltas(es)
    ensures OfChunks(pre + [chunk.(toolCalls := ds)] + post) == OfChunks(pre + [chunk.(toolCalls := es)] + post)
  {
    SingleChunk(chunk.(toolCalls := ds));
    SingleChunk(chunk.(toolCalls := es));
    ChunksAround(pre, [chunk.(toolCalls := ds)], [chunk.(toolCalls := es)], post);
  }

  // An edit made, or undone.
  predicate Changes(e: Edit, xs: seq<Chunk>, ys: seq<Chunk>) {
    Legal(e) && ((xs == Unedited(e) && ys == Edited(e)) || (xs == Edited(e) && ys == Unedited(e)))
  }

  predicate Recuts(edits: seq<Edit>, streams: seq<seq<Chunk>>) {
    && |streams| == |edits| + 1
    && forall k :: 0 <= k < |edits| ==> Changes(edits[k], streams[k], streams[k + 1])
  }

  // However a stream is recut, by any number of such changes in either direction, it collects to the same.
  lemma {:induction false} CuttingInvisible(edits: seq<Edit>, streams: seq<seq<Chunk>>)
    requires Recuts(edits, streams)
    ensures OfChunks(streams[|edits|]) == OfChunks(streams[0])
    decreases |edits|
  {
    if edits != [] {
      var n := |edits| - 1;
      CuttingInvisible(edits[..n], streams[..n + 1]);
      assert Changes(edits[n], streams[n], streams[n + 1]);
      EditKeeps(edits[n]);
    }
  }

  // ---- The loops --------------------------------------------------------------------------------

  method CollectDeltas(chunks: seq<Chunk>) returns (content: string, calls: map<int, Call>)
    ensures Collected(content, calls) == OfChunks(chunks)
  {
    content, calls := "", map[];
    var n := 0;
    while n < |chunks|
      invariant n <= |chunks|
      invariant Collected(content, calls) == OfChunks(chunks[..n])
    {
      var chunk := chunks[n];
      ghost var before := Collected(content, calls);
      content := content + Text(chunk.content);
      var m := 0;
      ghost var texted := Merge(before, Collected(Text(chunk.content), map[]));
      OnlyText(before, Text(chunk.content));
      MergeNothing(texted);
      while m < |chunk.toolCalls|
        invariant m <= |chunk.toolCalls|
        invariant Collected(content, calls) == Merge(texted, OfDeltas(chunk.toolCalls[..m]))
      {
        var delta := chunk.toolCalls[m];
        ghost var soFar := Collected(content, calls);
        var existing := if delta.index in calls then calls[delta.index] else NO_CALL;
        if delta.id.Some? {
          existing := existing.(id := delta.id);
        }
        if delta.name.Some? {
          existing := existing.(name := delta.name);
        }
        if delta.arguments.Some? {
          existing := existing.(arguments := existing.arguments + delta.arguments.value);
        }
        calls := calls[delta.index := existing];
        NextDelta(texted, chunk.toolCalls, m, soFar, existing);
        m := m + 1;
      }
      NextChunk(chunks, n);
      n := n + 1;
    }
    assert chunks[..|chunks|] == chunks;
  }

  lemma {:induction false} OnlyText(a: Collected, s: string)
    ensures Merge(a, Collected(s, map[])) == Collected(a.content + s, a.calls)
  {
    forall i
      ensures MergeCall(CallOf(a.calls, i), NO_CALL) == CallOf(a.calls, i)
    {
      EmptyCall(CallOf(a.calls, i));
    }
    assert Merge(a, Collected(s, map[])).calls == a.calls;
  }

  lemma {:induction false} OneDelta(a: Collected, d: ToolCallDelta, call: Call)
    requires var e := CallOf(a.calls, d.index);
      && call.id == Later(e.id, d.id) && call.name == Later(e.name, d.name)
      && (call.arguments == e.arguments + Text(d.arguments) || (d.arguments.None? && call.arguments == e.arguments))
    ensures Collected(a.content, a.calls[d.index := call]) == Merge(a, OfDelta(d))
  {
    var e := CallOf(a.calls, d.index);
    assert e.arguments + "" == e.arguments && a.content + "" == a.content;
    forall i
      ensures MergeCall(CallOf(a.calls, i), NO_CALL) == CallOf(a.calls, i)
    {
      EmptyCall(CallOf(a.calls, i));
    }
    assert Merge(a, OfDelta(d)).calls == a.calls[d.index := call];
  }

  lemma {:induction false} NextDelta(texted: Collected, ds: seq<ToolCallDelta>, m: nat, soFar: Collected, call: Call)
    requires m < |ds| && soFar == Merge(texted, OfDeltas(ds[..m]))
    requires var e := CallOf(soFar.calls, ds[m].index);
      && call.id == Later(e.id, ds[m].id) && call.name == Later(e.name, ds[m].name)
      && (|| call.arguments == e.arguments + Text(ds[m].arguments)
          || (ds[m].arguments.None? && call.arguments == e.arguments))
    ensures Collected(soFar.content, soFar.calls[ds[m].index := call]) == Merge(texted, OfDeltas(ds[..m + 1]))
  {
    OneDelta(soFar, ds[m], call);
    assert ds[..m + 1][..m] == ds[..m];
    MergeAssociative(texted, OfDeltas(ds[..m]), OfDelta(ds[m]));
  }

  lemma {:induction false} NextChunk(chunks: seq<Chunk>, n: nat)
    requires n < |chunks|
    ensures var c := chunks[n];
      Merge(Merge(OfChunks(chunks[..n]), Collected(Text(c.content), map[])), OfDeltas(c.toolCalls[..|c.toolCalls|]))
      == OfChunks(chunks[..n + 1])
  {
    var c := chunks[n];
    assert c.toolCalls[..|c.toolCalls|] == c.toolCalls;
    MergeAssociative(OfChunks(chunks[..n]), Collected(Text(c.content), map[]), OfDeltas(c.toolCalls));
    assert chunks[..n + 1][..n] == chunks[..n];
  }

  // ---- The assembled response ----------------------------------------------------------------------

  datatype ToolCall = ToolCall(id: string, name: string, arguments: string)

  datatype Response = Response(
    id: string,
    providerId: string,
    model: string,
    role: string,
    content: string,
    toolCalls: seq<ToolCall>,
    finishReason: string,
    usage: TokenUsage)

  function OrElse<T>(o: Option<T>, fallback: T): (value: T)
    ensures o == Some(value) || (o == None && value == fallback)
  {
    if o.Some? then o.value else fallback
  }

  datatype StreamError = EmptyStream | IncompleteCall

  datatype Accumulated = Done(response: Response) | Refused(error: StreamError)

  // The keys of the collected calls, smallest first.
  method SortedKeys(calls: map<int, Call>) returns (keys: seq<int>)
    ensures forall i, j :: 0 <= i < j < |keys| ==> keys[i] < keys[j]
    ensures forall k :: k in keys <==> k in calls
  {
    keys := [];
    var left := calls.Keys;
    while left != {}
      invariant left <= calls.Keys
      invariant forall k :: k in keys <==> k in calls.Keys - left
      invariant forall i, j :: 0 <= i < j < |keys| ==> keys[i] < keys[j]
      invariant forall i, k :: 0 <= i < |keys| && k in left ==> keys[i] < k
      decreases left
    {
      var least := Least(left);
      keys := keys + [least];
      left := left - {least};
    }
  }

  lemma {:induction false} NonEmpty(s: set<int>)
    ensures s == {} || exists x :: x in s
  {
    if forall x :: x !in s {
      assert s == {};
    }
  }

  method Least(s: set<int>) returns (m: int)
    requires s != {}
    ensures m in s && forall x :: x in s ==> m <= x
  {
    var left := s;
    NonEmpty(left);
    m :| m in left;
    left := left - {m};
    while left != {}
      invariant m in s && left <= s
      invariant forall x :: x in s ==> x in left || m <= x
      decreases left
    {
      NonEmpty(left);
      var x :| x in left;
      if x < m {
        m := x;
      }
      left := left - {x};
    }
  }

  predicate Whole(c: Call) {
    Text(c.id) != "" && Text(c.name) != ""
  }

  // The calls of a stream, one for each index that occurred, in strictly increasing index order.
  ghost predicate InIndexOrder(toolCalls: seq<ToolCall>, keys: seq<int>, chunks: seq<Chunk>) {
    && |keys| == |toolCalls|
    && (forall i, j :: 0 <= i < j < |keys| ==> keys[i] < keys[j])
    && (forall k :: k in keys <==> Only(DeltasOf(chunks), k) != [])
    && (forall i :: 0 <= i < |keys| ==> IsCall(toolCalls[i], Assemble(Only(DeltasOf(chunks), keys[i]))))
  }

  // Some index never got an id or a name.
  ghost predicate Incomplete(chunks: seq<Chunk>) {
    exists i :: Only(DeltasOf(chunks), i) != [] && !Whole(Assemble(Only(DeltasOf(chunks), i)))
  }

  // One whole call for each collected index, in index order.
  ghost predicate Lists(toolCalls: seq<ToolCall>, keys: seq<int>, calls: map<int, Call>) {
    && |keys| == |toolCalls|
    && (forall i, j :: 0 <= i < j < |keys| ==> keys[i] < keys[j])
    && (forall k :: k in keys <==> k in calls)
    && (forall i :: 0 <= i < |keys| ==> keys[i] in calls && IsCall(toolCalls[i], calls[keys[i]]))
  }

  method AssembleCalls(calls: map<int, Call>) returns (ok: bool, toolCalls: seq<ToolCall>)
    ensures ok <==> forall i :: i in calls ==> Whole(calls[i])
    ensures ok ==> exists keys :: Lists(toolCalls, keys, calls)
  {
    var keys := SortedKeys(calls);
    toolCalls := [];
    var n := 0;
    while n < |keys|
      invariant n == |toolCalls| <= |keys|
      invariant forall i :: 0 <= i < n ==>
        keys[i] in calls && Whole(calls[keys[i]]) && IsCall(toolCalls[i], calls[keys[i]])
    {
      assert keys[n] in keys;
      var call := calls[keys[n]];
      if !Whole(call) {
        return false, [];
      }
      toolCalls := toolCalls + [ToolCall(Text(call.id), Text(call.name), call.arguments)];
      n := n + 1;
    }
    ok := true;
    assert Lists(toolCalls, keys, calls);
  }

  lemma {:induction false} CollectedCalls(chunks: seq<Chunk>, calls: map<int, Call>)
    requires forall i :: i in calls <==> Only(DeltasOf(chunks), i) != []
    requires forall i :: i in calls ==> calls[i] == Assemble(Only(DeltasOf(chunks), i))
    ensures Incomplete(chunks) <==> exists i :: i in calls && !Whole(calls[i])
    ensures forall toolCalls, keys :: Lists(toolCalls, keys, calls) ==> InIndexOrder(toolCalls, keys, chunks)
  {
    if Incomplete(chunks) {
      var i :| Only(DeltasOf(chunks), i) != [] && !Whole(Assemble(Only(DeltasOf(chunks), i)));
      assert i in calls;
    }
    forall toolCalls, keys | Lists(toolCalls, keys, calls)
      ensures InIndexOrder(toolCalls, keys, chunks)
    {
      assert forall k :: k in keys <==> Only(DeltasOf(chunks), k) != [];
    }
  }

  predicate NotGiven(text: Option<string>) {
    text == None || text == Some("")
  }

  // One call for each index that occurs, in increasing order, with its last id and name and all its arguments.
  ghost predicate ReadsOff(toolCalls: seq<ToolCall>, keys: seq<int>, ds: seq<ToolCallDelta>) {
    && |keys| == |toolCalls|
    && (forall i, j :: 0 <= i < j < |keys| ==> keys[i] < keys[j])
    && (forall k :: k in keys <==> exists d :: d in ds && d.index == k)
    && (forall i :: 0 <= i < |keys| ==>
          && LastId(ds, keys[i]) == Some(toolCalls[i].id) && LastName(ds, keys[i]) == Some(toolCalls[i].name)
          && ArgumentsOf(ds, keys[i]) == toolCalls[i].arguments)
  }

  lemma {:induction false} ReadOff(chunks: seq<Chunk>)
    ensures Incomplete(chunks) <==>
      exists d :: d in DeltasOf(chunks) && (NotGiven(LastId(DeltasOf(chunks), d.index))
                                            || NotGiven(LastName(DeltasOf(chunks), d.index)))
    ensures forall toolCalls, keys ::
      InIndexOrder(toolCalls, keys, chunks) ==> ReadsOff(toolCalls, keys, DeltasOf(chunks))
  {
    var ds := DeltasOf(chunks);
    forall i
      ensures Assemble(Only(ds, i)) == Call(LastId(ds, i), LastName(ds, i), ArgumentsOf(ds, i))
      ensures Only(ds, i) != [] <==> exists d :: d in ds && d.index == i
    {
      AssembleIs(ds, i);
    }
    IncompleteReadsOff(chunks);
  }

  lemma {:induction false} IncompleteReadsOff(chunks: seq<Chunk>)
    ensures var ds := DeltasOf(chunks);
      Incomplete(chunks) <==>
        exists d :: d in ds && (NotGiven(LastId(ds, d.index)) || NotGiven(LastName(ds, d.index)))
  {
    var ds := DeltasOf(chunks);
    if d :| d in ds && (NotGiven(LastId(ds, d.index)) || NotGiven(LastName(ds, d.index))) {
      AssembleIs(ds, d.index);
      assert Only(ds, d.index) != [] && !Whole(Assemble(Only(ds, d.index)));
    }
    if i :| Only(ds, i) != [] && !Whole(Assemble(Only(ds, i))) {
      AssembleIs(ds, i);
      var d :| d in ds && d.index == i;
      assert NotGiven(LastId(ds, d.index)) || NotGiven(LastName(ds, d.index));
    }
  }

  method Accumulate(chunks: seq<Chunk>) returns (r: Accumulated)
    ensures chunks == [] <==> r == Refused(EmptyStream)
    ensures chunks != [] ==> (r == Refused(IncompleteCall) <==> Incomplete(chunks))
    // The first chunk names the response, the last one ends it.
    ensures r.Done? ==>
      var first, last := chunks[0], chunks[|chunks| - 1];
      && r.response.id == first.id && r.response.providerId == first.providerId && r.response.model == first.model
      && r.response.role == OrElse(first.role, "assistant")
      && r.response.finishReason == OrElse(last.finishReason, "unknown")
      && r.response.usage == OrElse(last.usage, TokenUsage(0, 0, 0))
    ensures r.Done? ==> r.response.content == ContentOf(chunks)
    ensures r.Done? ==> exists keys :: InIndexOrder(r.response.toolCalls, keys, chunks)
    ensures r.Done? ==> exists keys :: ReadsOff(r.response.toolCalls, keys, DeltasOf(chunks))
    ensures chunks != [] ==>
      (r == Refused(IncompleteCall) <==>
        exists d :: d in DeltasOf(chunks) && (NotGiven(LastId(DeltasOf(chunks), d.index))
                                              || NotGiven(LastName(DeltasOf(chunks), d.index))))
  {
    ReadOff(chunks);
    if chunks == [] {
      return Refused(EmptyStream);
    }
    var content, calls := CollectDeltas(chunks);
    CollectTheorem(chunks);
    forall i | i in calls
      ensures calls[i] == Assemble(Only(DeltasOf(chunks), i))
    {
      assert CallOf(calls, i) == calls[i];
    }
    CollectedCalls(chunks, calls);
    var ok, toolCalls := AssembleCalls(calls);
    if !ok {
      return Refused(IncompleteCall);
    }
    var first, last := chunks[0], chunks[|chunks| - 1];
    r := Done(Response(
      first.id, first.providerId, first.model, OrElse(first.role, "assistant"), content, toolCalls,
      OrElse(last.finishReason, "unknown"), OrElse(last.usage, TokenUsage(0, 0, 0))));
  }

  predicate IsCall(t: ToolCall, c: Call) {
    c.id == Some(t.id) && c.name == Some(t.name) && t.arguments == c.arguments
  }
}
