// Overlapping chunks of memory records, and substring search over them.
module MemoryIndexer {
  import opened Basics

  // ---- Chunking as a function -----------------------------------------------------------

  function Min(a: int, b: int): int {
    if a <= b then a else b
  }

  // Where `slice` puts an end: a negative one counts from the end of the text.
  function Clamp(i: int, n: nat): (j: nat)
    ensures j <= n && (0 <= i <= n ==> j == i)
  {
    if i < 0 then (if n + i < 0 then 0 else n + i) else if i <= n then i else n
  }

  function Cut(s: string, a: int, b: int): (t: string)
    ensures 0 <= a <= b <= |s| ==> t == s[a..b]
  {
    if Clamp(a, |s|) <= Clamp(b, |s|) then s[Clamp(a, |s|)..Clamp(b, |s|)] else ""
  }

  function Window(content: string, size: int, start: int): string {
    Cut(content, start, Min(start + size, |content|))
  }

  // The window of `size` characters at each multiple of size - overlap, if these get on.
  function SlicesFrom(content: string, size: int, overlap: int, start: nat): seq<string>
    decreases |content| - start
  {
    if start >= |content| || overlap >= size then []
    else [Window(content, size, start)] + SlicesFrom(content, size, overlap, start + size - overlap)
  }

  function Slices(content: string, size: int, overlap: int): seq<string> {
    if |content| <= size then [content] else SlicesFrom(content, size, overlap, 0)
  }

  lemma {:induction false} NextSlice(
    content: string, size: int, overlap: int, start: nat, slices: seq<string>, index: nat)
    requires overlap < size && start < |content| && index <= |slices|
    requires SlicesFrom(content, size, overlap, start) == slices[index..]
    ensures index < |slices| && slices[index] == Window(content, size, start)
    ensures SlicesFrom(content, size, overlap, start + size - overlap) == slices[index + 1..]
  {
    assert slices[index..][0] == Window(content, size, start);
    assert slices[index..][1..] == slices[index + 1..];
  }

  // ---- Which settings make chunking end -----------------------------------------------------

  // The chunking loop for any settings: its slices from `start` on, or None if it still runs after `rounds` rounds.
  function ChunkLoop(content: string, size: int, overlap: int, start: int, rounds: nat): Option<seq<string>>
    decreases rounds
  {
    if start >= |content| then Some([])
    else if rounds == 0 then None
    else
      var rest := ChunkLoop(content, size, overlap, start + (size - overlap), rounds - 1);
      if rest.None? then None else Some([Window(content, size, start)] + rest.value)
  }

  // The texts whose chunking ends.
  predicate Chunkable(content: string, size: int, overlap: int) {
    content == "" || |content| <= size || overlap < size
  }

  function Chunking(content: string, size: int, overlap: int, rounds: nat): Option<seq<string>> {
    if |content| <= size then Some([content]) else ChunkLoop(content, size, overlap, 0, rounds)
  }

  // With a positive step the loop ends, with the windows in order.
  lemma {:induction false} LoopEnds(content: string, size: int, overlap: int, start: nat, rounds: nat)
    requires overlap < size && start + rounds >= |content|
    ensures ChunkLoop(content, size, overlap, start, rounds) == Some(SlicesFrom(content, size, overlap, start))
    decreases rounds
  {
    if start < |content| {
      var next: nat := start + (size - overlap);
      LoopEnds(content, size, overlap, next, rounds - 1);
    }
  }

  // Without one it never gets past where it began.
  lemma {:induction false} LoopStays(content: string, size: int, overlap: int, start: int, rounds: nat)
    requires overlap >= size && start < |content|
    ensures ChunkLoop(content, size, overlap, start, rounds) == None
    decreases rounds
  {
    if rounds > 0 {
      LoopStays(content, size, overlap, start + (size - overlap), rounds - 1);
    }
  }

  // Chunking a text ends if and only if the text is empty or fits into one chunk, or the overlap is smaller
  // than the chunk; and where it ends its result is the windows.
  lemma {:induction false} ChunkingEndsIff(content: string, size: int, overlap: int)
    ensures (exists rounds :: Chunking(content, size, overlap, rounds).Some?)
        <==> Chunkable(content, size, overlap)
    ensures Chunkable(content, size, overlap) ==>
      Chunking(content, size, overlap, |content|) == Some(Slices(content, size, overlap))
  {
    if overlap < size {
      LoopEnds(content, size, overlap, 0, |content|);
      assert Chunking(content, size, overlap, |content|).Some?;
    } else if Chunkable(content, size, overlap) {
      assert Chunking(content, size, overlap, |content|).Some?;
    } else {
      forall rounds
        ensures Chunking(content, size, overlap, rounds).None?
      {
        LoopStays(content, size, overlap, 0, rounds);
      }
    }
  }

  // ---- Windows -------------------------------------------------------------------------------

  // Where the k-th window after one at `start` begins.
  function At(start: nat, step: nat, k: nat): nat
    decreases k
  {
    if k == 0 then start else At(start + step, step, k - 1)
  }

  lemma {:induction false} AtIs(start: nat, step: nat, k: nat)
    ensures At(start, step, k) == start + k * step
    decreases k
  {
    if k > 0 {
      AtIs(start + step, step, k - 1);
      assert step + (k - 1) * step == k * step;
    }
  }

  lemma {:induction false} WindowAt(content: string, size: int, overlap: int, start: nat, k: nat)
    requires overlap < size && k < |SlicesFrom(content, size, overlap, start)|
    ensures At(start, size - overlap, k) < |content|
    ensures SlicesFrom(content, size, overlap, start)[k] == Window(content, size, At(start, size - overlap, k))
    decreases k
  {
    if k > 0 {
      WindowAt(content, size, overlap, start + size - overlap, k - 1);
    }
  }

  lemma {:induction false} SliceAt(content: string, size: int, overlap: int, start: nat, k: nat)
    requires 0 <= overlap < size && k < |SlicesFrom(content, size, overlap, start)|
    ensures var a := At(start, size - overlap, k);
      a < |content| && SlicesFrom(content, size, overlap, start)[k] == content[a..Min(a + size, |content|)]
  {
    WindowAt(content, size, overlap, start, k);
  }

  // Every window that starts inside the text is there.
  lemma {:induction false} SliceExists(content: string, size: int, overlap: int, start: nat, k: nat)
    requires 0 <= overlap < size && At(start, size - overlap, k) < |content|
    ensures k < |SlicesFrom(content, size, overlap, start)|
    decreases k
  {
    AtIs(start, size - overlap, k);
    assert k * (size - overlap) >= 0;
    if k > 0 {
      SliceExists(content, size, overlap, start + size - overlap, k - 1);
    }
  }

  // ---- Nothing is lost ------------------------------------------------------------------

  function Fresh(slice: string, overlap: nat): string {
    slice[Min(overlap, |slice|)..]
  }

  // The later chunks without what they repeat.
  function Continuation(slices: seq<string>, overlap: nat): string {
    if slices == [] then "" else Fresh(slices[0], overlap) + Continuation(slices[1..], overlap)
  }

  lemma {:induction false} FreshPart(content: string, size: int, overlap: int, start: nat)
    requires 0 <= overlap < size && start < |content|
    ensures Fresh(Window(content, size, start), overlap)
         == content[Min(start + overlap, |content|)..Min(start + size, |content|)]
  {
    var end := Min(start + size, |content|);
    assert Window(content, size, start) == content[start..end];
    if start + overlap <= |content| {
      assert content[start..end][overlap..] == content[start + overlap..end];
    }
  }

  lemma {:induction false} ContinuationIs(content: string, size: int, overlap: int, start: nat)
    requires 0 <= overlap < size
    ensures Continuation(SlicesFrom(content, size, overlap, start), overlap)
         == content[Min(start + overlap, |content|)..]
    decreases |content| - start
  {
    if start < |content| {
      var slices, next := SlicesFrom(content, size, overlap, start), start + size - overlap;
      ContinuationIs(content, size, overlap, next);
      assert slices[1..] == SlicesFrom(content, size, overlap, next);
      FreshPart(content, size, overlap, start);
      assert Continuation(slices, overlap) == Fresh(slices[0], overlap) + Continuation(slices[1..], overlap);
    }
  }

  // The text is the first chunk followed by each later chunk minus what it repeats.
  lemma {:induction false} ChunksRebuildContent(content: string, size: int, overlap: int)
    requires 0 <= overlap < size
    ensures var slices := Slices(content, size, overlap);
      slices != [] && slices[0] + Continuation(slices[1..], overlap) == content
  {
    var slices := Slices(content, size, overlap);
    if |content| > size {
      ContinuationIs(content, size, overlap, size - overlap);
      assert slices[1..] == SlicesFrom(content, size, overlap, size - overlap);
      assert slices[0] == content[..size];
    } else {
      assert slices[1..] == [];
    }
  }

  // ---- Search -------------------------------------------------------------------------------

  // Lower-casing one character at a time.
  type Lowering = char -> char

  predicate OccursAt(s: string, text: string, i: nat) {
    i + |text| <= |s| && s[i..i + |text|] == text
  }

  predicate Includes(s: string, text: string) {
    exists i :: 0 <= i <= |s| && OccursAt(s, text, i)
  }

  predicate Matches(s: string, text: string, lower: Lowering) {
    Includes(Map(s, lower), Map(text, lower))
  }

  ghost predicate Found(content: string, size: int, overlap: int, text: string, lower: Lowering) {
    exists k :: 0 <= k < |Slices(content, size, overlap)| && Matches(Slices(content, size, overlap)[k], text, lower)
  }

  lemma {:induction false} SubSlice(s: string, a: nat, b: nat, x: nat, y: nat)
    requires a <= b <= |s| && x <= y <= b - a
    ensures s[a..b][x..y] == s[a + x..a + y]
  {
    assert forall k :: 0 <= k < y - x ==> s[a..b][x..y][k] == s[a + x..a + y][k];
  }

  lemma {:induction false} WindowMatches(content: string, a: nat, b: nat, text: string, lower: Lowering, i: nat)
    requires a <= b <= |content|
    requires a <= i && i + |text| <= b
    requires OccursAt(Map(content, lower), Map(text, lower), i)
    ensures Matches(content[a..b], text, lower)
  {
    var w, t, all := Map(content[a..b], lower), Map(text, lower), Map(content, lower);
    assert w == all[a..b];
    SubSlice(all, a, b, i - a, i - a + |t|);
    assert OccursAt(w, t, i - a);
  }

  lemma {:induction false} MatchInWindow(content: string, a: nat, b: nat, text: string, lower: Lowering)
    requires a <= b <= |content| && Matches(content[a..b], text, lower)
    ensures Matches(content, text, lower)
  {
    var w, t, all := Map(content[a..b], lower), Map(text, lower), Map(content, lower);
    var i :| 0 <= i <= |w| && OccursAt(w, t, i);
    assert w == all[a..b];
    SubSlice(all, a, b, i, i + |t|);
    assert OccursAt(all, t, a + i);
  }

  // The k-th chunk of a text longer than one chunk.
  lemma {:induction false} SliceWindow(content: string, size: int, overlap: int, k: nat)
    requires 0 <= overlap < size < |content| && k < |Slices(content, size, overlap)|
    ensures var a := At(0, size - overlap, k);
      a < |content| && Slices(content, size, overlap)[k] == content[a..Min(a + size, |content|)]
  {
    SliceAt(content, size, overlap, 0, k);
  }

  lemma {:induction false} FoundMatches(content: string, size: int, overlap: int, text: string, lower: Lowering)
    requires 0 <= overlap < size || |content| <= size
    requires Found(content, size, overlap, text, lower)
    ensures Matches(content, text, lower)
  {
    var k :| 0 <= k < |Slices(content, size, overlap)| && Matches(Slices(content, size, overlap)[k], text, lower);
    if |content| > size {
      SliceWindow(content, size, overlap, k);
      var a := At(0, size - overlap, k);
      MatchInWindow(content, a, Min(a + size, |content|), text, lower);
    }
  }

  lemma {:induction false} MatchesFound(content: string, size: int, overlap: int, text: string, lower: Lowering)
    requires (0 <= overlap < size && |text| <= overlap + 1) || |content| <= size
    requires Matches(content, text, lower)
    ensures Found(content, size, overlap, text, lower)
  {
    if |content| <= size {
      assert Slices(content, size, overlap)[0] == content;
    } else {
      var all, t := Map(content, lower), Map(text, lower);
      var i :| 0 <= i <= |all| && OccursAt(all, t, i);
      var p: nat := if text == "" then 0 else i;
      assert OccursAt(all, t, p);
      var k := WindowOf(content, size, overlap, |text|, p);
      var a := At(0, size - overlap, k);
      SliceWindow(content, size, overlap, k);
      WindowMatches(content, a, Min(a + size, |content|), text, lower, p);
    }
  }

  // The window that covers a short stretch at p.
  lemma {:induction false} WindowOf(content: string, size: int, overlap: int, length: nat, p: nat) returns (k: nat)
    requires 0 <= overlap < size < |content| && length <= overlap + 1 && p + length <= |content| && p < |content|
    ensures k < |Slices(content, size, overlap)|
    ensures var a := At(0, size - overlap, k); a <= p && p + length <= Min(a + size, |content|)
  {
    k := StepBelow(size - overlap, p);
    AtIs(0, size - overlap, k);
    SliceExists(content, size, overlap, 0, k);
  }

  lemma {:induction false} StepBelow(step: nat, p: nat) returns (k: nat)
    requires step > 0
    ensures k * step <= p < k * step + step
  {
    k := p / step;
  }

  // A text no longer than the overlap plus one character, or any text in a record of one chunk, is found in some
  // chunk exactly when the record contains it.
  lemma {:induction false} SearchFindsShortTexts(
    content: string, size: int, overlap: int, text: string, lower: Lowering)
    requires (0 <= overlap < size && |text| <= overlap + 1) || |content| <= size
    ensures Found(content, size, overlap, text, lower) <==> Matches(content, text, lower)
  {
    if Found(content, size, overlap, text, lower) {
      FoundMatches(content, size, overlap, text, lower);
    }
    if Matches(content, text, lower) {
      MatchesFound(content, size, overlap, text, lower);
    }
  }

  // ---- The bound is sharp ----------------------------------------------------------------------

  function Repeat(c: char, n: nat): (s: string)
    ensures |s| == n && forall i :: 0 <= i < n ==> s[i] == c
  {
    seq(n, _ => c)
  }

  // A text of m characters, and a record that holds it across the end of its first window.
  function Straddling(m: nat): (s: string)
    requires m >= 2
    ensures |s| == m && forall i :: 0 <= i < m ==> (s[i] == 'y' <==> i == 0 || i == m - 1)
  {
    "y" + Repeat('x', m - 2) + "y"
  }

  function Around(p: nat, m: nat): (s: string)
    requires m >= 2
    ensures |s| == p + m && s[p..] == Straddling(m)
    ensures forall i :: 0 <= i < |s| ==> (s[i] == 'y' <==> i == p || i == p + m - 1)
  {
    var s := Repeat('x', p) + Straddling(m);
    assert forall i :: p <= i < |s| ==> s[i] == Straddling(m)[i - p];
    s
  }

  const AS_IS: Lowering := c => c

  lemma {:induction false} AsIs(s: string)
    ensures Map(s, AS_IS) == s
  {
  }

  // Only a window that covers the whole occurrence matches.
  lemma {:induction false} WindowCovers(p: nat, m: nat, a: nat, b: nat)
    requires m >= 2 && a <= b <= p + m
    requires Matches(Around(p, m)[a..b], Straddling(m), AS_IS)
    ensures a <= p && b == p + m
  {
    var w, text := Around(p, m)[a..b], Straddling(m);
    AsIs(w);
    AsIs(text);
    var i :| 0 <= i <= |w| && OccursAt(w, text, i);
    assert w[i..i + |text|] == text && |text| == m;
    assert w[i] == w[i..i + |text|][0] && w[i + m - 1] == w[i..i + |text|][m - 1];
    assert w[i] == Around(p, m)[a + i] && w[i + m - 1] == Around(p, m)[a + i + m - 1];
  }

  lemma {:induction false} AroundMatches(p: nat, m: nat)
    requires m >= 2
    ensures Matches(Around(p, m), Straddling(m), AS_IS)
  {
    AsIs(Around(p, m));
    AsIs(Straddling(m));
    assert Around(p, m)[p..p + m] == Straddling(m);
    assert OccursAt(Around(p, m), Straddling(m), p);
  }

  lemma {:induction false} LaterWindow(step: nat, k: nat)
    ensures At(0, step, k) >= if k == 0 then 0 else step
  {
    AtIs(0, step, k);
    if k > 0 {
      assert k * step == step + (k - 1) * step;
      assert (k - 1) * step >= 0;
    }
  }

  lemma {:induction false} WindowMisses(size: int, overlap: int, m: nat, k: nat)
    requires 0 <= overlap < size && m >= overlap + 2
    requires k < |Slices(Around(size - overlap - 1, m), size, overlap)|
    ensures !Matches(Slices(Around(size - overlap - 1, m), size, overlap)[k], Straddling(m), AS_IS)
  {
    var p := size - overlap - 1;
    SliceWindow(Around(p, m), size, overlap, k);
    var a := At(0, size - overlap, k);
    LaterWindow(size - overlap, k);
    if Matches(Around(p, m)[a..Min(a + size, p + m)], Straddling(m), AS_IS) {
      WindowCovers(p, m, a, Min(a + size, p + m));
    }
  }

  lemma {:induction false} LongTextMissed(size: int, overlap: int, m: nat)
    requires 0 <= overlap < size && m >= overlap + 2
    ensures var content := Around(size - overlap - 1, m);
      Matches(content, Straddling(m), AS_IS) && !Found(content, size, overlap, Straddling(m), AS_IS)
  {
    AroundMatches(size - overlap - 1, m);
    var slices := Slices(Around(size - overlap - 1, m), size, overlap);
    forall k | 0 <= k < |slices|
      ensures !Matches(slices[k], Straddling(m), AS_IS)
    {
      WindowMisses(size, overlap, m, k);
    }
  }

  ghost predicate Exact(content: string, size: int, overlap: int, text: string)
    requires 0 <= overlap < size
  {
    Found(content, size, overlap, text, AS_IS) <==> Matches(content, text, AS_IS)
  }

  // Chunked search is exact for all texts of m characters if and only if m is at most the overlap plus one.
  lemma {:induction false} SearchExactIff(size: int, overlap: int, m: nat)
    requires 0 <= overlap < size
    ensures (forall content, text :: |text| == m ==> Exact(content, size, overlap, text)) <==> m <= overlap + 1
  {
    if m <= overlap + 1 {
      forall content, text | |text| == m
        ensures Exact(content, size, overlap, text)
      {
        SearchFindsShortTexts(content, size, overlap, text, AS_IS);
      }
    } else {
      LongTextMissed(size, overlap, m);
      assert !Exact(Around(size - overlap - 1, m), size, overlap, Straddling(m));
    }
  }

  // ---- The object -----------------------------------------------------------------------------------

  datatype Record = Record(id: string, content: string, metadata: map<string, string>, embedding: Option<seq<real>>)

  datatype Chunk = Chunk(
    id: string,
    parentId: string,
    content: string,
    index: nat,
    metadata: map<string, string>,
    embedding: Option<seq<real>>)

  function ChunkId(parentId: string, index: nat): string {
    parentId + ":" + Decimal(index)
  }

  // Only a record that fits into one chunk hands its embedding on.
  function ChunkAt(r: Record, index: nat, slice: string, size: int): Chunk {
    Chunk(ChunkId(r.id, index), r.id, slice, index, r.metadata, if |r.content| <= size then r.embedding else None)
  }

  // The chunks of a record, numbered from zero.
  function ChunksOf(r: Record, size: int, overlap: int): (chunks: seq<Chunk>)
    ensures |chunks| == |Slices(r.content, size, overlap)|
    ensures forall i :: 0 <= i < |chunks| ==> chunks[i] == ChunkAt(r, i, Slices(r.content, size, overlap)[i], size)
  {
    var slices := Slices(r.content, size, overlap);
    seq(|slices|, i requires 0 <= i < |slices| => ChunkAt(r, i, slices[i], size))
  }

  // What the chunking loop has done when it comes to `start`.
  ghost predicate ChunkedTo(r: Record, size: int, overlap: int, start: nat, done: seq<Chunk>) {
    var slices := Slices(r.content, size, overlap);
    && |done| <= |slices|
    && SlicesFrom(r.content, size, overlap, start) == slices[|done|..]
    && done == ChunksOf(r, size, overlap)[..|done|]
  }

  lemma {:induction false} NextChunk(r: Record, size: int, overlap: int, start: nat, done: seq<Chunk>)
    requires overlap < size && start < |r.content| && ChunkedTo(r, size, overlap, start, done)
    ensures ChunkedTo(r, size, overlap, start + size - overlap,
                      done + [ChunkAt(r, |done|, Window(r.content, size, start), size)])
  {
    NextSlice(r.content, size, overlap, start, Slices(r.content, size, overlap), |done|);
  }

  // A chunk's id tells its record and its number.
  lemma {:induction false} ChunkIdInjective(p: string, m: nat, q: string, n: nat)
    requires ChunkId(p, m) == ChunkId(q, n)
    ensures p == q && m == n
  {
    var s, d, e := ChunkId(p, m), Decimal(m), Decimal(n);
    DecimalDigits(m);
    DecimalDigits(n);
    LastColon(p, d, q, e);
    assert d == s[|p| + 1..] && e == s[|q| + 1..] && p == s[..|p|] && q == s[..|q|];
    DecimalInjective(m, n);
  }

  lemma {:induction false} LastColon(p: string, d: string, q: string, e: string)
    requires p + ":" + d == q + ":" + e && ':' !in d && ':' !in e
    ensures |p| == |q|
  {
    var s, t := p + ":" + d, q + ":" + e;
    assert s[|p|] == ':' && t[|q|] == ':';
    assert forall i :: |p| < i < |s| ==> s[i] == d[i - |p| - 1] && s[i] in d;
    assert forall i :: |q| < i < |t| ==> t[i] == e[i - |q| - 1] && t[i] in e;
  }

  // ---- Records in the order they were first indexed ----------------------------------------------

  function RecordIds(records: seq<Record>): (ids: seq<string>)
    ensures |ids| == |records|
    ensures forall i :: 0 <= i < |records| ==> ids[i] == records[i].id
  {
    Map(records, (r: Record) => r.id)
  }

  // Setting an existing key of a map keeps its place, a new one comes last.
  function Put(records: seq<Record>, r: Record): seq<Record> {
    var i := Find(RecordIds(records), r.id);
    if i < |records| then records[i := r] else records + [r]
  }

  function Delete(records: seq<Record>, id: string): seq<Record> {
    var i := Find(RecordIds(records), id);
    if i < |records| then records[..i] + records[i + 1..] else records
  }

  // A record takes the place of the one with its id, or the last one; the others stay where they are.
  lemma {:induction false} PutIs(records: seq<Record>, r: Record)
    requires Distinct(RecordIds(records))
    ensures r.id !in RecordIds(records) ==> Put(records, r) == records + [r]
    ensures r.id in RecordIds(records) ==>
      && |Put(records, r)| == |records|
      && forall i :: 0 <= i < |records| ==> Put(records, r)[i] == if records[i].id == r.id then r else records[i]
  {
    var i := Find(RecordIds(records), r.id);
    assert forall j :: 0 <= j < |records| && j != i && i < |records| ==> RecordIds(records)[j] != RecordIds(records)[i];
  }

  // The records but one, in their order.
  function Without(records: seq<Record>, id: string): seq<Record> {
    if records == [] then [] else (if records[0].id == id then [] else [records[0]]) + Without(records[1..], id)
  }

  lemma {:induction false} WithoutConcat(a: seq<Record>, b: seq<Record>, id: string)
    ensures Without(a + b, id) == Without(a, id) + Without(b, id)
  {
    if a == [] {
      assert a + b == b;
    } else {
      assert (a + b)[1..] == a[1..] + b;
      WithoutConcat(a[1..], b, id);
    }
  }

  lemma {:induction false} NothingWithout(records: seq<Record>, id: string)
    requires forall r :: r in records ==> r.id != id
    ensures Without(records, id) == records
  {
    if records != [] {
      NothingWithout(records[1..], id);
    }
  }

  // Deleting drops the one record with the id and keeps the others' order.
  lemma {:induction false} DeleteIs(records: seq<Record>, id: string)
    requires Distinct(RecordIds(records))
    ensures Delete(records, id) == Without(records, id)
  {
    var i := Find(RecordIds(records), id);
    if i < |records| {
      var a, b := records[..i], records[i + 1..];
      OthersDiffer(records, i);
      NothingWithout(a, id);
      NothingWithout(b, id);
      SplitWithout(records, i, id);
    } else {
      forall r | r in records
        ensures r.id != id
      {
        var j :| 0 <= j < |records| && records[j] == r;
        assert RecordIds(records)[j] == r.id;
      }
      NothingWithout(records, id);
    }
  }

  lemma {:induction false} SplitWithout(records: seq<Record>, i: nat, id: string)
    requires i < |records| && records[i].id == id
    ensures Without(records, id) == Without(records[..i], id) + Without(records[i + 1..], id)
  {
    var a, b := records[..i], records[i + 1..];
    assert records == a + ([records[i]] + b);
    WithoutConcat(a, [records[i]] + b, id);
    assert ([records[i]] + b)[1..] == b;
  }

  lemma {:induction false} OthersDiffer(records: seq<Record>, i: nat)
    requires Distinct(RecordIds(records)) && i < |records|
    ensures forall r :: r in records[..i] || r in records[i + 1..] ==> r.id != records[i].id
  {
    forall r | r in records[..i] || r in records[i + 1..]
      ensures r.id != records[i].id
    {
      var j :| 0 <= j < |records| && j != i && records[j] == r;
      assert RecordIds(records)[j] == r.id && RecordIds(records)[i] == records[i].id;
    }
  }

  // What every chunk of a record carries.
  lemma {:induction false} ChunkFields(r: Record, size: int, overlap: int, i: nat)
    requires i < |ChunksOf(r, size, overlap)|
    ensures var c := ChunksOf(r, size, overlap)[i];
      && c.parentId == r.id && c.index == i && c.metadata == r.metadata
      && c.id == r.id + ":" + Decimal(i)
      && c.content == Slices(r.content, size, overlap)[i]
      && c.embedding == if |r.content| <= size then r.embedding else None
  {
  }

  lemma {:induction false} PutDistinct(records: seq<Record>, r: Record)
    requires Distinct(RecordIds(records))
    ensures Distinct(RecordIds(Put(records, r)))
  {
    var i := Find(RecordIds(records), r.id);
    if i < |records| {
      assert RecordIds(Put(records, r)) == RecordIds(records);
    } else {
      assert RecordIds(Put(records, r)) == RecordIds(records) + [r.id];
      DistinctAppend(RecordIds(records), r.id);
    }
  }

  lemma {:induction false} DeleteDistinct(records: seq<Record>, id: string)
    requires Distinct(RecordIds(records))
    ensures Distinct(RecordIds(Delete(records, id))) && id !in RecordIds(Delete(records, id))
  {
    var i := Find(RecordIds(records), id);
    if i < |records| {
      IdsWithout(records, i);
      DistinctDrop(RecordIds(records), i);
    }
  }

  lemma {:induction false} IdsWithout(records: seq<Record>, i: nat)
    requires i < |records|
    ensures RecordIds(records[..i] + records[i + 1..]) == RecordIds(records)[..i] + RecordIds(records)[i + 1..]
  {
  }

  // ---- Searching stored chunks ----------------------------------------------------------------------

  function Stored(records: seq<Record>, size: int, overlap: int): seq<Chunk> {
    if records == [] then []
    else
      var n := |records| - 1;
      Stored(records[..n], size, overlap) + ChunksOf(records[n], size, overlap)
  }

  function Matching(chunks: seq<Chunk>, text: string, lower: Lowering): seq<Chunk> {
    if chunks == [] then []
    else
      var n := |chunks| - 1;
      Matching(chunks[..n], text, lower) + if Matches(chunks[n].content, text, lower) then [chunks[n]] else []
  }

  lemma {:induction false} StoredMembers(records: seq<Record>, size: int, overlap: int)
    ensures forall c :: c in Stored(records, size, overlap) <==>
        exists r :: r in records && c in ChunksOf(r, size, overlap)
  {
    if records != [] {
      var n := |records| - 1;
      StoredMembers(records[..n], size, overlap);
      assert records == records[..n] + [records[n]];
    }
  }

  lemma {:induction false} MatchingMembers(chunks: seq<Chunk>, text: string, lower: Lowering)
    ensures forall c :: c in Matching(chunks, text, lower) <==> c in chunks && Matches(c.content, text, lower)
  {
    if chunks != [] {
      var n := |chunks| - 1;
      MatchingMembers(chunks[..n], text, lower);
      assert chunks == chunks[..n] + [chunks[n]];
    }
  }

  lemma {:induction false} MatchingConcat(xs: seq<Chunk>, ys: seq<Chunk>, text: string, lower: Lowering)
    ensures Matching(xs + ys, text, lower) == Matching(xs, text, lower) + Matching(ys, text, lower)
    decreases |ys|
  {
    if ys == [] {
      assert xs + ys == xs;
    } else {
      var n := |ys| - 1;
      MatchingConcat(xs, ys[..n], text, lower);
      assert (xs + ys)[..|xs| + n] == xs + ys[..n];
    }
  }

  lemma {:induction false} StoredNext(
    records: seq<Record>, i: nat, size: int, overlap: int, text: string, lower: Lowering)
    requires i < |records|
    ensures Matching(Stored(records[..i + 1], size, overlap), text, lower)
         == Matching(Stored(records[..i], size, overlap), text, lower)
            + Matching(ChunksOf(records[i], size, overlap), text, lower)
  {
    assert records[..i + 1][..i] == records[..i];
    MatchingConcat(Stored(records[..i], size, overlap), ChunksOf(records[i], size, overlap), text, lower);
  }

  lemma {:induction false} MatchingDistinct(chunks: seq<Chunk>, text: string, lower: Lowering)
    requires Distinct(chunks)
    ensures Distinct(Matching(chunks, text, lower))
  {
    if chunks != [] {
      var n := |chunks| - 1;
      MatchingDistinct(chunks[..n], text, lower);
      MatchingMembers(chunks[..n], text, lower);
    }
  }

  // No chunk is stored twice.
  lemma {:induction false} StoredDistinct(records: seq<Record>, size: int, overlap: int)
    requires Distinct(RecordIds(records))
    ensures Distinct(Stored(records, size, overlap))
    ensures forall c :: c in Stored(records, size, overlap) ==> c.parentId in RecordIds(records)
  {
    if records != [] {
      var n := |records| - 1;
      assert RecordIds(records[..n]) == RecordIds(records)[..n];
      StoredDistinct(records[..n], size, overlap);
      OwnChunks(records[n], size, overlap);
      var before, own := Stored(records[..n], size, overlap), ChunksOf(records[n], size, overlap);
      forall c | c in before
        ensures c !in own
      {
        assert c.parentId in RecordIds(records)[..n] && RecordIds(records)[n] == records[n].id;
      }
      forall c | c in before
        ensures c.parentId in RecordIds(records)
      {
        assert c.parentId in RecordIds(records)[..n];
      }
      assert RecordIds(records)[n] in RecordIds(records);
      DistinctConcat(before, own);
    }
  }

  lemma {:induction false} OwnChunks(r: Record, size: int, overlap: int)
    ensures Distinct(ChunksOf(r, size, overlap))
    ensures forall c :: c in ChunksOf(r, size, overlap) ==> c.parentId == r.id
  {
  }

  // A record has a matching chunk exactly when its whole content matches, for texts up to the overlap plus one.
  lemma {:induction false} RecordFound(
    records: seq<Record>, i: nat, size: int, overlap: int, text: string, lower: Lowering)
    requires Distinct(RecordIds(records)) && i < |records|
    requires (0 <= overlap < size && |text| <= overlap + 1) || |records[i].content| <= size
    ensures var found := Matching(Stored(records, size, overlap), text, lower);
      (exists c :: c in found && c.parentId == records[i].id) <==> Matches(records[i].content, text, lower)
  {
    var found := Matching(Stored(records, size, overlap), text, lower);
    SearchFindsShortTexts(records[i].content, size, overlap, text, lower);
    if c :| c in found && c.parentId == records[i].id {
      FoundChunk(records, i, size, overlap, text, lower, c);
    }
    if Found(records[i].content, size, overlap, text, lower) {
      var c := ChunkFound(records, i, size, overlap, text, lower);
    }
  }

  lemma {:induction false} FoundChunk(
    records: seq<Record>, i: nat, size: int, overlap: int, text: string, lower: Lowering, c: Chunk)
    requires Distinct(RecordIds(records)) && i < |records|
    requires c in Matching(Stored(records, size, overlap), text, lower) && c.parentId == records[i].id
    ensures Found(records[i].content, size, overlap, text, lower)
  {
    MatchingMembers(Stored(records, size, overlap), text, lower);
    StoredMembers(records, size, overlap);
    var r :| r in records && c in ChunksOf(r, size, overlap);
    OwnChunks(r, size, overlap);
    OwnerIs(records, i, r);
    var k :| 0 <= k < |ChunksOf(r, size, overlap)| && ChunksOf(r, size, overlap)[k] == c;
    assert Matches(Slices(r.content, size, overlap)[k], text, lower);
  }

  lemma {:induction false} ChunkFound(
    records: seq<Record>, i: nat, size: int, overlap: int, text: string, lower: Lowering) returns (c: Chunk)
    requires i < |records| && Found(records[i].content, size, overlap, text, lower)
    ensures c in Matching(Stored(records, size, overlap), text, lower) && c.parentId == records[i].id
  {
    MatchingMembers(Stored(records, size, overlap), text, lower);
    StoredMembers(records, size, overlap);
    var slices := Slices(records[i].content, size, overlap);
    var k :| 0 <= k < |slices| && Matches(slices[k], text, lower);
    c := ChunksOf(records[i], size, overlap)[k];
    assert c in ChunksOf(records[i], size, overlap);
  }

  lemma {:induction false} OwnerIs(records: seq<Record>, i: nat, r: Record)
    requires Distinct(RecordIds(records)) && i < |records| && r in records && r.id == records[i].id
    ensures r == records[i]
  {
    var j :| 0 <= j < |records| && records[j] == r;
    assert RecordIds(records)[i] == RecordIds(records)[j];
  }

  class MemoryIndexer {
    const chunkSize: int
    const chunkOverlap: int
    // The map from record ids to chunks, in insertion order.
    var chunks: seq<(string, seq<Chunk>)>
    ghost var records: seq<Record>

    constructor (chunkSize: int, chunkOverlap: int)
      ensures Valid() && records == []
      ensures this.chunkSize == chunkSize && this.chunkOverlap == chunkOverlap
    {
      this.chunkSize, this.chunkOverlap := chunkSize, chunkOverlap;
      chunks, records := [], [];
    }

    ghost predicate Valid()
      reads this
    {
      && Distinct(RecordIds(records))
      && |chunks| == |records|
      && forall i :: 0 <= i < |chunks| ==> chunks[i] == (records[i].id, ChunksOf(records[i], chunkSize, chunkOverlap))
    }

    method ChunkContent(r: Record) returns (result: seq<Chunk>)
      requires Chunkable(r.content, chunkSize, chunkOverlap)
      ensures result == ChunksOf(r, chunkSize, chunkOverlap)
    {
      if |r.content| <= chunkSize {
        return [ChunkAt(r, 0, r.content, chunkSize)];
      }
      result := [];
      var start := 0;
      var index := 0;
      while start < |r.content|
        invariant 0 <= start && 0 <= index == |result|
        invariant ChunkedTo(r, chunkSize, chunkOverlap, start, result)
        decreases |r.content| - start
      {
        var end := Min(start + chunkSize, |r.content|);
        NextChunk(r, chunkSize, chunkOverlap, start, result);
        result := result + [ChunkAt(r, index, Cut(r.content, start, end), chunkSize)];
        start := start + (chunkSize - chunkOverlap);
        index := index + 1;
      }
    }

    method FindEntry(id: string) returns (i: nat)
      requires Valid()
      ensures i == Find(RecordIds(records), id)
    {
      i := 0;
      while i < |chunks| && chunks[i].0 != id
        invariant i <= |chunks|
        invariant forall j :: 0 <= j < i ==> RecordIds(records)[j] != id
      {
        i := i + 1;
      }
      ghost var k := Find(RecordIds(records), id);
      assert i < |chunks| ==> RecordIds(records)[i] == id;
      assert k < |chunks| ==> RecordIds(records)[k] == id;
    }

    method Index(r: Record) returns (result: seq<Chunk>)
      requires Valid() && Chunkable(r.content, chunkSize, chunkOverlap)
      modifies this
      ensures Valid() && records == Put(old(records), r)
      ensures result == ChunksOf(r, chunkSize, chunkOverlap)
    {
      result := ChunkContent(r);
      var i := FindEntry(r.id);
      PutDistinct(records, r);
      chunks := if i < |chunks| then chunks[i := (r.id, result)] else chunks + [(r.id, result)];
      records := Put(records, r);
    }

    method Remove(id: string) returns (found: bool)
      requires Valid()
      modifies this
      ensures Valid() && records == Delete(old(records), id)
      ensures found <==> id in RecordIds(old(records))
    {
      var i := FindEntry(id);
      found := i < |chunks|;
      DeleteDistinct(records, id);
      if found {
        chunks := chunks[..i] + chunks[i + 1..];
      }
      records := Delete(records, id);
    }

    predicate FoundSurely(content: string, text: string) {
      (0 <= chunkOverlap < chunkSize && |text| <= chunkOverlap + 1) || |content| <= chunkSize
    }

    // The matching chunks, each once, in stored order; and for texts up to the overlap plus one, or records of one
    // chunk, a record is among their owners exactly when its whole content matches.
    method SearchChunks(text: string, lower: Lowering) returns (results: seq<Chunk>)
      requires Valid()
      ensures results == Matching(Stored(records, chunkSize, chunkOverlap), text, lower)
      ensures Distinct(results)
      ensures forall c :: c in results <==>
        Matches(c.content, text, lower) && exists r :: r in records && c in ChunksOf(r, chunkSize, chunkOverlap)
      ensures forall r :: r in records && FoundSurely(r.content, text) ==>
          ((exists c :: c in results && c.parentId == r.id) <==> Matches(r.content, text, lower))
    {
      results := [];
      var i := 0;
      while i < |chunks|
        invariant i <= |chunks|
        invariant results == Matching(Stored(records[..i], chunkSize, chunkOverlap), text, lower)
      {
        StoredNext(records, i, chunkSize, chunkOverlap, text, lower);
        results := AppendMatching(results, chunks[i].1, text, lower);
        i := i + 1;
      }
      assert records[..i] == records;
      SearchFacts(text, lower, results);
    }

    // The inner loop of the search.
    method AppendMatching(
      results: seq<Chunk>, own: seq<Chunk>, text: string, lower: Lowering) returns (after: seq<Chunk>)
      ensures after == results + Matching(own, text, lower)
    {
      after := results;
      var j := 0;
      while j < |own|
        invariant j <= |own|
        invariant after == results + Matching(own[..j], text, lower)
      {
        assert own[..j + 1][..j] == own[..j];
        if Matches(own[j].content, text, lower) {
          after := after + [own[j]];
        }
        j := j + 1;
      }
      assert own[..j] == own;
    }

    lemma {:induction false} SearchFacts(text: string, lower: Lowering, results: seq<Chunk>)
      requires Valid() && results == Matching(Stored(records, chunkSize, chunkOverlap), text, lower)
      ensures Distinct(results)
      ensures forall c :: c in results <==>
        Matches(c.content, text, lower) && exists r :: r in records && c in ChunksOf(r, chunkSize, chunkOverlap)
      ensures forall r :: r in records && FoundSurely(r.content, text) ==>
          ((exists c :: c in results && c.parentId == r.id) <==> Matches(r.content, text, lower))
    {
      StoredDistinct(records, chunkSize, chunkOverlap);
      StoredMembers(records, chunkSize, chunkOverlap);
      MatchingDistinct(Stored(records, chunkSize, chunkOverlap), text, lower);
      MatchingMembers(Stored(records, chunkSize, chunkOverlap), text, lower);
      forall r | r in records && FoundSurely(r.content, text)
        ensures (exists c :: c in results && c.parentId == r.id) <==> Matches(r.content, text, lower)
      {
        var i :| 0 <= i < |records| && records[i] == r;
        RecordFound(records, i, chunkSize, chunkOverlap, text, lower);
      }
    }
  }
}
