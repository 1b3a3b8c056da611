// The copy-on-write chunked log: handles share chunk directories, directories
// share chunks, and a mutation copies only what somebody else still uses.
module EntryLogs {
  import opened Logs
  import opened Transition

  const CHUNK: nat := 256

  type LogId = nat
  type DataId = nat
  type ChunkId = nat

  // One chunk directory with its cached size and term check.
  datatype Data = Data(chunks: seq<ChunkId>, size: nat, valid: bool)

  type Chunks = map<ChunkId, seq<Entry>>

  // ---------------------------------------------------------------- contents

  // How many entries of a log of this size are in its k-th chunk.
  function Width(size: nat, k: nat): nat {
    if (k + 1) * CHUNK <= size then CHUNK else if k * CHUNK <= size then size - k * CHUNK else 0
  }

  predicate Shaped(d: Data, chunks: Chunks) {
    |d.chunks| == (d.size + CHUNK - 1) / CHUNK &&
    forall k: nat :: k < |d.chunks| ==> d.chunks[k] in chunks && |chunks[d.chunks[k]]| == Width(d.size, k)
  }

  function At(d: Data, chunks: Chunks, i: nat): Entry
    requires Shaped(d, chunks) && i < d.size
  {
    assert d.chunks[i / CHUNK] in chunks && |chunks[d.chunks[i / CHUNK]]| == Width(d.size, i / CHUNK);
    chunks[d.chunks[i / CHUNK]][i % CHUNK]
  }

  // The plain sequence a directory stands for.
  ghost function Items(d: Data, chunks: Chunks): (l: Log)
    requires Shaped(d, chunks)
    ensures |l| == d.size && forall i :: 0 <= i < d.size ==> l[i] == At(d, chunks, i)
  {
    seq(d.size, i requires 0 <= i < d.size => At(d, chunks, i))
  }

  // Chunks that a directory uses keep its contents.
  lemma ItemsFrame(d: Data, chunks: Chunks, after: Chunks)
    requires Shaped(d, chunks)
    requires forall c :: c in d.chunks ==> c in after && (c in chunks ==> after[c] == chunks[c])
    ensures Shaped(d, after) && Items(d, after) == Items(d, chunks)
  {
    forall i: nat | i < d.size
      ensures Shaped(d, after) && At(d, after, i) == At(d, chunks, i)
    {
      assert d.chunks[i / CHUNK] in d.chunks;
    }
    assert Shaped(d, after);
    assert forall i :: 0 <= i < d.size ==> Items(d, after)[i] == Items(d, chunks)[i];
  }

  // ---------------------------------------------------------------- appending

  // The directory after e went into a new chunk c or into a last chunk named c.
  function Grown(d: Data, c: ChunkId, valid: bool): Data {
    Data(if d.size % CHUNK == 0 || d.chunks == [] then d.chunks + [c] else d.chunks[|d.chunks| - 1 := c], d.size + 1, valid)
  }

  // What c must then hold.
  function GrownChunk(d: Data, chunks: Chunks, e: Entry): seq<Entry>
    requires Shaped(d, chunks)
  {
    if d.size % CHUNK == 0 then [e]
    else
      assert d.chunks[|d.chunks| - 1] in chunks;
      chunks[d.chunks[|d.chunks| - 1]] + [e]
  }

  lemma GrownShape(d: Data, chunks: Chunks, after: Chunks, c: ChunkId, e: Entry, valid: bool)
    requires Shaped(d, chunks) && c in after && after[c] == GrownChunk(d, chunks, e)
    requires forall k: nat :: k < d.size / CHUNK ==> d.chunks[k] in after && after[d.chunks[k]] == chunks[d.chunks[k]]
    ensures Shaped(Grown(d, c, valid), after)
  {
    var g := Grown(d, c, valid);
    forall k: nat | k < |g.chunks|
      ensures g.chunks[k] in after && |after[g.chunks[k]]| == Width(g.size, k)
    {
      if k < d.size / CHUNK {
        assert g.chunks[k] == d.chunks[k];
        assert |chunks[d.chunks[k]]| == Width(d.size, k);
      } else if d.size % CHUNK != 0 {
        assert |chunks[d.chunks[|d.chunks| - 1]]| == Width(d.size, |d.chunks| - 1);
      }
    }
  }

  lemma GrownItems(d: Data, chunks: Chunks, after: Chunks, c: ChunkId, e: Entry, valid: bool)
    requires Shaped(d, chunks) && c in after && after[c] == GrownChunk(d, chunks, e)
    requires forall k: nat :: k < d.size / CHUNK ==> d.chunks[k] in after && after[d.chunks[k]] == chunks[d.chunks[k]]
    ensures Shaped(Grown(d, c, valid), after) && Items(Grown(d, c, valid), after) == Items(d, chunks) + [e]
  {
    GrownShape(d, chunks, after, c, e, valid);
    var g := Grown(d, c, valid);
    var was := Items(d, chunks);
    forall i | 0 <= i < g.size
      ensures Items(g, after)[i] == (was + [e])[i]
    {
      if i / CHUNK < d.size / CHUNK {
        assert g.chunks[i / CHUNK] == d.chunks[i / CHUNK];
        assert i < d.size;
      } else {
        LastChunk(d, chunks, i);
      }
    }
  }

  lemma LastChunk(d: Data, chunks: Chunks, i: nat)
    requires Shaped(d, chunks) && d.size / CHUNK <= i / CHUNK && i <= d.size
    ensures d.size % CHUNK != 0 ==>
      i / CHUNK == |d.chunks| - 1 && d.chunks[|d.chunks| - 1] in chunks &&
      |chunks[d.chunks[|d.chunks| - 1]]| == d.size % CHUNK
    ensures d.size % CHUNK == 0 ==> i == d.size && |d.chunks| == d.size / CHUNK
    ensures i == d.size ==> i % CHUNK == d.size % CHUNK
    ensures i < d.size ==> i % CHUNK < d.size % CHUNK
  {
    if d.size % CHUNK != 0 {
      assert |chunks[d.chunks[|d.chunks| - 1]]| == Width(d.size, |d.chunks| - 1);
    }
  }

  // The cached check can be extended by looking at the last entry only.
  lemma OrderedGrows(l: Log, e: Entry)
    ensures OrderedTerms(l + [e]) <==> OrderedTerms(l) && e.term != 0 && (l == [] || l[|l| - 1].term <= e.term)
  {
    var m := l + [e];
    if OrderedTerms(m) {
      assert forall k :: 0 <= k < |l| ==> l[k] == m[k];
      assert m[|l|] == e;
      if l != [] {
        assert m[|l| - 1].term <= m[|l|].term;
      }
    }
    if OrderedTerms(l) && e.term != 0 && (l == [] || l[|l| - 1].term <= e.term) {
      forall j, k | 0 <= j < k < |m|
        ensures m[j].term <= m[k].term
      {
        if k == |l| && j < |l| - 1 {
          assert l[j].term <= l[|l| - 1].term;
        }
      }
    }
  }

  // ---------------------------------------------------------------- replacing and cutting

  lemma ReplacedItems(d: Data, chunks: Chunks, after: Chunks, i: nat, c: ChunkId, e: Entry, valid: bool)
    requires Shaped(d, chunks) && i < d.size && c in after
    requires d.chunks[i / CHUNK] in chunks && after[c] == chunks[d.chunks[i / CHUNK]][i % CHUNK := e]
    requires forall k: nat :: k < |d.chunks| && k != i / CHUNK ==>
               d.chunks[k] in after && after[d.chunks[k]] == chunks[d.chunks[k]]
    ensures
      var r := d.(chunks := d.chunks[i / CHUNK := c], valid := valid);
      Shaped(r, after) && Items(r, after) == Items(d, chunks)[i := e]
  {
    var r := d.(chunks := d.chunks[i / CHUNK := c], valid := valid);
    assert Shaped(r, after);
    forall j | 0 <= j < d.size
      ensures Items(r, after)[j] == Items(d, chunks)[i := e][j]
    {
      if j / CHUNK == i / CHUNK {
        assert j != i ==> j % CHUNK != i % CHUNK;
      }
    }
  }

  // The directory cut to n entries; a partly used chunk is replaced by c.
  function Cut(d: Data, n: nat, c: ChunkId, valid: bool): Data
    requires |d.chunks| >= (n + CHUNK - 1) / CHUNK
  {
    var kept := d.chunks[..(n + CHUNK - 1) / CHUNK];
    Data(if n % CHUNK == 0 then kept else kept[|kept| - 1 := c], n, valid)
  }

  lemma CutItems(d: Data, chunks: Chunks, after: Chunks, n: nat, c: ChunkId, valid: bool)
    requires Shaped(d, chunks) && n < d.size
    requires n % CHUNK != 0 ==>
      d.chunks[n / CHUNK] in chunks && n % CHUNK <= |chunks[d.chunks[n / CHUNK]]| && c in after &&
      after[c] == chunks[d.chunks[n / CHUNK]][..n % CHUNK]
    requires forall k: nat :: k < n / CHUNK ==> d.chunks[k] in after && after[d.chunks[k]] == chunks[d.chunks[k]]
    ensures Shaped(Cut(d, n, c, valid), after) && Items(Cut(d, n, c, valid), after) == Items(d, chunks)[..n]
  {
    var r := Cut(d, n, c, valid);
    forall k: nat | k < |r.chunks|
      ensures r.chunks[k] in after && |after[r.chunks[k]]| == Width(n, k)
    {
      if k < n / CHUNK {
        assert r.chunks[k] == d.chunks[k] && |chunks[d.chunks[k]]| == Width(d.size, k);
      }
    }
    forall j | 0 <= j < n
      ensures Items(r, after)[j] == Items(d, chunks)[j]
    {
      if j / CHUNK < n / CHUNK {
        assert r.chunks[j / CHUNK] == d.chunks[j / CHUNK];
      }
    }
  }

  // ---------------------------------------------------------------- shared storage

  // A directory whose chunks exist and whose cached check is right.
  ghost predicate Sound(d: Data, chunks: Chunks) {
    Shaped(d, chunks) && (d.valid <==> OrderedTerms(Items(d, chunks)))
  }

  lemma SoundFrame(d: Data, chunks: Chunks, after: Chunks)
    requires Sound(d, chunks)
    requires forall c :: c in d.chunks ==> c in after && (c in chunks ==> after[c] == chunks[c])
    ensures Sound(d, after) && Items(d, after) == Items(d, chunks)
  {
    ItemsFrame(d, chunks, after);
  }

  // Directories other than `me` are untouched by a change to chunks they do not use.
  lemma OthersSound(datas: map<DataId, Data>, me: DataId, chunks: Chunks, after: Chunks)
    requires forall e :: e in datas ==> Sound(datas[e], chunks)
    requires forall e, c :: e in datas && e != me && c in datas[e].chunks && c in chunks ==>
      c in after && after[c] == chunks[c]
    ensures forall e :: e in datas && e != me ==>
      Sound(datas[e], chunks) && Sound(datas[e], after) && Items(datas[e], after) == Items(datas[e], chunks)
  {
    forall e | e in datas && e != me
      ensures Sound(datas[e], after) && Items(datas[e], after) == Items(datas[e], chunks)
    {
      ChunksExist(datas[e], chunks);
      SoundFrame(datas[e], chunks, after);
    }
  }

  lemma ChunksExist(d: Data, chunks: Chunks)
    requires Shaped(d, chunks)
    ensures forall c :: c in d.chunks ==> c in chunks
  {
    forall c | c in d.chunks
      ensures c in chunks
    {
      var k :| 0 <= k < |d.chunks| && d.chunks[k] == c;
    }
  }

  // The longest common prefix, recognised by its end.
  lemma PrefixEnds(a: Log, b: Log, n: nat)
    requires n <= |a| && n <= |b| && (forall i :: 0 <= i < n ==> a[i] == b[i])
    requires n == |a| || n == |b| || a[n] != b[n]
    ensures n == CommonPrefix(a, b)
  {
    var k := CommonPrefix(a, b);
    if n < k {
      AgreeEntry(a, b, k, n);
    }
  }

  // All logs of one process: handles, the directories they share and the chunks
  // those share. A directory without a handle is released.
  class Arena {
    var logs: map<LogId, DataId>
    var datas: map<DataId, Data>
    var chunks: Chunks
    var nextData: nat
    var nextChunk: nat

    ghost predicate Valid()
      reads this
    {
      (forall l :: l in logs ==> logs[l] in datas) &&
      (forall d :: d in datas ==> d < nextData && Sound(datas[d], chunks)) &&
      (forall d, c :: d in datas && c in datas[d].chunks ==> c < nextChunk)
    }

    // The sequence behind a handle.
    ghost function Contents(l: LogId): Log
      reads this
      requires Valid() && l in logs
    {
      Items(datas[logs[l]], chunks)
    }

    // Every handle but l keeps its contents.
    twostate predicate OthersKept(l: LogId)
      reads this
    {
      old(Valid()) && Valid() && forall m :: m in old(logs) && m != l ==> m in logs && Contents(m) == old(Contents(m))
    }

    constructor ()
      ensures Valid() && logs == map[]
    {
      logs, datas, chunks, nextData, nextChunk := map[], map[], map[], 0, 0;
    }

    predicate DataShared(l: LogId)
      reads this
      requires l in logs
    {
      exists m :: m in logs && m != l && logs[m] == logs[l]
    }

    predicate ChunkShared(d: DataId, pos: nat)
      reads this
      requires d in datas && pos < |datas[d].chunks|
    {
      exists e, k :: e in datas && 0 <= k < |datas[e].chunks| && (e != d || k != pos) &&
        datas[e].chunks[k] == datas[d].chunks[pos]
    }

    // Drop directories no handle refers to.
    method Release(d: DataId)
      requires Valid()
      modifies this`datas
      ensures Valid() && datas.Keys <= old(datas).Keys
      ensures forall e :: e in datas ==> datas[e] == old(datas)[e]
      ensures forall l :: l in logs ==> Contents(l) == old(Contents(l))
    {
      hide Sound, Items;
      if !exists m :: m in logs && logs[m] == d {
        datas := datas - {d};
      }
    }

    // A fresh empty log.
    method New(l: LogId)
      requires Valid() && l !in logs
      modifies this
      ensures Valid() && logs.Keys == old(logs).Keys + {l} && Contents(l) == [] && OthersKept(l)
    {
      hide Sound, Items;
      EmptySound(chunks);
      datas := datas[nextData := Data([], 0, true)];
      logs := logs[l := nextData];
      nextData := nextData + 1;
    }

    // Copying a log copies a reference.
    method Copy(from: LogId, to: LogId)
      requires Valid() && from in logs && to !in logs
      modifies this`logs
      ensures Valid() && logs.Keys == old(logs).Keys + {to} && Contents(to) == old(Contents(from)) && OthersKept(to)
    {
      hide Sound, Items;
      logs := logs[to := logs[from]];
    }

    method Drop(l: LogId)
      requires Valid() && l in logs
      modifies this`logs, this`datas
      ensures Valid() && logs.Keys == old(logs).Keys - {l} && OthersKept(l)
    {
      hide Sound, Items;
      var d := logs[l];
      logs := logs - {l};
      Release(d);
    }

    // Own the directory before changing it.
    method Detach(l: LogId)
      requires Valid() && l in logs
      modifies this`logs, this`datas, this`nextData
      ensures Valid() && logs.Keys == old(logs).Keys && !DataShared(l)
      ensures forall m :: m in logs ==> Contents(m) == old(Contents(m))
      ensures datas[logs[l]] == old(datas[logs[l]])
    {
      hide Sound, Items;
      if DataShared(l) {
        datas := datas[nextData := datas[logs[l]]];
        logs := logs[l := nextData];
        nextData := nextData + 1;
      }
    }

    // Replace l's own directory by d over the chunks `after`.
    method Install(l: LogId, d: Data, after: Chunks, next: nat)
      requires Valid() && l in logs && !DataShared(l) && Sound(d, after) && next >= nextChunk
      requires forall c :: c in d.chunks ==> c < next
      requires forall e, c :: e in datas && e != logs[l] && c in datas[e].chunks && c in chunks ==>
        c in after && after[c] == chunks[c]
      modifies this`datas, this`chunks, this`nextChunk
      ensures Valid() && Contents(l) == Items(d, after) && OthersKept(l)
    {
      hide Sound, Items, At;
      OthersSound(datas, logs[l], chunks, after);
      datas := datas[logs[l] := d];
      chunks := after;
      nextChunk := next;
    }

    // Chunk c is used by nobody but d, and only at its end.
    ghost predicate FreeFor(d: DataId, c: ChunkId)
      reads this
    {
      d in datas && forall e, k :: e in datas && 0 <= k < |datas[e].chunks| && datas[e].chunks[k] == c ==>
        e == d && k == |datas[d].chunks| - 1 && datas[d].size % CHUNK != 0
    }

    // The chunk the next entry goes to: the last one if it is neither full nor
    // used elsewhere, otherwise a new one.
    method PickChunk(d: DataId) returns (c: ChunkId, next: nat)
      requires Valid() && d in datas
      ensures FreeFor(d, c) && c < next && next >= nextChunk
    {
      hide Sound;
      SoundShape(datas[d], chunks);
      forall e, k | e in datas && 0 <= k < |datas[e].chunks|
        ensures datas[e].chunks[k] < nextChunk
      {
        assert datas[e].chunks[k] in datas[e].chunks;
      }
      c, next := nextChunk, nextChunk + 1;
      if datas[d].size % CHUNK != 0 && !ChunkShared(d, |datas[d].chunks| - 1) {
        c, next := datas[d].chunks[|datas[d].chunks| - 1], nextChunk;
      }
    }

    method Push(l: LogId, e: Entry)
      requires Valid() && l in logs
      modifies this
      ensures Valid() && logs.Keys == old(logs).Keys && OthersKept(l)
      ensures Contents(l) == old(Contents(l)) + [e]
    {
      hide Items, At, Sound, GrownChunk, OrderedTerms, Grown;
      Detach(l);
      var id := logs[l];
      var d := datas[id];
      SoundShape(d, chunks);
      var c, next := PickChunk(id);
      OrderedGrows(Items(d, chunks), e);
      var ordered := d.valid && e.term != 0;
      if ordered && d.size != 0 {
        LastItem(d, chunks);
        ordered := At(d, chunks, d.size - 1).term <= e.term;
      }
      var after := chunks[c := GrownChunk(d, chunks, e)];
      GrownSound(d, chunks, after, c, e, ordered);
      GrownChunks(d, c, ordered);
      Install(l, Grown(d, c, ordered), after, next);
    }

    // Recompute the cached check from scratch.
    method Validate(d: Data, over: Chunks) returns (ok: bool)
      requires Shaped(d, over)
      ensures ok <==> OrderedTerms(Items(d, over))
    {
      hide Shaped, OrderedTerms, At, Items;
      ok := true;
      var previous := 0;
      ghost var l := Items(d, over);
      OrderedNothing(l);
      var k := 0;
      while k < d.size
        invariant 0 <= k <= d.size && ok == OrderedTerms(l[..k])
        invariant previous == if k == 0 then 0 else l[k - 1].term
      {
        var e := At(d, over, k);
        OrderedGrows(l[..k], e);
        assert l[..k] + [e] == l[..k + 1];
        if e.term == 0 || e.term < previous {
          ok := false;
        }
        previous := e.term;
        k := k + 1;
      }
      assert l[..k] == l;
    }

    // Always a fresh copy of the one chunk that changes.
    method Set(l: LogId, i: nat, e: Entry)
      requires Valid() && l in logs && i < |Contents(l)|
      modifies this
      ensures Valid() && logs.Keys == old(logs).Keys && OthersKept(l)
      ensures Contents(l) == old(Contents(l))[i := e]
    {
      hide Items, At, Sound, OrderedTerms, Shaped;
      Detach(l);
      var d := datas[logs[l]];
      SoundShape(d, chunks);
      var c := nextChunk;
      ReplacedReady(d, chunks, i, c, e);
      var after := chunks[c := chunks[d.chunks[i / CHUNK]][i % CHUNK := e]];
      var r := d.(chunks := d.chunks[i / CHUNK := c], valid := true);
      var ok := Validate(r, after);
      ValidSound(r, after, ok);
      Install(l, r.(valid := ok), after, c + 1);
    }

    method Shrink(l: LogId, n: nat)
      requires Valid() && l in logs && n < |Contents(l)|
      modifies this
      ensures Valid() && logs.Keys == old(logs).Keys && OthersKept(l)
      ensures Contents(l) == old(Contents(l))[..n]
    {
      hide Items, At, Sound, OrderedTerms, Shaped, Cut;
      Detach(l);
      var d := datas[logs[l]];
      SoundShape(d, chunks);
      CutWidth(d, chunks, n);
      var c, next, after := nextChunk, nextChunk, chunks;
      if n % CHUNK != 0 {
        next := nextChunk + 1;
        after := chunks[c := chunks[d.chunks[n / CHUNK]][..n % CHUNK]];
      }
      CutReady(d, chunks, after, n, c);
      var r := Cut(d, n, c, true);
      var ok := Validate(r, after);
      ValidSound(r, after, ok);
      CutChunks(d, n, c, ok);
      Install(l, r.(valid := ok), after, next);
    }

    // Growing pads with entries of term zero.
    method Resize(l: LogId, n: nat)
      requires Valid() && l in logs
      modifies this
      ensures Valid() && logs.Keys == old(logs).Keys && OthersKept(l)
      ensures
        var was := old(Contents(l));
        Contents(l) == if n <= |was| then was[..n] else was + seq(n - |was|, _ => Entry(0, ""))
    {
      hide Sound, Items, Shaped;
      ghost var was := Contents(l);
      var size := Size(l);
      if n < size {
        Shrink(l, n);
      } else {
        while size < n
          invariant Valid() && logs.Keys == old(logs).Keys && OthersKept(l) && size <= n && size >= |was|
          invariant Contents(l) == was + seq(size - |was|, _ => Entry(0, "")) && size == |Contents(l)|
          decreases n - size
        {
          Push(l, Entry(0, ""));
          assert seq(size - |was|, _ => Entry(0, "")) + [Entry(0, "")] == seq(size + 1 - |was|, _ => Entry(0, ""));
          size := size + 1;
        }
      }
    }

    method Clear(l: LogId)
      requires Valid() && l in logs
      modifies this
      ensures Valid() && logs.Keys == old(logs).Keys && OthersKept(l) && Contents(l) == []
    {
      hide Sound, Items;
      Drop(l);
      New(l);
    }

    method Size(l: LogId) returns (n: nat)
      requires Valid() && l in logs
      ensures n == |Contents(l)|
    {
      n := datas[logs[l]].size;
    }

    // The constant-time check the transition core relies on.
    method TermsValid(l: LogId, before: nat, maximum: nat) returns (ok: bool)
      requires Valid() && l in logs
      ensures ok <==> ValidTerms(Contents(l), before, maximum)
    {
      var d := datas[logs[l]];
      ok := d.valid && (d.size == 0 || (At(d, chunks, 0).term >= before && At(d, chunks, d.size - 1).term <= maximum));
    }

    // Shared directories and shared chunks are skipped without looking inside.
    method CommonPrefixSize(a: LogId, b: LogId) returns (n: nat)
      requires Valid() && a in logs && b in logs
      ensures n == CommonPrefix(Contents(a), Contents(b))
    {
      hide Items, At, Sound, Shaped;
      var d, e := datas[logs[a]], datas[logs[b]];
      SoundShape(d, chunks);
      SoundShape(e, chunks);
      ghost var l, m := Contents(a), Contents(b);
      if logs[a] == logs[b] {
        PrefixEnds(l, m, d.size);
        return d.size;
      }
      var count := Min(d.size, e.size);
      n := 0;
      while n < count
        invariant 0 <= n <= count && (n < count ==> n % CHUNK == 0)
        invariant forall i :: 0 <= i < n ==> l[i] == m[i]
        decreases count - n
      {
        var chunk := n / CHUNK;
        var end := Min(count, (chunk + 1) * CHUNK);
        HasChunk(d, chunks, n);
        HasChunk(e, chunks, n);
        if d.chunks[chunk] == e.chunks[chunk] {
          SharedChunk(d, e, chunks, n, end);
          n := end;
        } else {
          n := FirstDifference(d, e, chunks, n, end);
          if n < end {
            PrefixEnds(l, m, n);
            return;
          }
        }
      }
      PrefixEnds(l, m, count);
    }

    // Equality of logs is equality of their contents.
    method Equal(a: LogId, b: LogId) returns (same: bool)
      requires Valid() && a in logs && b in logs
      ensures same <==> Contents(a) == Contents(b)
    {
      var n := Size(a);
      var k := Size(b);
      if n != k {
        return false;
      }
      var common := CommonPrefixSize(a, b);
      SamePrefix(Contents(a), Contents(b));
      same := common == n;
    }
  }

  // Compare one chunk entry by entry.
  method FirstDifference(d: Data, e: Data, over: Chunks, from: nat, end: nat) returns (n: nat)
    requires Shaped(d, over) && Shaped(e, over) && from <= end <= d.size && end <= e.size
    ensures from <= n <= end && forall i :: from <= i < n ==> Items(d, over)[i] == Items(e, over)[i]
    ensures n < end ==> Items(d, over)[n] != Items(e, over)[n]
  {
    hide Items, At, Shaped;
    n := from;
    while n < end
      invariant from <= n <= end && forall i :: from <= i < n ==> Items(d, over)[i] == Items(e, over)[i]
    {
      if At(d, over, n) != At(e, over, n) {
        return;
      }
      n := n + 1;
    }
  }

  lemma EmptySound(chunks: Chunks)
    ensures Sound(Data([], 0, true), chunks) && Items(Data([], 0, true), chunks) == []
  {}

  lemma LastItem(d: Data, chunks: Chunks)
    requires Shaped(d, chunks) && d.size > 0
    ensures At(d, chunks, d.size - 1) == Items(d, chunks)[d.size - 1] && Items(d, chunks) != []
  {}

  lemma SoundShape(d: Data, chunks: Chunks)
    requires Sound(d, chunks)
    ensures Shaped(d, chunks) && (d.valid <==> OrderedTerms(Items(d, chunks)))
    ensures d.size % CHUNK != 0 ==> |d.chunks| > 0
  {}

  lemma GrownSound(d: Data, chunks: Chunks, after: Chunks, c: ChunkId, e: Entry, valid: bool)
    requires Shaped(d, chunks) && after == chunks[c := GrownChunk(d, chunks, e)]
    requires forall k :: 0 <= k < |d.chunks| && d.chunks[k] == c ==> k == |d.chunks| - 1 && d.size % CHUNK != 0
    requires valid <==> OrderedTerms(Items(d, chunks) + [e])
    ensures Sound(Grown(d, c, valid), after) && Items(Grown(d, c, valid), after) == Items(d, chunks) + [e]
  {
    GrownItems(d, chunks, after, c, e, valid);
  }

  lemma GrownChunks(d: Data, c: ChunkId, valid: bool)
    ensures forall k :: k in Grown(d, c, valid).chunks ==> k in d.chunks || k == c
  {}

  lemma OrderedNothing(l: Log)
    ensures OrderedTerms(l[..0])
  {}

  lemma ReplacedReady(d: Data, chunks: Chunks, i: nat, c: ChunkId, e: Entry)
    requires Shaped(d, chunks) && i < d.size && c !in d.chunks
    ensures i / CHUNK < |d.chunks| && d.chunks[i / CHUNK] in chunks && i % CHUNK < |chunks[d.chunks[i / CHUNK]]|
    ensures
      var after := chunks[c := chunks[d.chunks[i / CHUNK]][i % CHUNK := e]];
      var r := d.(chunks := d.chunks[i / CHUNK := c], valid := true);
      Shaped(r, after) && Items(r, after) == Items(d, chunks)[i := e] &&
      forall k :: k in r.chunks ==> k in d.chunks || k == c
  {
    HasChunk(d, chunks, i);
    var after := chunks[c := chunks[d.chunks[i / CHUNK]][i % CHUNK := e]];
    ReplacedItems(d, chunks, after, i, c, e, true);
  }

  lemma ValidSound(d: Data, chunks: Chunks, ok: bool)
    requires Shaped(d, chunks) && (ok <==> OrderedTerms(Items(d, chunks)))
    ensures Sound(d.(valid := ok), chunks) && Items(d.(valid := ok), chunks) == Items(d, chunks)
  {
    assert forall i :: 0 <= i < d.size ==> Items(d.(valid := ok), chunks)[i] == Items(d, chunks)[i];
  }

  lemma HasChunk(d: Data, chunks: Chunks, i: nat)
    requires Shaped(d, chunks) && i < d.size
    ensures i / CHUNK < |d.chunks| && d.chunks[i / CHUNK] in chunks && i % CHUNK < |chunks[d.chunks[i / CHUNK]]|
  {}

  lemma SharedChunk(d: Data, e: Data, chunks: Chunks, n: nat, end: nat)
    requires Shaped(d, chunks) && Shaped(e, chunks) && n < end <= d.size && end <= e.size && end <= (n / CHUNK + 1) * CHUNK
    requires n / CHUNK < |d.chunks| && n / CHUNK < |e.chunks| && d.chunks[n / CHUNK] == e.chunks[n / CHUNK]
    ensures forall i :: n <= i < end ==> Items(d, chunks)[i] == Items(e, chunks)[i]
  {
    forall i | n <= i < end
      ensures Items(d, chunks)[i] == Items(e, chunks)[i]
    {
      assert i / CHUNK == n / CHUNK;
      assert At(d, chunks, i) == At(e, chunks, i);
    }
  }

  lemma CutWidth(d: Data, chunks: Chunks, n: nat)
    requires Shaped(d, chunks) && n < d.size
    ensures n / CHUNK < |d.chunks| && d.chunks[n / CHUNK] in chunks && n % CHUNK < |chunks[d.chunks[n / CHUNK]]|
    ensures |d.chunks| >= (n + CHUNK - 1) / CHUNK
  {
    HasChunk(d, chunks, n);
  }

  lemma CutReady(d: Data, chunks: Chunks, after: Chunks, n: nat, c: ChunkId)
    requires Shaped(d, chunks) && n < d.size && c !in d.chunks
    requires n / CHUNK < |d.chunks| && d.chunks[n / CHUNK] in chunks && n % CHUNK < |chunks[d.chunks[n / CHUNK]]|
    requires |d.chunks| >= (n + CHUNK - 1) / CHUNK
    requires after == if n % CHUNK == 0 then chunks else chunks[c := chunks[d.chunks[n / CHUNK]][..n % CHUNK]]
    ensures Shaped(Cut(d, n, c, true), after) && Items(Cut(d, n, c, true), after) == Items(d, chunks)[..n]
  {
    CutItems(d, chunks, after, n, c, true);
  }

  lemma CutChunks(d: Data, n: nat, c: ChunkId, valid: bool)
    requires |d.chunks| >= (n + CHUNK - 1) / CHUNK
    ensures Cut(d, n, c, valid) == Cut(d, n, c, true).(valid := valid)
    ensures forall k :: k in Cut(d, n, c, valid).chunks ==> k in d.chunks || (n % CHUNK != 0 && k == c)
  {}

  lemma SamePrefix(a: Log, b: Log)
    ensures CommonPrefix(a, b) == |a| == |b| <==> a == b
  {
    if a == b {
      PrefixEnds(a, b, |a|);
    }
  }
}
