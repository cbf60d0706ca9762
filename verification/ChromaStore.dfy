/** The vector collection as a map from chunk id to chunk. A chunk id is a hash of the chunk's path,
    lines and text; here it is those four values. */
module ChromaStore {
  import opened Rows
  import opened Windows
  import opened ChangedChunks

  datatype ChunkId = ChunkId(path: string, span: Window, text: string)

  type Entries = map<ChunkId, Chunk>

  function IdOf(c: Chunk): ChunkId {
    ChunkId(c.path, c.span, c.text)
  }

  /** One entry for each id, the last chunk with that id. */
  function Latest(chunks: seq<Chunk>): Entries {
    if chunks == [] then map[]
    else Latest(chunks[..|chunks| - 1])[IdOf(chunks[|chunks| - 1]) := chunks[|chunks| - 1]]
  }

  /** The id tells apart chunks of different files, lines or text, and nothing else. */
  lemma IdsDiffer(a: Chunk, b: Chunk)
    ensures IdOf(a) == IdOf(b) <==> a.path == b.path && a.span == b.span && a.text == b.text
  {
  }

  /** What is stored under an id is the last chunk that has it. */
  lemma {:induction false} LastIsStored(chunks: seq<Chunk>, k: nat)
    requires k < |chunks| && forall j | k < j < |chunks| :: IdOf(chunks[j]) != IdOf(chunks[k])
    ensures IdOf(chunks[k]) in Latest(chunks) && Latest(chunks)[IdOf(chunks[k])] == chunks[k]
  {
    var n := |chunks| - 1;
    if k < n {
      LastIsStored(chunks[..n], k);
    }
  }

  lemma {:induction false} LatestAppend(a: seq<Chunk>, b: seq<Chunk>)
    ensures Latest(a + b) == Latest(a) + Latest(b)
    decreases |b|
  {
    if b == [] {
      assert a + b == a;
    } else {
      assert (a + b)[..|a + b| - 1] == a + b[..|b| - 1];
      LatestAppend(a, b[..|b| - 1]);
    }
  }

  lemma {:induction false} LatestKeys(chunks: seq<Chunk>)
    ensures forall id :: id in Latest(chunks) <==> exists c | c in chunks :: id == IdOf(c)
  {
    if chunks != [] {
      var n := |chunks| - 1;
      LatestKeys(chunks[..n]);
      assert forall c :: c in chunks <==> c in chunks[..n] || c == chunks[n];
    }
  }

  /** What a collection holds for one file. */
  function At(entries: Entries, path: string): Entries {
    map id | id in entries && id.path == path :: entries[id]
  }

  lemma UpdateAssociates(a: Entries, b: Entries, c: Entries)
    ensures (a + b) + c == a + (b + c)
  {
  }

  lemma AtUnion(a: Entries, b: Entries, path: string)
    ensures At(a + b, path) == At(a, path) + At(b, path)
  {
  }

  lemma UnionSize(a: Entries, b: Entries)
    requires a.Keys !! b.Keys
    ensures |a + b| == |a| + |b|
  {
    assert (a + b).Keys == a.Keys + b.Keys;
    assert |(a + b).Keys| == |a + b| && |a.Keys| == |a| && |b.Keys| == |b|;
  }

  lemma AtOnly(chunks: seq<Chunk>, path: string, other: string)
    requires forall c | c in chunks :: c.path == path
    ensures At(Latest(chunks), other) == if other == path then Latest(chunks) else map[]
  {
    LatestKeys(chunks);
  }

  /** A file's chunks added where none were left. */
  lemma AtReplaced(emptied: Entries, path: string, chunks: seq<Chunk>)
    requires At(emptied, path) == map[] && forall c | c in chunks :: c.path == path
    ensures At(emptied + Latest(chunks), path) == Latest(chunks)
    ensures forall other | other != path :: At(emptied + Latest(chunks), other) == At(emptied, other)
  {
    forall other
      ensures At(emptied + Latest(chunks), other) == if other == path then Latest(chunks) else At(emptied, other)
    {
      AtUnion(emptied, Latest(chunks), other);
      AtOnly(chunks, path, other);
    }
  }

  /** No two chunks share an id. */
  predicate Distinct(items: seq<Chunk>) {
    forall i, j | 0 <= i < j < |items| :: IdOf(items[i]) != IdOf(items[j])
  }

  lemma {:induction false} DistinctAreCounted(items: seq<Chunk>)
    requires Distinct(items)
    ensures |Latest(items)| == |items|
  {
    if items != [] {
      var n := |items| - 1;
      DistinctAreCounted(items[..n]);
      LatestKeys(items[..n]);
      assert IdOf(items[n]) !in Latest(items[..n]);
    }
  }

  lemma {:induction false} ReplacedInPlace(items: seq<Chunk>, j: nat, c: Chunk)
    requires Distinct(items) && j < |items| && IdOf(items[j]) == IdOf(c)
    ensures Distinct(items[j := c]) && Latest(items[j := c]) == Latest(items)[IdOf(c) := c]
  {
    var n := |items| - 1;
    if j == n {
      assert items[j := c][..n] == items[..n];
    } else {
      assert items[j := c][..n] == items[..n][j := c];
      ReplacedInPlace(items[..n], j, c);
    }
  }

  lemma Appended(items: seq<Chunk>, c: Chunk)
    requires Distinct(items) && forall j | 0 <= j < |items| :: IdOf(items[j]) != IdOf(c)
    ensures Distinct(items + [c]) && Latest(items + [c]) == Latest(items)[IdOf(c) := c]
  {
    assert (items + [c])[..|items|] == items;
  }

  lemma PrefixLatest(chunks: seq<Chunk>, i: nat)
    requires i < |chunks|
    ensures Latest(chunks[..i + 1]) == Latest(chunks[..i])[IdOf(chunks[i]) := chunks[i]]
  {
    assert chunks[..i + 1][..i] == chunks[..i];
  }

  const UPSERT_BATCH: nat := 128

  /** Some of `chunks`, added to what was there. */
  ghost predicate PartlyAdded(before: Entries, chunks: seq<Chunk>, after: Entries) {
    exists some: seq<Chunk> :: after == before + Latest(some) && forall c | c in some :: c in chunks
  }

  lemma StoredPartly(before: Entries, chunks: seq<Chunk>, items: seq<Chunk>, n: nat)
    requires n <= |items| && forall c | c in items :: c in chunks
    ensures PartlyAdded(before, chunks, before + Latest(items[..n]))
  {
    assert forall c | c in items[..n] :: c in items;
  }

  lemma BatchAdds(before: Entries, items: seq<Chunk>, start: nat, end: nat)
    requires start <= end <= |items|
    ensures before + Latest(items[..start]) + Latest(items[start..end]) == before + Latest(items[..end])
  {
    assert items[..start] + items[start..end] == items[..end];
    LatestAppend(items[..start], items[start..end]);
    UpdateAssociates(before, Latest(items[..start]), Latest(items[start..end]));
  }

  lemma PartOfOneFile(before: Entries, chunks: seq<Chunk>, after: Entries, path: string)
    requires PartlyAdded(before, chunks, after) && forall c | c in chunks :: c.path == path
    ensures forall other | other != path :: At(after, other) == At(before, other)
  {
    var some: seq<Chunk> :| after == before + Latest(some) && forall c | c in some :: c in chunks;
    forall other | other != path
      ensures At(after, other) == At(before, other)
    {
      AtUnion(before, Latest(some), other);
      AtOnly(some, path, other);
    }
  }

  class CodeIndex {
    var entries: Entries

    constructor ()
      ensures entries == map[]
    {
      entries := map[];
    }

    /** The old chunks go, unless dropping the collection fails: that exception is suppressed. */
    method Reset(fails: bool)
      modifies this
      ensures entries == if fails then old(entries) else map[]
    {
      if !fails {
        entries := map[];
      }
    }

    /** Later values replace earlier ones with the same id. */
    method Upsert(batch: seq<Chunk>)
      modifies this
      ensures entries == old(entries) + Latest(batch)
    {
      for i := 0 to |batch|
        invariant entries == old(entries) + Latest(batch[..i])
      {
        PrefixLatest(batch, i);
        entries := entries[IdOf(batch[i]) := batch[i]];
      }
      assert batch[..|batch|] == batch;
    }

    /** The batches are stored up to item `reach`; short of the end, the batch it falls in raises. */
    method StoreBatches(items: seq<Chunk>, reach: nat)
      requires reach <= |items|
      modifies this
      ensures entries == old(entries) + Latest(items[..reach])
    {
      var offset := 0;
      while offset < reach
        invariant offset <= reach
        invariant entries == old(entries) + Latest(items[..offset])
      {
        var end := if offset + UPSERT_BATCH < reach then offset + UPSERT_BATCH else reach;
        BatchAdds(old(entries), items, offset, end);
        Upsert(items[offset..end]);
        offset := end;
      }
    }

    /** Adding raises once `stops` items are stored, in the middle of a batch or between two. */
    method Add(chunks: seq<Chunk>, stops: Option<nat>) returns (raised: bool, added: nat)
      modifies this
      ensures raised <==> stops.Some? && stops.value < |Latest(chunks)|
      ensures !raised ==> entries == old(entries) + Latest(chunks) && added == |Latest(chunks)|
      ensures raised ==> PartlyAdded(old(entries), chunks, entries)
    {
      var items := Unique(chunks);
      DistinctAreCounted(items);
      raised := stops.Some? && stops.value < |items|;
      var reach := if raised then stops.value else |items|;
      StoredPartly(entries, chunks, items, reach);
      StoreBatches(items, reach);
      assert items[..|items|] == items;
      added := reach;
    }

    /** Nothing is left of those paths, and every other path holds what it held. When the request
        raises, the entries `gone` of those paths may be gone. */
    method DeletePaths(paths: set<string>, gone: Option<set<ChunkId>>) returns (raised: bool)
      modifies this
      ensures raised <==> gone.Some? && paths != {}
      ensures forall path | path !in paths :: At(entries, path) == At(old(entries), path)
      ensures !raised ==> forall path | path in paths :: At(entries, path) == map[]
      ensures raised ==> forall path | path in paths :: At(entries, path) == At(old(entries), path) - gone.value
    {
      raised := gone.Some? && paths != {};
      var keeps := raised;
      entries := map id | id in entries && (id.path !in paths || (keeps && id !in gone.value)) :: entries[id];
      forall path | path !in paths
        ensures At(entries, path) == At(old(entries), path)
      {
        assert forall id :: id in At(entries, path) <==> id in At(old(entries), path);
      }
    }

    /** Delete, then add: nothing of the file's old chunks lingers, other files keep theirs, whatever
        raises. */
    method ReplaceFile(path: string, chunks: seq<Chunk>, gone: Option<set<ChunkId>>, stops: Option<nat>) returns (raised: bool, added: nat)
      requires forall c | c in chunks :: c.path == path
      modifies this
      ensures raised <==> gone.Some? || (stops.Some? && stops.value < |Latest(chunks)|)
      ensures !raised ==> At(entries, path) == Latest(chunks) && added == |Latest(chunks)|
      ensures forall other | other != path :: At(entries, other) == At(old(entries), other)
    {
      added := 0;
      raised := DeletePaths({path}, gone);
      if raised {
        return;
      }
      AtReplaced(entries, path, chunks);
      ghost var emptied := entries;
      raised, added := Add(chunks, stops);
      if raised {
        PartOfOneFile(emptied, chunks, entries, path);
      }
    }
  }

  /** `{id: chunk for chunk in chunks}`: an id keeps its first place and takes its last value. */
  method Unique(chunks: seq<Chunk>) returns (items: seq<Chunk>)
    ensures Distinct(items) && Latest(items) == Latest(chunks) && forall c | c in items :: c in chunks
  {
    items := [];
    for i := 0 to |chunks|
      invariant Distinct(items) && Latest(items) == Latest(chunks[..i]) && forall c | c in items :: c in chunks
    {
      PrefixLatest(chunks, i);
      if j :| 0 <= j < |items| && IdOf(items[j]) == IdOf(chunks[i]) {
        ReplacedInPlace(items, j, chunks[i]);
        items := items[j := chunks[i]];
      } else {
        Appended(items, chunks[i]);
        items := items + [chunks[i]];
      }
    }
    assert chunks[..|chunks|] == chunks;
  }
}
