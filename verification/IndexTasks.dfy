/** Full and incremental indexing of a repository's default branch. */
module IndexTasks {
  import opened Rows
  import opened ChangedChunks
  import opened ChromaStore

  /** The text files of a commit; a path that is missing, binary or too large is not in the map. */
  type Tree = map<string, string>

  datatype FileStatus = Removed | Renamed | Other

  datatype CommitFile = CommitFile(path: string, status: FileStatus, previous: Option<string>)

  /** `skip` is the path filter, `chunk` the chunker. */
  datatype Chunker = Chunker(skip: string -> bool, chunk: (string, string) -> seq<Chunk>)
  {
    ghost predicate Valid() {
      forall path, content, c | c in chunk(path, content) :: c.path == path
    }
  }

  /** What a rebuild stores for one path. */
  function Stored(k: Chunker, tree: Tree, path: string): Entries {
    if k.skip(path) || path !in tree then map[] else Latest(k.chunk(path, tree[path]))
  }

  /** The index is the rebuild of `tree`. */
  ghost predicate Mirrors(k: Chunker, entries: Entries, tree: Tree) {
    forall path :: At(entries, path) == Stored(k, tree, path)
  }

  lemma MirrorsIsUnique(k: Chunker, a: Entries, b: Entries, tree: Tree)
    requires Mirrors(k, a, tree) && Mirrors(k, b, tree)
    ensures a == b
  {
    forall id
      ensures id in a <==> id in b
      ensures id in a ==> a[id] == b[id]
    {
      assert At(a, id.path) == At(b, id.path);
      assert id in At(a, id.path) <==> id in a;
      assert id in At(b, id.path) <==> id in b;
    }
  }

  // ---- the fold over commits ----

  datatype Touched = Touched(changed: set<string>, removed: set<string>)

  function Source(f: CommitFile): Option<string> {
    if f.status.Renamed? && f.previous.Some? && f.previous.value != "" then f.previous else None
  }

  function TouchFile(t: Touched, f: CommitFile): Touched {
    if f.status.Removed? then Touched(t.changed - {f.path}, t.removed + {f.path})
    else if Source(f).Some? then
      Touched((t.changed + {f.path}) - {Source(f).value}, (t.removed - {f.path}) + {Source(f).value})
    else Touched(t.changed + {f.path}, t.removed - {f.path})
  }

  function TouchFiles(t: Touched, files: seq<CommitFile>): Touched {
    if files == [] then t else TouchFile(TouchFiles(t, files[..|files| - 1]), files[|files| - 1])
  }

  function TouchCommits(commits: seq<seq<CommitFile>>): Touched {
    if commits == [] then Touched({}, {}) else TouchFiles(TouchCommits(commits[..|commits| - 1]), commits[|commits| - 1])
  }

  lemma {:induction false} FilesKeepDisjoint(t: Touched, files: seq<CommitFile>)
    requires t.changed !! t.removed
    ensures TouchFiles(t, files).changed !! TouchFiles(t, files).removed
  {
    if files != [] {
      FilesKeepDisjoint(t, files[..|files| - 1]);
    }
  }

  /** No path is both re-indexed and dropped, whatever the commits list. */
  lemma {:induction false} ChangedAndRemovedAreDisjoint(commits: seq<seq<CommitFile>>)
    ensures TouchCommits(commits).changed !! TouchCommits(commits).removed
  {
    if commits != [] {
      ChangedAndRemovedAreDisjoint(commits[..|commits| - 1]);
      FilesKeepDisjoint(TouchCommits(commits[..|commits| - 1]), commits[|commits| - 1]);
    }
  }

  // ---- what commits say about trees ----

  ghost predicate Owns(files: seq<CommitFile>, path: string) {
    exists i :: 0 <= i < |files| && files[i].path == path
  }

  /** The entry renames a file away from `path`. */
  predicate RenamesAway(f: CommitFile, path: string) {
    f.status == Renamed && f.previous == Some(path) && path != ""
  }

  ghost predicate Leaves(files: seq<CommitFile>, path: string) {
    exists i :: 0 <= i < |files| && RenamesAway(files[i], path)
  }

  ghost predicate Mentions(files: seq<CommitFile>, path: string) {
    Owns(files, path) || Leaves(files, path)
  }

  /** The file list of the commit leading from `before` to `after`. A path is listed once; a removed
      one is gone, and so is a rename's source unless the commit puts another file there. */
  ghost predicate Describes(before: Tree, files: seq<CommitFile>, after: Tree) {
    && (forall i, j | 0 <= i < j < |files| :: files[i].path != files[j].path)
    && (forall path | !Mentions(files, path) :: path in before <==> path in after)
    && (forall path | !Mentions(files, path) && path in before && path in after :: before[path] == after[path])
    && (forall i | 0 <= i < |files| && files[i].status == Removed :: files[i].path !in after)
    && (forall path | Leaves(files, path) && !Owns(files, path) :: path !in after)
  }

  ghost predicate Linear(trees: seq<Tree>, commits: seq<seq<CommitFile>>) {
    && |trees| == |commits| + 1
    && forall i | 0 <= i < |commits| :: Describes(trees[i], commits[i], trees[i + 1])
  }

  /** The commit lists a file at `path`, and then, in the same or a later entry, a rename away from it. */
  ghost predicate Crossed(files: seq<CommitFile>, path: string) {
    exists i, j :: 0 <= i <= j < |files| && files[i].path == path && files[i].status != Removed && RenamesAway(files[j], path)
  }

  /** `path` is crossed in the last commit to mention it. */
  ghost predicate Overlooked(commits: seq<seq<CommitFile>>, path: string) {
    commits != [] &&
    var n := |commits| - 1;
    if Mentions(commits[n], path) then Crossed(commits[n], path) else Overlooked(commits[..n], path)
  }

  // ---- the fold against the trees ----

  datatype Verdict = Untouched | Live | Gone

  /** What the last entry about `path` says. */
  function Last(files: seq<CommitFile>, path: string): Verdict {
    if files == [] then Untouched
    else
      var f := files[|files| - 1];
      if Source(f) == Some(path) then Gone
      else if f.path == path then (if f.status.Removed? then Gone else Live)
      else Last(files[..|files| - 1], path)
  }

  lemma {:induction false} FoldFollowsLast(t: Touched, files: seq<CommitFile>, path: string)
    ensures path in TouchFiles(t, files).changed <==> Last(files, path).Live? || (Last(files, path).Untouched? && path in t.changed)
    ensures path in TouchFiles(t, files).removed <==> Last(files, path).Gone? || (Last(files, path).Untouched? && path in t.removed)
  {
    if files != [] {
      FoldFollowsLast(t, files[..|files| - 1], path);
    }
  }

  lemma {:induction false} LastFindsMentions(files: seq<CommitFile>, path: string)
    ensures Last(files, path).Untouched? <==> !Mentions(files, path)
    ensures Last(files, path).Live? ==> Owns(files, path)
  {
    if files != [] {
      var n := |files| - 1;
      LastFindsMentions(files[..n], path);
      assert Owns(files, path) <==> Owns(files[..n], path) || files[n].path == path;
      assert Leaves(files, path) <==> Leaves(files[..n], path) || Source(files[n]) == Some(path);
    }
  }

  ghost predicate Speaks(f: CommitFile, path: string) {
    f.path == path || Source(f) == Some(path)
  }

  lemma {:induction false} LastEntry(files: seq<CommitFile>, path: string) returns (i: nat)
    requires !Last(files, path).Untouched?
    ensures i < |files| && Speaks(files[i], path) && forall j | i < j < |files| :: !Speaks(files[j], path)
    ensures Last(files, path).Gone? <==> Source(files[i]) == Some(path) || files[i].status.Removed?
  {
    i := |files| - 1;
    if !Speaks(files[i], path) {
      i := LastEntry(files[..i], path);
    }
  }

  /** A path the fold drops is gone from the tree, unless the commit crosses it. */
  lemma DroppedPathIsGone(before: Tree, files: seq<CommitFile>, after: Tree, path: string)
    requires Describes(before, files, after) && Mentions(files, path)
    ensures Crossed(files, path) ==> Last(files, path).Gone?
    ensures Last(files, path).Gone? && !Crossed(files, path) ==> path !in after
  {
    LastFindsMentions(files, path);
    var e := LastEntry(files, path);
    if Crossed(files, path) {
      var i, j :| 0 <= i <= j < |files| && files[i].path == path && files[i].status != Removed && RenamesAway(files[j], path);
      assert Speaks(files[j], path);
    } else if Last(files, path).Gone? && Owns(files, path) {
      var o :| 0 <= o < |files| && files[o].path == path;
      assert Speaks(files[o], path);
      assert files[o].status.Removed?;
    } else if Last(files, path).Gone? {
      assert Leaves(files, path);
    }
  }

  predicate SameAt(a: Tree, b: Tree, path: string) {
    (path in a <==> path in b) && (path in a && path in b ==> a[path] == b[path])
  }

  lemma {:induction false} FoldFollowsTrees(trees: seq<Tree>, commits: seq<seq<CommitFile>>, path: string)
    requires Linear(trees, commits)
    ensures var t := TouchCommits(commits); var end := trees[|commits|];
            && (Overlooked(commits, path) ==> path in t.removed)
            && (path in t.removed ==> Overlooked(commits, path) || path !in end)
            && (path !in t.removed && path !in t.changed ==> SameAt(trees[0], end, path))
    decreases |commits|
  {
    if commits != [] {
      var n := |commits| - 1;
      var files := commits[n];
      FoldFollowsTrees(trees[..n + 1], commits[..n], path);
      FoldFollowsLast(TouchCommits(commits[..n]), files, path);
      LastFindsMentions(files, path);
      if Mentions(files, path) {
        DroppedPathIsGone(trees[n], files, trees[n + 1], path);
      }
    }
  }

  // ---- update_index ----

  /** What the incremental update does to the index, path by path. A skipped path keeps its chunks. */
  ghost predicate Updated(k: Chunker, before: Entries, after: Entries, t: Touched, end: Tree) {
    forall path :: At(after, path) ==
      if path in t.removed then map[]
      else if path in t.changed && !k.skip(path) then Stored(k, end, path)
      else At(before, path)
  }

  /** Right on every path the commits leave alone, and empty on skipped ones. An interrupted update
      leaves the index in this state, so running it again is as good as the first run. */
  ghost predicate Settled(k: Chunker, entries: Entries, t: Touched, start: Tree) {
    forall path | k.skip(path) || path !in t.changed + t.removed :: At(entries, path) == Stored(k, start, path)
  }

  /** The incremental update is the rebuild at the last commit, exactly when no overlooked path has
      anything to index there. */
  lemma UpdateIsRebuild(k: Chunker, before: Entries, after: Entries, trees: seq<Tree>, commits: seq<seq<CommitFile>>)
    requires Linear(trees, commits) && Settled(k, before, TouchCommits(commits), trees[0])
    requires Updated(k, before, after, TouchCommits(commits), trees[|commits|])
    ensures Mirrors(k, after, trees[|commits|]) <==>
              forall path | Overlooked(commits, path) :: Stored(k, trees[|commits|], path) == map[]
  {
    var end := trees[|commits|];
    ChangedAndRemovedAreDisjoint(commits);
    forall path
      ensures if Overlooked(commits, path) then At(after, path) == map[] else At(after, path) == Stored(k, end, path)
    {
      FoldFollowsTrees(trees, commits, path);
    }
  }

  /** A commit that renames `a` to `b` and lists a new `a` first drops the new file's chunks. */
  lemma RenamedAndReplaced(k: Chunker, content: string, before: Entries, after: Entries)
    requires !k.skip("a") && k.chunk("a", content) != []
    requires var trees := [map["a" := content], map["a" := content, "b" := content]];
             var commits := [[CommitFile("a", Other, None), CommitFile("b", Renamed, Some("a"))]];
             Settled(k, before, TouchCommits(commits), trees[0]) && Updated(k, before, after, TouchCommits(commits), trees[1])
    ensures !Mirrors(k, after, map["a" := content, "b" := content])
  {
    var files := [CommitFile("a", Other, None), CommitFile("b", Renamed, Some("a"))];
    var trees := [map["a" := content], map["a" := content, "b" := content]];
    assert files[0].path == "a" && files[1].path == "b" && Source(files[1]) == Some("a");
    assert Owns(files, "a") && Owns(files, "b");
    assert Describes(trees[0], files, trees[1]);
    assert Crossed(files, "a") && Overlooked([files], "a");
    UpdateIsRebuild(k, before, after, trees, [files]);
    assert IdOf(k.chunk("a", content)[|k.chunk("a", content)| - 1]) in Stored(k, trees[1], "a");
  }

  datatype IndexStatus = NotIndexed | Ready | Failed

  class Repo {
    var status: IndexStatus
    var indexedSha: Option<string>
    var indexedChunks: nat
  }

  /** The update with the paths in `todo` still to come. */
  ghost predicate Halfway(k: Chunker, before: Entries, after: Entries, t: Touched, todo: set<string>, end: Tree) {
    Updated(k, before, after, t.(changed := t.changed - todo), end)
  }

  lemma DropRemoved(k: Chunker, before: Entries, after: Entries, t: Touched, end: Tree)
    requires t.changed !! t.removed
    requires forall path | path in t.removed :: At(after, path) == map[]
    requires forall path | path !in t.removed :: At(after, path) == At(before, path)
    ensures Halfway(k, before, after, t, t.changed, end)
  {
  }

  lemma TakeOne(k: Chunker, before: Entries, now: Entries, next: Entries, t: Touched, todo: set<string>, path: string, end: Tree)
    requires t.changed !! t.removed && path in todo && todo <= t.changed && Halfway(k, before, now, t, todo, end)
    requires if k.skip(path) then next == now
             else At(next, path) == Stored(k, end, path) && forall other | other != path :: At(next, other) == At(now, other)
    ensures Halfway(k, before, next, t, todo - {path}, end)
  {
    var t0, t1 := t.changed - todo, t.changed - (todo - {path});
    assert t1 == t0 + {path};
  }

  lemma HalfwayStaysSettled(k: Chunker, before: Entries, now: Entries, t: Touched, todo: set<string>, end: Tree, start: Tree)
    requires Halfway(k, before, now, t, todo, end) && Settled(k, before, t, start)
    ensures Settled(k, now, t, start)
  {
  }

  /** What goes wrong at one changed path, if anything: fetching its content, deleting its entries, or
      storing the new ones. */
  datatype Fault = Clean | AtFetch | AtDelete(gone: set<ChunkId>) | AtUpsert(stored: nat)

  predicate Breaks(k: Chunker, end: Tree, path: string, fault: Fault) {
    fault.AtFetch? || fault.AtDelete? || (fault.AtUpsert? && path in end && fault.stored < |Latest(k.chunk(path, end[path]))|)
  }

  /** Whatever happened to a path the commits touch, to the paths removed before or to one changed. */
  lemma BrokenStaysSettled(k: Chunker, now: Entries, next: Entries, t: Touched, start: Tree)
    requires Settled(k, now, t, start)
    requires forall path | path !in t.changed + t.removed :: At(next, path) == At(now, path)
    requires forall path | k.skip(path) && path in t.changed + t.removed :: At(next, path).Keys <= At(now, path).Keys
    ensures Settled(k, next, t, start)
  {
    forall path | k.skip(path) || path !in t.changed + t.removed
      ensures At(next, path) == Stored(k, start, path)
    {
      assert At(now, path) == Stored(k, start, path);
    }
  }

  /** `end` is the tree at the push's final commit. The update breaks off at the first thing that goes
      wrong: `lost` is what a removal that raises deletes all the same. The changed paths are taken in
      any order. */
  method UpdateIndex(k: Chunker, repo: Repo, index: CodeIndex, commits: seq<seq<CommitFile>>, afterSha: string, end: Tree,
                     lost: Option<set<ChunkId>>, faults: string -> Fault) returns (done: bool)
    requires k.Valid()
    modifies repo`indexedSha, repo`indexedChunks, index
    ensures done <==> repo.status.Ready? && (lost.None? || TouchCommits(commits).removed == {}) &&
                      forall path | path in TouchCommits(commits).changed && !k.skip(path) :: !Breaks(k, end, path, faults(path))
    ensures !repo.status.Ready? ==> index.entries == old(index.entries)
    ensures done ==> Updated(k, old(index.entries), index.entries, TouchCommits(commits), end)
    ensures done ==> repo.indexedSha == Some(afterSha) && repo.indexedChunks == |index.entries|
    ensures !done ==> repo.indexedSha == old(repo.indexedSha) && repo.indexedChunks == old(repo.indexedChunks)
    ensures forall start | Settled(k, old(index.entries), TouchCommits(commits), start) :: Settled(k, index.entries, TouchCommits(commits), start)
  {
    if !repo.status.Ready? {
      return false;
    }
    var t := Fold(commits);
    ChangedAndRemovedAreDisjoint(commits);
    var raised := index.DeletePaths(t.removed, lost);
    if raised {
      forall start | Settled(k, old(index.entries), t, start)
        ensures Settled(k, index.entries, t, start)
      {
        BrokenStaysSettled(k, old(index.entries), index.entries, t, start);
      }
      return false;
    }
    DropRemoved(k, old(index.entries), index.entries, t, end);
    var todo := t.changed;
    while todo != {}
      invariant todo <= t.changed
      invariant forall path | path in t.changed - todo && !k.skip(path) :: !Breaks(k, end, path, faults(path))
      invariant Halfway(k, old(index.entries), index.entries, t, todo, end)
      invariant repo.indexedSha == old(repo.indexedSha) && repo.indexedChunks == old(repo.indexedChunks)
    {
      var path :| path in todo;
      ghost var now := index.entries;
      if !k.skip(path) {
        raised := UpdatePath(k, index, path, end, faults(path));
        if raised {
          forall start | Settled(k, old(index.entries), t, start)
            ensures Settled(k, index.entries, t, start)
          {
            HalfwayStaysSettled(k, old(index.entries), now, t, todo, end, start);
            BrokenStaysSettled(k, now, index.entries, t, start);
          }
          return false;
        }
      }
      TakeOne(k, old(index.entries), now, index.entries, t, todo, path, end);
      todo := todo - {path};
    }
    forall start | Settled(k, old(index.entries), t, start)
      ensures Settled(k, index.entries, t, start)
    {
      HalfwayStaysSettled(k, old(index.entries), index.entries, t, todo, end, start);
    }
    assert t.changed - todo == t.changed;
    repo.indexedSha, repo.indexedChunks := Some(afterSha), |index.entries|;
    done := true;
  }

  /** One pass of the loop: the content at the final commit replaces the file's entries, or its absence
      deletes them. */
  method UpdatePath(k: Chunker, index: CodeIndex, path: string, end: Tree, fault: Fault) returns (raised: bool)
    requires k.Valid() && !k.skip(path)
    modifies index
    ensures raised <==> Breaks(k, end, path, fault)
    ensures !raised ==> At(index.entries, path) == Stored(k, end, path)
    ensures forall other | other != path :: At(index.entries, other) == At(old(index.entries), other)
  {
    if fault.AtFetch? {
      return true;
    }
    var gone := if fault.AtDelete? then Some(fault.gone) else None;
    if path in end {
      var added;
      raised, added := index.ReplaceFile(path, k.chunk(path, end[path]), gone, if fault.AtUpsert? then Some(fault.stored) else None);
    } else {
      raised := index.DeletePaths({path}, gone);
    }
  }

  method Fold(commits: seq<seq<CommitFile>>) returns (t: Touched)
    ensures t == TouchCommits(commits)
  {
    var changed, removed: set<string> := {}, {};
    for i := 0 to |commits|
      invariant Touched(changed, removed) == TouchCommits(commits[..i])
    {
      assert commits[..i + 1][..i] == commits[..i];
      for j := 0 to |commits[i]|
        invariant Touched(changed, removed) == TouchFiles(TouchCommits(commits[..i]), commits[i][..j])
      {
        assert commits[i][..j + 1][..j] == commits[i][..j];
        var f := commits[i][j];
        if f.status.Removed? {
          removed := removed + {f.path};
          changed := changed - {f.path};
        } else {
          changed := changed + {f.path};
          removed := removed - {f.path};
          if Source(f).Some? {
            removed := removed + {Source(f).value};
            changed := changed - {Source(f).value};
          }
        }
      }
      assert commits[i][..|commits[i]|] == commits[i];
    }
    assert commits[..|commits|] == commits;
    t := Touched(changed, removed);
  }

  // ---- index_repo ----

  datatype RepoFile = RepoFile(path: string, content: string)

  predicate OnePathEach(files: seq<RepoFile>) {
    forall i, j | 0 <= i < j < |files| :: files[i].path != files[j].path
  }

  function TreeOf(files: seq<RepoFile>): Tree {
    if files == [] then map[]
    else TreeOf(files[..|files| - 1])[files[|files| - 1].path := files[|files| - 1].content]
  }

  function AllChunks(k: Chunker, files: seq<RepoFile>): seq<Chunk> {
    if files == [] then []
    else
      AllChunks(k, files[..|files| - 1]) + FileChunks(k, files[|files| - 1])
  }

  function FileChunks(k: Chunker, f: RepoFile): seq<Chunk> {
    if k.skip(f.path) then [] else k.chunk(f.path, f.content)
  }

  lemma StoresMore(k: Chunker, entries: Entries, tree: Tree, f: RepoFile, more: Entries, path: string)
    requires At(entries, path) == Stored(k, tree, path) && f.path !in tree && more == Stored(k, tree[f.path := f.content], f.path)
    requires At(more, path) == if path == f.path then more else map[]
    ensures At(entries + more, path) == Stored(k, tree[f.path := f.content], path)
  {
    AtUnion(entries, more, path);
    if path == f.path {
      assert map[] + more == more;
    } else {
      assert At(entries, path) + map[] == At(entries, path);
    }
  }

  lemma MirrorOneMore(k: Chunker, entries: Entries, tree: Tree, f: RepoFile, more: seq<Chunk>)
    requires k.Valid() && Mirrors(k, entries, tree) && f.path !in tree
    requires more == FileChunks(k, f)
    ensures Mirrors(k, entries + Latest(more), tree[f.path := f.content])
    ensures entries.Keys !! Latest(more).Keys
  {
    forall path
      ensures At(entries + Latest(more), path) == Stored(k, tree[f.path := f.content], path)
    {
      AtOnly(more, f.path, path);
      StoresMore(k, entries, tree, f, Latest(more), path);
    }
    assert At(entries, f.path) == map[];
    forall id | id in Latest(more)
      ensures id !in entries
    {
      LatestKeys(more);
      assert id in entries ==> id in At(entries, f.path);
    }
  }

  /** Chunks of different files never share an id, so the chunks of all files are what each stores. */
  lemma {:induction false} AllChunksMirror(k: Chunker, files: seq<RepoFile>)
    requires k.Valid() && OnePathEach(files)
    ensures Mirrors(k, Latest(AllChunks(k, files)), TreeOf(files))
  {
    if files != [] {
      var n := |files| - 1;
      AllChunksMirror(k, files[..n]);
      TreePaths(files[..n], files[n].path);
      var more := FileChunks(k, files[n]);
      LatestAppend(AllChunks(k, files[..n]), more);
      MirrorOneMore(k, Latest(AllChunks(k, files[..n])), TreeOf(files[..n]), files[n], more);
    }
  }

  lemma {:induction false} TreePaths(files: seq<RepoFile>, path: string)
    ensures path in TreeOf(files) <==> exists i :: 0 <= i < |files| && files[i].path == path
  {
    if files != [] {
      var n := |files| - 1;
      TreePaths(files[..n], path);
      assert files[n].path == path || (path in TreeOf(files) <==> path in TreeOf(files[..n]));
      if i :| 0 <= i < n && files[i].path == path {
        assert files[..n][i].path == path;
      }
    }
  }

  const ADD_BATCH: nat := 256

  /** The chunks added so far, to what a failed reset left, and those waiting are the chunks of `files`. */
  ghost predicate Adding(k: Chunker, left: Entries, entries: Entries, batch: seq<Chunk>, files: seq<RepoFile>, total: nat) {
    var all := Latest(AllChunks(k, files));
    left + all == entries + Latest(batch) && Latest(batch).Keys <= all.Keys && |all| == total + |Latest(batch)|
  }

  lemma FlushKeepsAdding(k: Chunker, left: Entries, entries: Entries, batch: seq<Chunk>, files: seq<RepoFile>, total: nat)
    requires Adding(k, left, entries, batch, files, total)
    ensures Adding(k, left, entries + Latest(batch), [], files, total + |Latest(batch)|)
  {
  }

  lemma ExtendKeepsAdding(k: Chunker, left: Entries, entries: Entries, batch: seq<Chunk>, files: seq<RepoFile>, i: nat, total: nat)
    requires k.Valid() && OnePathEach(files) && i < |files| && Adding(k, left, entries, batch, files[..i], total)
    ensures Adding(k, left, entries, batch + FileChunks(k, files[i]), files[..i + 1], total)
    ensures k.skip(files[i].path) ==> batch + FileChunks(k, files[i]) == batch
  {
    var all, more := AllChunks(k, files[..i]), FileChunks(k, files[i]);
    assert files[..i + 1][..i] == files[..i];
    AllChunksMirror(k, files[..i]);
    TreePaths(files[..i], files[i].path);
    LatestAppend(all, more);
    LatestAppend(batch, more);
    UpdateAssociates(left, Latest(all), Latest(more));
    UpdateAssociates(entries, Latest(batch), Latest(more));
    MirrorOneMore(k, Latest(all), TreeOf(files[..i]), files[i], more);
    UnionSize(Latest(all), Latest(more));
    UnionSize(Latest(batch), Latest(more));
  }

  /** A rebuild stores again everything it finds left over. */
  ghost predicate NothingOutdated(k: Chunker, left: Entries, tree: Tree) {
    forall id | id in left :: id in Stored(k, tree, id.path)
  }

  lemma MirrorHolds(k: Chunker, all: Entries, tree: Tree, id: ChunkId)
    requires Mirrors(k, all, tree)
    ensures id in Stored(k, tree, id.path) <==> id in all
  {
    assert At(all, id.path) == Stored(k, tree, id.path);
    assert id in At(all, id.path) <==> id in all;
  }

  lemma OutdatedStays(k: Chunker, left: Entries, all: Entries, tree: Tree, id: ChunkId)
    requires Mirrors(k, all, tree) && id in left && id !in Stored(k, tree, id.path)
    ensures !Mirrors(k, left + all, tree) && |left + all| > |all|
  {
    MirrorHolds(k, all, tree, id);
    assert id in At(left + all, id.path);
    MoreKeys(left, all, id);
  }

  /** Added to what a failed reset left, the rebuild mirrors its tree exactly when nothing left over is
      outdated; the same holds of the count. */
  lemma RebuildOver(k: Chunker, left: Entries, all: Entries, tree: Tree)
    requires Mirrors(k, all, tree)
    ensures Mirrors(k, left + all, tree) <==> NothingOutdated(k, left, tree)
    ensures |left + all| == |all| <==> NothingOutdated(k, left, tree)
  {
    if NothingOutdated(k, left, tree) {
      forall id | id in left
        ensures id in all
      {
        MirrorHolds(k, all, tree, id);
      }
      assert left + all == all;
    } else {
      var id :| id in left && id !in Stored(k, tree, id.path);
      OutdatedStays(k, left, all, tree, id);
    }
  }

  lemma MoreKeys(left: Entries, all: Entries, id: ChunkId)
    requires id in left && id !in all
    ensures |left + all| > |all|
  {
    var one := map[id := left[id]];
    UnionSize(all, one);
    assert (all + one).Keys <= (left + all).Keys;
    Subset((all + one).Keys, (left + all).Keys);
    assert |(all + one).Keys| == |all + one| && |(left + all).Keys| == |left + all|;
  }

  lemma {:induction false} Subset(a: set<ChunkId>, b: set<ChunkId>)
    requires a <= b
    ensures |a| <= |b|
  {
    assert b == a + (b - a);
  }

  lemma DoneAdding(k: Chunker, left: Entries, entries: Entries, files: seq<RepoFile>, total: nat)
    requires k.Valid() && OnePathEach(files) && Adding(k, left, entries, [], files, total)
    ensures Mirrors(k, entries, TreeOf(files)) <==> NothingOutdated(k, left, TreeOf(files))
    ensures total == |entries| <==> NothingOutdated(k, left, TreeOf(files))
  {
    AllChunksMirror(k, files);
    RebuildOver(k, left, Latest(AllChunks(k, files)), TreeOf(files));
    assert entries + map[] == entries;
  }

  /** `files` is what the source yields before it ends, or, when something raises, before that. After a
      reset that failed unnoticed the repository is READY all the same. */
  method IndexRepo(k: Chunker, repo: Repo, index: CodeIndex, resetFails: bool, files: seq<RepoFile>, breaks: bool) returns (total: nat)
    requires k.Valid() && OnePathEach(files)
    modifies repo, index
    ensures repo.status == if breaks then IndexStatus.Failed else Ready
    ensures !breaks ==> (Mirrors(k, index.entries, TreeOf(files)) <==>
                           (resetFails ==> NothingOutdated(k, old(index.entries), TreeOf(files))))
    ensures !breaks ==> (total == |index.entries| <==> (resetFails ==> NothingOutdated(k, old(index.entries), TreeOf(files))))
    ensures !breaks ==> repo.indexedSha == None && repo.indexedChunks == total
    ensures breaks ==> repo.indexedSha == old(repo.indexedSha) && repo.indexedChunks == old(repo.indexedChunks)
  {
    index.Reset(resetFails);
    ghost var left := index.entries;
    total := 0;
    var batch := [];
    for i := 0 to |files|
      invariant Adding(k, left, index.entries, batch, files[..i], total)
      invariant repo.indexedSha == old(repo.indexedSha) && repo.indexedChunks == old(repo.indexedChunks)
    {
      ExtendKeepsAdding(k, left, index.entries, batch, files, i, total);
      if k.skip(files[i].path) {
        continue;
      }
      batch := batch + k.chunk(files[i].path, files[i].content);
      if |batch| >= ADD_BATCH {
        FlushKeepsAdding(k, left, index.entries, batch, files[..i + 1], total);
        var _, added := index.Add(batch, None);
        total, batch := total + added, [];
      }
    }
    if breaks {
      repo.status := IndexStatus.Failed;
      return;
    }
    assert files[..|files|] == files;
    FlushKeepsAdding(k, left, index.entries, batch, files, total);
    var _, added := index.Add(batch, None);
    total := total + added;
    DoneAdding(k, left, index.entries, files, total);
    repo.status, repo.indexedSha, repo.indexedChunks := Ready, None, total;
  }
}
