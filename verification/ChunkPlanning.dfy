/** Cutting the files of a manifest into the numbered chunks of a transfer. */
module ChunkPlanning {

  datatype ChunkPlan = ChunkPlan(file: nat, offset: nat, length: nat)

  function PlanFile(file: nat, size: nat, chunkSize: nat, offset: nat): seq<ChunkPlan>
    requires chunkSize > 0
    decreases size - offset
  {
    if offset >= size then []
    else
      [ChunkPlan(file, offset, if chunkSize < size - offset then chunkSize else size - offset)]
      + PlanFile(file, size, chunkSize, offset + chunkSize)
  }

  /** Every chunk of every file, in order; an empty file has none. */
  function Plan(sizes: seq<nat>, chunkSize: nat): seq<ChunkPlan>
    requires chunkSize > 0
  {
    if sizes == [] then []
    else
      var last := |sizes| - 1;
      Plan(sizes[..last], chunkSize) + PlanFile(last, sizes[last], chunkSize, 0)
  }

  /** A chunk size of zero would never get past the first byte. */
  method PlanChunks(sizes: seq<nat>, chunkSize: nat) returns (plan: seq<ChunkPlan>)
    requires chunkSize > 0
    ensures plan == Plan(sizes, chunkSize)
  {
    plan := [];
    var i := 0;
    while i < |sizes|
      invariant i <= |sizes| && plan == Plan(sizes[..i], chunkSize)
    {
      var offset := 0;
      ghost var before := plan;
      while offset < sizes[i]
        invariant plan + PlanFile(i, sizes[i], chunkSize, offset) == before + PlanFile(i, sizes[i], chunkSize, 0)
        decreases sizes[i] - offset
      {
        var length := if chunkSize < sizes[i] - offset then chunkSize else sizes[i] - offset;
        ghost var rest := PlanFile(i, sizes[i], chunkSize, offset + chunkSize);
        assert plan + ([ChunkPlan(i, offset, length)] + rest) == (plan + [ChunkPlan(i, offset, length)]) + rest;
        plan := plan + [ChunkPlan(i, offset, length)];
        offset := offset + chunkSize;
      }
      assert sizes[..i + 1][..i] == sizes[..i];
      i := i + 1;
    }
    assert sizes[..i] == sizes;
  }

  // -- The plan tiles the files ---------------------------------------------

  predicate Covers(c: ChunkPlan, file: nat, at: nat) { c.file == file && c.offset <= at < c.offset + c.length }

  predicate Within(c: ChunkPlan, sizes: seq<nat>, chunkSize: nat) {
    c.file < |sizes| && 0 < c.length <= chunkSize && c.offset + c.length <= sizes[c.file]
  }

  /** `a` ends before `b` begins. */
  predicate Before(a: ChunkPlan, b: ChunkPlan) {
    a.file < b.file || (a.file == b.file && a.offset + a.length <= b.offset)
  }

  ghost predicate CoveredBySome(plan: seq<ChunkPlan>, file: nat, at: nat) {
    exists k :: 0 <= k < |plan| && Covers(plan[k], file, at)
  }

  ghost predicate Tiles(plan: seq<ChunkPlan>, sizes: seq<nat>, chunkSize: nat) {
    && (forall k :: 0 <= k < |plan| ==> Within(plan[k], sizes, chunkSize))
    && (forall j, k :: 0 <= j < k < |plan| ==> Before(plan[j], plan[k]))
    && (forall file, at :: 0 <= file < |sizes| && 0 <= at < sizes[file] ==> CoveredBySome(plan, file, at))
  }

  /** A chunk of `file` at `offset` or later. */
  predicate Piece(c: ChunkPlan, file: nat, size: nat, chunkSize: nat, offset: nat) {
    c.file == file && offset <= c.offset && 0 < c.length <= chunkSize && c.offset + c.length <= size
  }

  /** `plan` tiles `file` from `offset` to its end. */
  ghost predicate TilesFrom(plan: seq<ChunkPlan>, file: nat, size: nat, chunkSize: nat, offset: nat) {
    && (forall k :: 0 <= k < |plan| ==> Piece(plan[k], file, size, chunkSize, offset))
    && (forall j, k :: 0 <= j < k < |plan| ==> Before(plan[j], plan[k]))
    && (forall at :: offset <= at < size ==> CoveredBySome(plan, file, at))
  }

  lemma {:induction false} PlanFileTiles(file: nat, size: nat, chunkSize: nat, offset: nat)
    requires chunkSize > 0
    ensures TilesFrom(PlanFile(file, size, chunkSize, offset), file, size, chunkSize, offset)
    decreases size - offset
  {
    if offset < size {
      var rest := PlanFile(file, size, chunkSize, offset + chunkSize);
      PlanFileTiles(file, size, chunkSize, offset + chunkSize);
      var first := ChunkPlan(file, offset, if chunkSize < size - offset then chunkSize else size - offset);
      assert PlanFile(file, size, chunkSize, offset) == [first] + rest;
      Prepended(first, rest, size, chunkSize);
    }
  }

  lemma Prepended(first: ChunkPlan, rest: seq<ChunkPlan>, size: nat, chunkSize: nat)
    requires TilesFrom(rest, first.file, size, chunkSize, first.offset + chunkSize)
    requires first.offset < size && first.length == if chunkSize < size - first.offset then chunkSize else size - first.offset
    requires chunkSize > 0
    ensures TilesFrom([first] + rest, first.file, size, chunkSize, first.offset)
  {
    var plan := [first] + rest;
    forall k | 0 <= k < |plan| ensures Piece(plan[k], first.file, size, chunkSize, first.offset) {
      assert k > 0 ==> Piece(rest[k - 1], first.file, size, chunkSize, first.offset + chunkSize);
    }
    forall j, k | 0 <= j < k < |plan| ensures Before(plan[j], plan[k]) {
      assert Piece(rest[k - 1], first.file, size, chunkSize, first.offset + chunkSize);
      assert j > 0 ==> Before(rest[j - 1], rest[k - 1]);
    }
    forall at | first.offset <= at < size ensures CoveredBySome(plan, first.file, at) {
      if at < first.offset + chunkSize {
        assert Covers(plan[0], first.file, at);
      } else {
        assert CoveredBySome(rest, first.file, at);
        var k :| 0 <= k < |rest| && Covers(rest[k], first.file, at);
        assert Covers(plan[k + 1], first.file, at);
      }
    }
  }

  /** Chunks lie in their files, in order, without overlap, and leave no byte out. */
  lemma {:induction false} PlanTiles(sizes: seq<nat>, chunkSize: nat)
    requires chunkSize > 0
    ensures Tiles(Plan(sizes, chunkSize), sizes, chunkSize)
  {
    if sizes != [] {
      var last := |sizes| - 1;
      var front, back := Plan(sizes[..last], chunkSize), PlanFile(last, sizes[last], chunkSize, 0);
      var plan := Plan(sizes, chunkSize);
      PlanTiles(sizes[..last], chunkSize);
      PlanFileTiles(last, sizes[last], chunkSize, 0);
      assert forall k :: 0 <= k < |front| ==> plan[k] == front[k];
      assert forall k :: |front| <= k < |plan| ==> plan[k] == back[k - |front|];
      forall file, at | 0 <= file < |sizes| && 0 <= at < sizes[file] ensures CoveredBySome(plan, file, at) {
        if file < last {
          assert CoveredBySome(front, file, at);
          var k :| 0 <= k < |front| && Covers(front[k], file, at);
          assert Covers(plan[k], file, at);
        } else {
          assert CoveredBySome(back, file, at);
          var k :| 0 <= k < |back| && Covers(back[k], file, at);
          assert Covers(plan[|front| + k], file, at);
        }
      }
    }
  }

  /** No byte is in two chunks. */
  lemma CoveredOnce(sizes: seq<nat>, chunkSize: nat, j: nat, k: nat, file: nat, at: nat)
    requires chunkSize > 0 && j < |Plan(sizes, chunkSize)| && k < |Plan(sizes, chunkSize)|
    requires Covers(Plan(sizes, chunkSize)[j], file, at) && Covers(Plan(sizes, chunkSize)[k], file, at)
    ensures j == k
  {
    PlanTiles(sizes, chunkSize);
  }

  // -- Lengths add up -------------------------------------------------------

  function FileBytes(plan: seq<ChunkPlan>, file: nat): nat {
    if plan == [] then 0
    else
      var last := plan[|plan| - 1];
      FileBytes(plan[..|plan| - 1], file) + if last.file == file then last.length else 0
  }

  lemma {:induction false} FileBytesConcat(left: seq<ChunkPlan>, right: seq<ChunkPlan>, file: nat)
    ensures FileBytes(left + right, file) == FileBytes(left, file) + FileBytes(right, file)
    decreases |right|
  {
    if right == [] {
      assert left + right == left;
    } else {
      assert (left + right)[..|left + right| - 1] == left + right[..|right| - 1];
      FileBytesConcat(left, right[..|right| - 1], file);
    }
  }

  lemma FileBytesOne(c: ChunkPlan, file: nat)
    ensures FileBytes([c], file) == if c.file == file then c.length else 0
  {
    assert [c][..0] == [];
  }

  lemma {:induction false} PlanFileBytes(file: nat, size: nat, chunkSize: nat, offset: nat, other: nat)
    requires chunkSize > 0
    ensures FileBytes(PlanFile(file, size, chunkSize, offset), other) ==
            if other == file && offset < size then size - offset else 0
    decreases size - offset
  {
    if offset < size {
      var first := ChunkPlan(file, offset, if chunkSize < size - offset then chunkSize else size - offset);
      var rest := PlanFile(file, size, chunkSize, offset + chunkSize);
      assert PlanFile(file, size, chunkSize, offset) == [first] + rest;
      FileBytesOne(first, other);
      PlanFileBytes(file, size, chunkSize, offset + chunkSize, other);
      hide FileBytes;
      FileBytesConcat([first], rest, other);
    }
  }

  /** The chunks of a file are as long together as the file. */
  lemma {:induction false} PlanBytes(sizes: seq<nat>, chunkSize: nat, file: nat)
    requires chunkSize > 0
    ensures FileBytes(Plan(sizes, chunkSize), file) == if file < |sizes| then sizes[file] else 0
  {
    if sizes != [] {
      var last := |sizes| - 1;
      PlanBytes(sizes[..last], chunkSize, file);
      PlanFileBytes(last, sizes[last], chunkSize, 0, file);
      FileBytesConcat(Plan(sizes[..last], chunkSize), PlanFile(last, sizes[last], chunkSize, 0), file);
    }
  }
}
