/** The table a biosphere uses to pick a block from its depth below the
    terrain surface: an ordered list of (block, minimum depth) entries, the
    first entry whose minimum depth is reached wins. Every lookup panics when
    no entry qualifies; here that is the `None` result. */
module BlockRangeTables {
  import opened Wrappers
  import opened Chunks

  datatype BlockRanges = BlockRanges(ranges: seq<(BlockId, nat)>)
  {
    /** Index of the first entry at or after `from` whose threshold
        `accepts` approves. */
    function FirstAccepted(accepts: nat -> bool, from: nat): (r: Option<nat>)
      requires from <= |ranges|
      ensures r.Some? ==> from <= r.value < |ranges|
      decreases |ranges| - from
    {
      if from == |ranges| then None
      else if accepts(ranges[from].1) then Some(from)
      else FirstAccepted(accepts, from + 1)
    }

    /** The scan finds the first approved entry at or after `from`, and
        finds nothing only when no entry there is approved. */
    lemma {:induction false} FirstAcceptedIsFirst(accepts: nat -> bool, from: nat)
      requires from <= |ranges|
      ensures var r := FirstAccepted(accepts, from);
              && (r.Some? ==> from <= r.value < |ranges| && accepts(ranges[r.value].1))
              && (r.Some? ==> forall i :: from <= i < r.value ==> !accepts(ranges[i].1))
              && (r.None? ==> forall i :: from <= i < |ranges| ==> !accepts(ranges[i].1))
      decreases |ranges| - from
    {
      if from < |ranges| && !accepts(ranges[from].1) {
        FirstAcceptedIsFirst(accepts, from + 1);
      }
    }

    /** The block of the first entry `accepts` approves. */
    function Lookup(accepts: nat -> bool): Option<BlockId>
    {
      match FirstAccepted(accepts, 0)
      case None => None
      case Some(i) => Some(ranges[i].0)
    }

    /** The block at `depth` below the surface of a face. */
    function FaceBlock(depth: nat): Option<BlockId>
    {
      Lookup(d => depth >= d)
    }

    /** The block of an edge voxel `jDepth` below one face and `kDepth`
        below the other: both depths must reach the threshold. */
    function EdgeBlock(jDepth: nat, kDepth: nat): Option<BlockId>
    {
      Lookup(d => jDepth >= d && kDepth >= d)
    }

    /** The block of a corner voxel, with one depth per face. */
    function CornerBlock(xDepth: nat, yDepth: nat, zDepth: nat): Option<BlockId>
    {
      Lookup(d => xDepth >= d && yDepth >= d && zDepth >= d)
    }

    /** The face lookup succeeds exactly when some threshold is reached, and
        then returns the block of the first entry whose threshold is. */
    lemma FaceBlockIsFirstReached(depth: nat)
      ensures FaceBlock(depth).Some? <==> exists i :: 0 <= i < |ranges| && ranges[i].1 <= depth
      ensures FaceBlock(depth).Some? ==>
                exists i :: 0 <= i < |ranges| && ranges[i].1 <= depth && ranges[i].0 == FaceBlock(depth).value
                            && forall i' :: 0 <= i' < i ==> ranges[i'].1 > depth
    {
      FirstAcceptedIsFirst(d => depth >= d, 0);
    }

    /** Two acceptance tests that agree on every threshold pick the same
        entry. */
    lemma {:induction false} FirstAcceptedAgree(a: nat -> bool, b: nat -> bool, from: nat)
      requires from <= |ranges|
      requires forall d :: a(d) == b(d)
      ensures FirstAccepted(a, from) == FirstAccepted(b, from)
      decreases |ranges| - from
    {
      if from < |ranges| && !a(ranges[from].1) {
        FirstAcceptedAgree(a, b, from + 1);
      }
    }

    /** An edge voxel gets the block a face voxel would get at the smaller
        of its two depths. */
    lemma EdgeBlockIsFaceBlockOfMin(jDepth: nat, kDepth: nat)
      ensures EdgeBlock(jDepth, kDepth) == FaceBlock(if jDepth <= kDepth then jDepth else kDepth)
    {
      var m := if jDepth <= kDepth then jDepth else kDepth;
      FirstAcceptedAgree(d => jDepth >= d && kDepth >= d, d => m >= d, 0);
    }

    /** A corner voxel gets the block a face voxel would get at the smallest
        of its three depths. */
    lemma CornerBlockIsFaceBlockOfMin(xDepth: nat, yDepth: nat, zDepth: nat)
      ensures CornerBlock(xDepth, yDepth, zDepth)
              == FaceBlock(if xDepth <= yDepth && xDepth <= zDepth then xDepth
                           else if yDepth <= zDepth then yDepth else zDepth)
    {
      var m := if xDepth <= yDepth && xDepth <= zDepth then xDepth
               else if yDepth <= zDepth then yDepth else zDepth;
      FirstAcceptedAgree(d => xDepth >= d && yDepth >= d && zDepth >= d, d => m >= d, 0);
    }

    /** A table holding a zero threshold never panics. */
    predicate HasSurfaceEntry()
    {
      exists i :: 0 <= i < |ranges| && ranges[i].1 == 0
    }

    lemma SurfaceEntryNeverPanics(depth: nat)
      requires HasSurfaceEntry()
      ensures FaceBlock(depth).Some?
    {
      FaceBlockIsFirstReached(depth);
      var i :| 0 <= i < |ranges| && ranges[i].1 == 0;
      assert ranges[i].1 <= depth;
    }

    /** Thresholds strictly descend along the table. */
    predicate Descending()
    {
      forall i, j :: 0 <= i < j < |ranges| ==> ranges[i].1 > ranges[j].1
    }

    /** In a descending table the entry chosen for `depth` is the one whose
        threshold is reached while the previous entry's is not. */
    lemma DescendingLookup(depth: nat, i: nat)
      requires Descending() && i < |ranges|
      requires ranges[i].1 <= depth && (i == 0 || ranges[i - 1].1 > depth)
      ensures FaceBlock(depth) == Some(ranges[i].0)
    {
      assert forall i' :: 0 <= i' < i ==> ranges[i'].1 >= ranges[i - 1].1;
      FirstAcceptedIsFirst(d => depth >= d, 0);
      var r := FirstAccepted(d => depth >= d, 0);
      assert r.Some? && r.value <= i;
    }
  }
}
