/** The render queue of one frame: the chunks that need rendering, those
    within view distance of the local player, with the nearest
    CHUNKS_PER_FRAME of them brought to the front by a partial selection
    sort, so that only they are rendered this frame. */
module RenderQueue {
  import opened Structures

  /** How many chunks are rendered per frame. */
  const CHUNKS_PER_FRAME: nat := 10

  /** A chunk waiting to be rendered: its entity, its structure, its chunk
      coordinates and its squared distance to the local player. */
  datatype Todo = Todo(entity: Entity, structureEntity: Entity, chunkLocation: (nat, nat, nat), distance: real)

  function Min(a: nat, b: nat): nat
  {
    if a < b then a else b
  }

  /** The chunks strictly nearer than one sector (`sector` is the sector's
      edge length), in their original order. */
  function InView(candidates: seq<Todo>, sector: real): (r: seq<Todo>)
    ensures |r| <= |candidates|
    ensures forall t :: t in r <==> t in candidates && t.distance < sector * sector
  {
    if candidates == [] then []
    else
      var rest := InView(candidates[1..], sector);
      assert forall t :: t in candidates <==> t == candidates[0] || t in candidates[1..];
      if candidates[0].distance < sector * sector then [candidates[0]] + rest else rest
  }

  /** The first n entries are in nondecreasing distance order and none of
      them is farther than any later entry. */
  ghost predicate NearestFirst(s: seq<Todo>, n: nat)
  {
    n <= |s| && forall i, j | 0 <= i < j < |s| && i < n :: s[i].distance <= s[j].distance
  }

  /** The index of the first entry of a[from..] with the smallest distance. */
  method IndexOfNearest(a: array<Todo>, from: nat) returns (best: nat)
    requires from < a.Length
    ensures from <= best < a.Length
    ensures forall j | from <= j < a.Length :: a[best].distance <= a[j].distance
    ensures forall j | from <= j < best :: a[best].distance < a[j].distance
  {
    var min := a[from].distance;
    best := from;
    var j := from + 1;
    while j < a.Length
      invariant from <= best < j <= a.Length
      invariant min == a[best].distance
      invariant forall k | from <= k < j :: min <= a[k].distance
      invariant forall k | from <= k < best :: min < a[k].distance
    {
      if a[j].distance < min {
        min := a[j].distance;
        best := j;
      }
      j := j + 1;
    }
  }

  /** s with entries i and j exchanged. */
  function Swap(s: seq<Todo>, i: nat, j: nat): (r: seq<Todo>)
    requires i < |s| && j < |s|
    ensures |r| == |s| && multiset(r) == multiset(s)
  {
    s[i := s[j]][j := s[i]]
  }

  /** Swapping the nearest remaining entry into slot i extends the sorted
      prefix by one. */
  lemma SwapNearest(s: seq<Todo>, i: nat, best: nat)
    requires NearestFirst(s, i) && i <= best < |s|
    requires forall j | i <= j < |s| :: s[best].distance <= s[j].distance
    ensures NearestFirst(Swap(s, i, best), i + 1)
  {
    var r := Swap(s, i, best);
    forall k, j | 0 <= k < j < |r| && k < i + 1
      ensures r[k].distance <= r[j].distance
    {
      if k == i {
        assert r[k] == s[best];
        assert j == best ==> r[j] == s[i];
        assert j != best ==> r[j] == s[j];
      } else {
        assert r[k] == s[k];
        assert r[j] == s[j] || r[j] == s[best] || r[j] == s[i];
      }
    }
  }

  /** One round of the sort: the nearest of a[i..] is swapped to slot i. */
  method PlaceNearest(a: array<Todo>, i: nat)
    requires i < a.Length && NearestFirst(a[..], i)
    modifies a
    ensures multiset(a[..]) == multiset(old(a[..]))
    ensures NearestFirst(a[..], i + 1)
  {
    ghost var s := a[..];
    var best := IndexOfNearest(a, i);
    a[i], a[best] := a[best], a[i];
    assert a[..] == Swap(s, i, best);
    SwapNearest(s, i, best);
  }

  /** Sorts only the first min(CHUNKS_PER_FRAME, a.Length) entries into
      place, by swaps. */
  method SortNearest(a: array<Todo>)
    modifies a
    ensures multiset(a[..]) == multiset(old(a[..]))
    ensures NearestFirst(a[..], Min(CHUNKS_PER_FRAME, a.Length))
  {
    var n := Min(CHUNKS_PER_FRAME, a.Length);
    for i := 0 to n
      invariant multiset(a[..]) == multiset(old(a[..]))
      invariant NearestFirst(a[..], i)
    {
      PlaceNearest(a, i);
    }
  }

  /** The frame's queue: the in-view chunks, nearest first. */
  method PrepareQueue(candidates: seq<Todo>, sector: real) returns (todo: seq<Todo>)
    ensures multiset(todo) == multiset(InView(candidates, sector))
    ensures NearestFirst(todo, Min(CHUNKS_PER_FRAME, |todo|))
  {
    var inView := InView(candidates, sector);
    var a := new Todo[|inView|](i requires 0 <= i < |inView| => inView[i]);
    assert a[..] == inView;
    SortNearest(a);
    todo := a[..];
  }

  /** The chunks rendered this frame: the first CHUNKS_PER_FRAME of the
      queue. */
  function Batch(todo: seq<Todo>): (b: seq<Todo>)
    ensures |b| == Min(CHUNKS_PER_FRAME, |todo|)
    ensures b <= todo
  {
    todo[..Min(CHUNKS_PER_FRAME, |todo|)]
  }

  /** Every rendered chunk is in view, is no farther than any chunk left
      for a later frame, and the batch comes nearest first. */
  lemma BatchIsNearest(candidates: seq<Todo>, sector: real, todo: seq<Todo>)
    requires multiset(todo) == multiset(InView(candidates, sector))
    requires NearestFirst(todo, Min(CHUNKS_PER_FRAME, |todo|))
    ensures forall t | t in Batch(todo) :: t in candidates && t.distance < sector * sector
    ensures forall i, j | 0 <= i < |Batch(todo)| <= j < |todo| :: todo[i].distance <= todo[j].distance
    ensures forall i, j | 0 <= i < j < |Batch(todo)| :: todo[i].distance <= todo[j].distance
  {
    forall t | t in Batch(todo)
      ensures t in candidates && t.distance < sector * sector
    {
      assert t in multiset(todo);
      assert t in InView(candidates, sector);
    }
  }
}
