/** Keeping a chunk's light entities in step with a fresh render. The old
    entries are all marked invalid; each light of the new render then
    re-validates the first old entry at its position if that entry has the
    same light, and otherwise gets a newly spawned entry; finally the
    entries still invalid are despawned and dropped. */
module ChunkLights {
  import opened Wrappers
  import opened Structures
  import opened ChunkRendering

  /** One light entity of a chunk: its entity, its light, the block it sits
      on and whether it survives this reconciliation. */
  datatype LightEntry = LightEntry(entity: Entity, light: LightProperties, position: Voxel, valid: bool)

  /** The entries being reconciled and the entities spawned so far. */
  datatype Holder = Holder(entries: seq<LightEntry>, added: seq<Entity>)

  /** The old entries, each marked invalid. */
  function Invalidated(previous: seq<LightEntry>): (r: seq<LightEntry>)
    ensures |r| == |previous|
    ensures forall k | 0 <= k < |r| :: r[k] == previous[k].(valid := false)
  {
    seq(|previous|, k requires 0 <= k < |previous| => previous[k].(valid := false))
  }

  /** The index of the first entry at `pos`, if any. */
  function FirstAt(entries: seq<LightEntry>, pos: Voxel): (r: Option<nat>)
    ensures r.Some? ==> r.value < |entries| && entries[r.value].position == pos
    ensures r.Some? ==> forall k | 0 <= k < r.value :: entries[k].position != pos
    ensures r.None? ==> forall k | 0 <= k < |entries| :: entries[k].position != pos
  {
    if entries == [] then None
    else if entries[0].position == pos then Some(0)
    else match FirstAt(entries[1..], pos)
      case None => None
      case Some(k) => Some(k + 1)
  }

  /** b is a with some entries re-validated and new entries appended: no
      entry is removed, moved, invalidated or otherwise changed. */
  ghost predicate Grows(a: seq<LightEntry>, b: seq<LightEntry>)
  {
    |a| <= |b| && forall k | 0 <= k < |a| :: b[k] == a[k].(valid := b[k].valid) && (a[k].valid ==> b[k].valid)
  }

  lemma GrowsTrans(a: seq<LightEntry>, b: seq<LightEntry>, c: seq<LightEntry>)
    requires Grows(a, b) && Grows(b, c)
    ensures Grows(a, c)
  {
  }

  /** One light (position, light) of the new render: the first entry at its
      position is re-validated if it has the same light; otherwise an
      entry with a newly spawned entity is appended. */
  function Absorb(h: Holder, light: (Voxel, LightProperties), spawn: nat -> Entity): (r: Holder)
    ensures Grows(h.entries, r.entries) && h.added <= r.added
    ensures exists k | 0 <= k < |r.entries| :: r.entries[k].valid && r.entries[k].position == light.0
                                               && r.entries[k].light == light.1
  {
    var pos, props := light.0, light.1;
    match FirstAt(h.entries, pos)
    case Some(i) =>
      if h.entries[i].light == props then
        var r := h.(entries := h.entries[i := h.entries[i].(valid := true)]);
        assert r.entries[i].valid;
        r
      else Append(h, pos, props, spawn)
    case None => Append(h, pos, props, spawn)
  }

  function Append(h: Holder, pos: Voxel, props: LightProperties, spawn: nat -> Entity): (r: Holder)
    ensures Grows(h.entries, r.entries)
    ensures |r.entries| == |h.entries| + 1
    ensures r.entries[|h.entries|] == LightEntry(spawn(|h.added|), props, pos, true)
    ensures r.added == h.added + [spawn(|h.added|)]
  {
    var e := spawn(|h.added|);
    Holder(h.entries + [LightEntry(e, props, pos, true)], h.added + [e])
  }

  /** The holder after the lights of the new render, in order. */
  function AbsorbAll(h: Holder, lights: seq<(Voxel, LightProperties)>, spawn: nat -> Entity): (r: Holder)
  {
    if lights == [] then h
    else Absorb(AbsorbAll(h, lights[..|lights| - 1], spawn), lights[|lights| - 1], spawn)
  }

  /** The entries still valid, in order. */
  function Retained(entries: seq<LightEntry>): (r: seq<LightEntry>)
    ensures forall e :: e in r <==> e in entries && e.valid
  {
    if entries == [] then []
    else
      var rest := Retained(entries[..|entries| - 1]);
      var last := entries[|entries| - 1];
      assert entries == entries[..|entries| - 1] + [last];
      if last.valid then rest + [last] else rest
  }

  /** The entities of the entries left invalid, in order. */
  function Despawned(entries: seq<LightEntry>): (r: seq<Entity>)
    ensures forall x :: x in r <==> exists e | e in entries :: !e.valid && e.entity == x
  {
    if entries == [] then []
    else
      var rest := Despawned(entries[..|entries| - 1]);
      var last := entries[|entries| - 1];
      assert entries == entries[..|entries| - 1] + [last];
      if last.valid then rest else rest + [last.entity]
  }

  /** The reconciliation as a whole, before despawning. */
  function Reconciled(previous: seq<LightEntry>, lights: seq<(Voxel, LightProperties)>, spawn: nat -> Entity): Holder
  {
    AbsorbAll(Holder(Invalidated(previous), []), lights, spawn)
  }

  /** The positions of the new render's lights are distinct (they are the
      keys of a map). */
  ghost predicate DistinctPositions(lights: seq<(Voxel, LightProperties)>)
  {
    forall i, j | 0 <= i < j < |lights| :: lights[i].0 != lights[j].0
  }

  /** Absorbing more lights only grows the entries. */
  lemma {:induction false} AbsorbAllGrows(h: Holder, lights: seq<(Voxel, LightProperties)>, spawn: nat -> Entity)
    ensures Grows(h.entries, AbsorbAll(h, lights, spawn).entries)
    ensures h.added <= AbsorbAll(h, lights, spawn).added
  {
    if lights != [] {
      AbsorbAllGrows(h, lights[..|lights| - 1], spawn);
      GrowsTrans(h.entries, AbsorbAll(h, lights[..|lights| - 1], spawn).entries, AbsorbAll(h, lights, spawn).entries);
    }
  }

  /** Absorbing a prefix of the lights grows into absorbing them all. */
  lemma {:induction false} AbsorbPrefixGrows(h: Holder, lights: seq<(Voxel, LightProperties)>, n: nat, spawn: nat -> Entity)
    requires n <= |lights|
    ensures Grows(AbsorbAll(h, lights[..n], spawn).entries, AbsorbAll(h, lights, spawn).entries)
    ensures AbsorbAll(h, lights[..n], spawn).added <= AbsorbAll(h, lights, spawn).added
    decreases |lights| - n
  {
    if n < |lights| {
      AbsorbPrefixGrows(h, lights, n + 1, spawn);
      assert lights[..n + 1][..n] == lights[..n];
      var a := AbsorbAll(h, lights[..n], spawn).entries;
      var b := AbsorbAll(h, lights[..n + 1], spawn).entries;
      GrowsTrans(a, b, AbsorbAll(h, lights, spawn).entries);
    } else {
      assert lights[..n] == lights;
    }
  }

  /** Every valid entry after absorbing `lights` into all-invalid entries
      carries the position and light of one of them; every appended entry
      does too. */
  lemma {:induction false} ValidFromLights(h: Holder, lights: seq<(Voxel, LightProperties)>, spawn: nat -> Entity, k: nat)
    requires forall e | e in h.entries :: !e.valid
    requires k < |AbsorbAll(h, lights, spawn).entries|
    requires AbsorbAll(h, lights, spawn).entries[k].valid || k >= |h.entries|
    ensures (AbsorbAll(h, lights, spawn).entries[k].position, AbsorbAll(h, lights, spawn).entries[k].light) in lights
  {
    var r := AbsorbAll(h, lights, spawn).entries;
    if lights == [] {
      assert false;
    } else {
      var init := lights[..|lights| - 1];
      var x := lights[|lights| - 1];
      var p := AbsorbAll(h, init, spawn);
      AbsorbAllGrows(h, init, spawn);
      if k < |p.entries| && (p.entries[k].valid || k >= |h.entries|) {
        ValidFromLights(h, init, spawn, k);
        assert (r[k].position, r[k].light) == (p.entries[k].position, p.entries[k].light);
        assert (r[k].position, r[k].light) in init;
      } else {
        assert (r[k].position, r[k].light) == x by {
          match FirstAt(p.entries, x.0)
          case Some(i) => {}
          case None => {}
        }
      }
    }
  }

  /** After absorbing `lights`, each of them has a valid entry with its
      position and light. */
  lemma {:induction false} LightsHaveEntries(h: Holder, lights: seq<(Voxel, LightProperties)>, spawn: nat -> Entity, j: nat)
    requires j < |lights|
    ensures exists k | 0 <= k < |AbsorbAll(h, lights, spawn).entries| ::
      AbsorbAll(h, lights, spawn).entries[k].valid && AbsorbAll(h, lights, spawn).entries[k].position == lights[j].0
      && AbsorbAll(h, lights, spawn).entries[k].light == lights[j].1
  {
    var prefix := lights[..j + 1];
    assert prefix[..j] == lights[..j] && prefix[j] == lights[j];
    var a := AbsorbAll(h, prefix, spawn).entries;
    var k :| 0 <= k < |a| && a[k].valid && a[k].position == lights[j].0 && a[k].light == lights[j].1;
    AbsorbPrefixGrows(h, lights, j + 1, spawn);
    var r := AbsorbAll(h, lights, spawn).entries;
    assert r[k].valid && r[k].position == lights[j].0 && r[k].light == lights[j].1;
  }

  /** Every entry reconciliation keeps is valid and is a light of the new
      render. */
  lemma KeptAreNewLights(previous: seq<LightEntry>, lights: seq<(Voxel, LightProperties)>, spawn: nat -> Entity)
    ensures forall e | e in Retained(Reconciled(previous, lights, spawn).entries) :: e.valid && (e.position, e.light) in lights
  {
    var h := Holder(Invalidated(previous), []);
    var r := Reconciled(previous, lights, spawn).entries;
    forall e | e in Retained(r)
      ensures e.valid && (e.position, e.light) in lights
    {
      var k :| 0 <= k < |r| && r[k] == e;
      ValidFromLights(h, lights, spawn, k);
    }
  }

  /** Every light of the new render is kept, as an entry with its position
      and light. */
  lemma NewLightsKept(previous: seq<LightEntry>, lights: seq<(Voxel, LightProperties)>, spawn: nat -> Entity, j: nat)
    requires j < |lights|
    ensures exists e | e in Retained(Reconciled(previous, lights, spawn).entries) ::
              e.position == lights[j].0 && e.light == lights[j].1
  {
    var h := Holder(Invalidated(previous), []);
    var r := Reconciled(previous, lights, spawn).entries;
    LightsHaveEntries(h, lights, spawn, j);
    var k :| 0 <= k < |r| && r[k].valid && r[k].position == lights[j].0 && r[k].light == lights[j].1;
    assert r[k] in Retained(r);
  }

  /** An old entry whose position and light are no longer among the new
      render's lights is despawned. */
  lemma StaleLightDespawned(previous: seq<LightEntry>, lights: seq<(Voxel, LightProperties)>, spawn: nat -> Entity, i: nat)
    requires i < |previous| && (previous[i].position, previous[i].light) !in lights
    ensures previous[i].entity in Despawned(Reconciled(previous, lights, spawn).entries)
  {
    var h := Holder(Invalidated(previous), []);
    var r := Reconciled(previous, lights, spawn).entries;
    AbsorbAllGrows(h, lights, spawn);
    if r[i].valid {
      ValidFromLights(h, lights, spawn, i);
    }
    assert r[i] in r;
  }

  /** The first-match rule, from the other side: an entry at `pos` with no
      earlier one is the first. */
  lemma FirstAtIs(entries: seq<LightEntry>, pos: Voxel, i: nat)
    requires i < |entries| && entries[i].position == pos
    requires forall k | 0 <= k < i :: entries[k].position != pos
    ensures FirstAt(entries, pos) == Some(i)
  {
    match FirstAt(entries, pos)
    case None =>
    case Some(m) =>
      if m < i {
      } else if m > i {
      }
  }

  /** The state just before light j of the new render is absorbed: the old
      entries keep their first match at its position, and no entry appended
      so far sits there. */
  lemma {:induction false} BeforeLight(previous: seq<LightEntry>, lights: seq<(Voxel, LightProperties)>, spawn: nat -> Entity, j: nat)
    requires DistinctPositions(lights) && j < |lights|
    ensures FirstAt(AbsorbAll(Holder(Invalidated(previous), []), lights[..j], spawn).entries, lights[j].0)
            == FirstAt(previous, lights[j].0)
  {
    var h := Holder(Invalidated(previous), []);
    var p := AbsorbAll(h, lights[..j], spawn).entries;
    var pos := lights[j].0;
    AbsorbAllGrows(h, lights[..j], spawn);
    forall k | |previous| <= k < |p|
      ensures p[k].position != pos
    {
      ValidFromLights(h, lights[..j], spawn, k);
      var m :| 0 <= m < j && lights[..j][m] == (p[k].position, p[k].light);
    }
    match FirstAt(previous, pos)
    case Some(i) =>
      FirstAtIs(p, pos, i);
    case None =>
      match FirstAt(p, pos)
      case None =>
      case Some(m) =>
        assert false;
  }

  /** A light of the new render whose position's first old entry has the
      same light keeps that entry, and so its entity. */
  lemma UnchangedLightKept(previous: seq<LightEntry>, lights: seq<(Voxel, LightProperties)>, spawn: nat -> Entity, j: nat, i: nat)
    requires DistinctPositions(lights) && j < |lights|
    requires FirstAt(previous, lights[j].0) == Some(i) && previous[i].light == lights[j].1
    ensures previous[i].(valid := true) in Retained(Reconciled(previous, lights, spawn).entries)
  {
    var h := Holder(Invalidated(previous), []);
    var p := AbsorbAll(h, lights[..j], spawn);
    BeforeLight(previous, lights, spawn, j);
    AbsorbAllGrows(h, lights[..j], spawn);
    var q := AbsorbAll(h, lights[..j + 1], spawn);
    assert lights[..j + 1][..j] == lights[..j];
    assert q == Absorb(p, lights[j], spawn);
    assert q.entries[i] == previous[i].(valid := true);
    AbsorbPrefixGrows(h, lights, j + 1, spawn);
    var r := Reconciled(previous, lights, spawn).entries;
    assert r[i] == previous[i].(valid := true);
  }

  /** Any other light of the new render gets an entry with a newly spawned
      entity; a light that changed at an old position thereby replaces the
      old entry, which is despawned. */
  lemma ChangedLightSpawned(previous: seq<LightEntry>, lights: seq<(Voxel, LightProperties)>, spawn: nat -> Entity, j: nat)
    requires DistinctPositions(lights) && j < |lights|
    requires FirstAt(previous, lights[j].0).Some? ==> previous[FirstAt(previous, lights[j].0).value].light != lights[j].1
    ensures exists e | e in Retained(Reconciled(previous, lights, spawn).entries) ::
              e.position == lights[j].0 && e.light == lights[j].1 && e.entity in Reconciled(previous, lights, spawn).added
  {
    var m, e := SpawnedEntry(previous, lights, spawn, j);
    AbsorbPrefixGrows(Holder(Invalidated(previous), []), lights, j + 1, spawn);
    var r := Reconciled(previous, lights, spawn);
    assert r.entries[m] == e;
    assert e in Retained(r.entries);
  }

  /** Taking in light j, which has no equal old entry at its position,
      appends a valid entry for it with a newly spawned entity. */
  lemma SpawnedEntry(previous: seq<LightEntry>, lights: seq<(Voxel, LightProperties)>, spawn: nat -> Entity, j: nat)
    returns (m: nat, e: LightEntry)
    requires DistinctPositions(lights) && j < |lights|
    requires FirstAt(previous, lights[j].0).Some? ==> previous[FirstAt(previous, lights[j].0).value].light != lights[j].1
    ensures e.position == lights[j].0 && e.light == lights[j].1 && e.valid
    ensures var q := AbsorbAll(Holder(Invalidated(previous), []), lights[..j + 1], spawn);
            m < |q.entries| && q.entries[m] == e && e.entity in q.added
  {
    var h := Holder(Invalidated(previous), []);
    var p := AbsorbAll(h, lights[..j], spawn);
    BeforeLight(previous, lights, spawn, j);
    AbsorbAllGrows(h, lights[..j], spawn);
    var q := AbsorbAll(h, lights[..j + 1], spawn);
    assert lights[..j + 1][..j] == lights[..j];
    assert q == Append(p, lights[j].0, lights[j].1, spawn);
    m := |p.entries|;
    e := LightEntry(spawn(|p.added|), lights[j].1, lights[j].0, true);
    assert q.entries[m] == e && e.entity in q.added;
  }

  /** An old light replaced by a changed light at its position is
      despawned. */
  lemma ReplacedLightDespawned(previous: seq<LightEntry>, lights: seq<(Voxel, LightProperties)>, spawn: nat -> Entity, j: nat, i: nat)
    requires DistinctPositions(lights) && j < |lights|
    requires i < |previous| && previous[i].position == lights[j].0 && previous[i].light != lights[j].1
    ensures previous[i].entity in Despawned(Reconciled(previous, lights, spawn).entries)
  {
    StaleLightDespawned(previous, lights, spawn, i);
  }

  /** The old entries of the chunk: none when it had no lights. */
  function Prior(previous: Option<seq<LightEntry>>): seq<LightEntry>
  {
    if previous.Some? then previous.value else []
  }

  /** The search of the entries for the first one at `pos`: it is
      re-validated when its light equals `props`; the search stops at it
      either way. */
  method Revalidate(entries: seq<LightEntry>, pos: Voxel, props: LightProperties) returns (revised: seq<LightEntry>, found: bool)
    ensures FirstAt(entries, pos).Some? && entries[FirstAt(entries, pos).value].light == props
            ==> found && revised == entries[FirstAt(entries, pos).value := entries[FirstAt(entries, pos).value].(valid := true)]
    ensures !(FirstAt(entries, pos).Some? && entries[FirstAt(entries, pos).value].light == props)
            ==> !found && revised == entries
  {
    revised, found := entries, false;
    var j := 0;
    while j < |entries|
      invariant j <= |entries|
      invariant forall k | 0 <= k < j :: entries[k].position != pos
    {
      if entries[j].position == pos {
        FirstAtIs(entries, pos, j);
        if entries[j].light == props {
          revised := entries[j := entries[j].(valid := true)];
          found := true;
        }
        return;
      }
      j := j + 1;
    }
  }

  /** Every light entry of the previous render, marked invalid; none when
      the chunk had no lights holder. */
  method InvalidateAll(previous: Option<seq<LightEntry>>) returns (entries: seq<LightEntry>)
    ensures entries == Invalidated(Prior(previous))
  {
    entries := [];
    if previous.Some? {
      var holder := previous.value;
      for i := 0 to |holder|
        invariant entries == Invalidated(holder[..i])
      {
        entries := entries + [holder[i].(valid := false)];
      }
      assert holder[..|holder|] == holder;
    }
  }

  /** Takes in each of the render's lights in turn: an equal entry at its
      position is re-validated, otherwise a light is spawned for it. */
  method AbsorbLights(start: seq<LightEntry>, lights: seq<(Voxel, LightProperties)>, spawn: nat -> Entity)
    returns (entries: seq<LightEntry>, added: seq<Entity>)
    ensures Holder(entries, added) == AbsorbAll(Holder(start, []), lights, spawn)
  {
    entries, added := start, [];
    for n := 0 to |lights|
      invariant Holder(entries, added) == AbsorbAll(Holder(start, []), lights[..n], spawn)
    {
      assert lights[..n + 1][..n] == lights[..n];
      var pos, props := lights[n].0, lights[n].1;
      var found;
      entries, found := Revalidate(entries, pos, props);
      if !found {
        var entity := spawn(|added|);
        entries := entries + [LightEntry(entity, props, pos, true)];
        added := added + [entity];
      }
    }
    assert lights[..|lights|] == lights;
  }

  /** The entities of the entries left invalid, which are despawned. */
  method CollectDespawned(entries: seq<LightEntry>) returns (despawned: seq<Entity>)
    ensures despawned == Despawned(entries)
  {
    despawned := [];
    for k := 0 to |entries|
      invariant despawned == Despawned(entries[..k])
    {
      assert entries[..k + 1][..k] == entries[..k];
      if !entries[k].valid {
        despawned := despawned + [entries[k].entity];
      }
    }
    assert entries[..|entries|] == entries;
  }

  /** The valid entries, in order. */
  method RetainValid(entries: seq<LightEntry>) returns (kept: seq<LightEntry>)
    ensures kept == Retained(entries)
  {
    kept := [];
    for k := 0 to |entries|
      invariant kept == Retained(entries[..k])
    {
      assert entries[..k + 1][..k] == entries[..k];
      if entries[k].valid {
        kept := kept + [entries[k]];
      }
    }
    assert entries[..|entries|] == entries;
  }

  /** The chunk's new light entries after a render producing `lights` (in
      the order the render's map yields them), with the entities spawned
      for new lights and those despawned for stale ones; `spawn(n)` is the
      entity the n-th spawn of this reconciliation creates. */
  method ReconcileLights(previous: Option<seq<LightEntry>>, lights: seq<(Voxel, LightProperties)>, spawn: nat -> Entity)
    returns (kept: seq<LightEntry>, added: seq<Entity>, despawned: seq<Entity>)
    ensures kept == Retained(Reconciled(Prior(previous), lights, spawn).entries)
    ensures added == Reconciled(Prior(previous), lights, spawn).added
    ensures despawned == Despawned(Reconciled(Prior(previous), lights, spawn).entries)
  {
    var entries := InvalidateAll(previous);
    entries, added := AbsorbLights(entries, lights, spawn);
    despawned := CollectDespawned(entries);
    kept := RetainValid(entries);
  }
}
