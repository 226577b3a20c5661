/**
 * Material resolution: an entity's own material, else (in smart mode) the
 * material most of its children carry, else the material inherited from the
 * nearest owning ancestor on its instance path.
 */
module Materials {
  import opened Scene

  /** MATERIAL_ORIGIN_UNKNOW = 0, OWNED = 1, INHERITED = 2, CHILD = 3. */
  datatype Origin = OriginUnknown | Owned | Inherited | Child

  datatype Resolved = Resolved(material: Option<Material>, origin: Origin)

  // -- Vote counting over material names --------------------------------------

  /** Number of votes cast for material name `n`. */
  function Occ(vs: seq<Material>, n: string): nat {
    if vs == [] then 0
    else Occ(vs[..|vs| - 1], n) + (if vs[|vs| - 1].name == n then 1 else 0)
  }

  /** The names voted for, each once, in the order of their first vote. */
  function DistinctNames(vs: seq<Material>): (ns: seq<string>)
    ensures forall i :: 0 <= i < |vs| ==> vs[i].name in ns
    ensures forall j, j' :: 0 <= j < j' < |ns| ==> ns[j] != ns[j']
  {
    if vs == [] then []
    else
      var init := vs[..|vs| - 1];
      var ns := DistinctNames(init);
      assert forall i :: 0 <= i < |init| ==> vs[i] == init[i];
      if vs[|vs| - 1].name in ns then ns else ns + [vs[|vs| - 1].name]
  }

  /** Position of the first vote cast for `n`. */
  function FirstVote(vs: seq<Material>, n: string): (k: nat)
    requires n in DistinctNames(vs)
    ensures k < |vs| && vs[k].name == n
    ensures forall i :: 0 <= i < k ==> vs[i].name != n
  {
    var init := vs[..|vs| - 1];
    assert forall i :: 0 <= i < |init| ==> vs[i] == init[i];
    if n in DistinctNames(init) then FirstVote(init, n) else |vs| - 1
  }

  /** One entry of the `materials` hash: the first material seen under a name and its count. */
  datatype Tally = Tally(material: Material, count: nat)

  /** `materials[name] ||= {...}; materials[name][:count] += 1`, keeping insertion order. */
  function AddVote(t: seq<Tally>, m: Material): (r: seq<Tally>)
    ensures |r| > 0
  {
    if t == [] then [Tally(m, 1)]
    else if t[0].material.name == m.name then [t[0].(count := t[0].count + 1)] + t[1..]
    else [t[0]] + AddVote(t[1..], m)
  }

  function TallyOf(vs: seq<Material>): (t: seq<Tally>)
    ensures (t == []) <==> (vs == [])
  {
    if vs == [] then [] else AddVote(TallyOf(vs[..|vs| - 1]), vs[|vs| - 1])
  }

  /** The max loop: a strictly greater count replaces the current choice. */
  function BestFrom(t: seq<Tally>, material: Option<Material>, count: int): Option<Material> {
    if t == [] then material
    else if t[0].count > count then BestFrom(t[1..], Some(t[0].material), t[0].count)
    else BestFrom(t[1..], material, count)
  }

  function Dominant(votes: seq<Material>): Option<Material> {
    BestFrom(TallyOf(votes), None, 0)
  }

  // -- `_get_dominant_child_material` ------------------------------------------

  /** Reference definition of `_get_dominant_child_material(entity, level)`. */
  function DominantChildMaterial(e: Node, level: nat): Option<Material>
    decreases e, 1
  {
    if e.Group? || (e.Instance? && level == 0) then
      var votes := Votes(if e.Instance? then e.definition.entities else e.entities, level + 1);
      if votes == [] then e.material else Dominant(votes)
    else if e.Face? then e.material
    else None
  }

  /** The materials the children yield one level down, in collection order. */
  function Votes(es: seq<Node>, level: nat): seq<Material>
    decreases es, 0
  {
    if es == [] then []
    else
      Votes(es[..|es| - 1], level) +
      (match DominantChildMaterial(es[|es| - 1], level)
       case Some(m) => [m]
       case None => [])
  }

  method GetDominantChildMaterial(entity: Node, level: nat) returns (material: Option<Material>)
    ensures material == DominantChildMaterial(entity, level)
    decreases entity, 1
  {
    material := None;
    if entity.Group? || (entity.Instance? && level == 0) {
      var entities := if entity.Instance? then entity.definition.entities else entity.entities;
      var materials := TallyChildren(entities, level + 1);
      if |materials| > 0 {
        material := MostVoted(materials);
      } else {
        material := entity.material;
      }
    } else if entity.Face? {
      material := entity.material;
    }
  }

  /** The `entities.each` loop: one vote per child that yields a material, tallied by name. */
  method TallyChildren(entities: seq<Node>, level: nat) returns (materials: seq<Tally>)
    ensures materials == TallyOf(Votes(entities, level))
    decreases entities, 0
  {
    materials := [];
    ghost var votes: seq<Material> := [];
    var i := 0;
    while i < |entities|
      invariant 0 <= i <= |entities|
      invariant votes == Votes(entities[..i], level)
      invariant materials == TallyOf(votes)
    {
      assert entities[..i + 1][..i] == entities[..i];
      assert entities[i] in entities;
      var childMaterial := GetDominantChildMaterial(entities[i], level);
      if childMaterial.Some? {
        assert (votes + [childMaterial.value])[..|votes|] == votes;
        materials := AddVote(materials, childMaterial.value);
        votes := votes + [childMaterial.value];
      }
      i := i + 1;
    }
    assert entities[..|entities|] == entities;
  }

  /** The max loop: the first material of strictly greatest count. */
  method MostVoted(materials: seq<Tally>) returns (material: Option<Material>)
    ensures material == BestFrom(materials, None, 0)
  {
    material := None;
    var materialCount := 0;
    var j := 0;
    while j < |materials|
      invariant 0 <= j <= |materials|
      invariant BestFrom(materials[j..], material, materialCount) == BestFrom(materials, None, 0)
    {
      assert materials[j..][1..] == materials[j + 1..];
      if materials[j].count > materialCount {
        material := Some(materials[j].material);
        materialCount := materials[j].count;
      }
      j := j + 1;
    }
  }

  // -- What the tally and the max loop compute ---------------------------------

  /**
   * The tally lists the distinct voted names in order of first vote, each with
   * the material first voted under it and its number of votes.
   */
  ghost predicate TallyFaithful(t: seq<Tally>, vs: seq<Material>) {
    var ns := DistinctNames(vs);
    |t| == |ns| &&
    forall j :: 0 <= j < |t| ==>
      t[j].material.name == ns[j] &&
      t[j].count == Occ(vs, ns[j]) && t[j].count > 0 &&
      t[j].material == vs[FirstVote(vs, ns[j])]
  }

  lemma OccSnoc(vs: seq<Material>, m: Material, n: string)
    ensures Occ(vs + [m], n) == Occ(vs, n) + (if m.name == n then 1 else 0)
  {
    assert (vs + [m])[..|vs|] == vs;
  }

  lemma {:induction false} OccZero(vs: seq<Material>, n: string)
    requires n !in DistinctNames(vs)
    ensures Occ(vs, n) == 0
  {
    if vs != [] {
      var init := vs[..|vs| - 1];
      assert forall i :: 0 <= i < |init| ==> init[i] == vs[i];
      OccZero(init, n);
    }
  }

  lemma {:induction false} AddVoteAbsent(t: seq<Tally>, m: Material)
    requires forall j :: 0 <= j < |t| ==> t[j].material.name != m.name
    ensures AddVote(t, m) == t + [Tally(m, 1)]
  {
    if t != [] {
      assert forall j :: 0 <= j < |t[1..]| ==> t[1..][j] == t[j + 1];
      AddVoteAbsent(t[1..], m);
      assert [t[0]] + (t[1..] + [Tally(m, 1)]) == t + [Tally(m, 1)];
    }
  }

  lemma {:induction false} AddVoteAt(t: seq<Tally>, m: Material, k: nat)
    requires k < |t| && t[k].material.name == m.name
    requires forall j :: 0 <= j < k ==> t[j].material.name != m.name
    ensures AddVote(t, m) == t[k := t[k].(count := t[k].count + 1)]
  {
    if k > 0 {
      assert forall j :: 0 <= j < |t[1..]| ==> t[1..][j] == t[j + 1];
      AddVoteAt(t[1..], m, k - 1);
      assert [t[0]] + t[1..][k - 1 := t[k].(count := t[k].count + 1)]
          == t[k := t[k].(count := t[k].count + 1)];
    }
  }

  lemma NamesSnocSeen(vs: seq<Material>, m: Material)
    requires m.name in DistinctNames(vs)
    ensures DistinctNames(vs + [m]) == DistinctNames(vs)
  {
    assert (vs + [m])[..|vs|] == vs;
  }

  lemma NamesSnocNew(vs: seq<Material>, m: Material)
    requires m.name !in DistinctNames(vs)
    ensures DistinctNames(vs + [m]) == DistinctNames(vs) + [m.name]
    ensures m.name in DistinctNames(vs + [m]) && FirstVote(vs + [m], m.name) == |vs|
  {
    var w := vs + [m];
    assert w[..|w| - 1] == vs && w[|w| - 1] == m;
    assert DistinctNames(w) == DistinctNames(vs) + [m.name];
    assert m.name in DistinctNames(w);
  }

  /** A later vote does not move the first vote of a name already voted for. */
  lemma FirstVoteSnoc(vs: seq<Material>, m: Material, n: string)
    requires n in DistinctNames(vs)
    ensures n in DistinctNames(vs + [m]) && FirstVote(vs + [m], n) == FirstVote(vs, n)
  {
    assert (vs + [m])[..|vs|] == vs;
  }

  /** The tally step for a name already voted for. */
  lemma VoteRepeated(t: seq<Tally>, vs: seq<Material>, m: Material, k: nat)
    requires TallyFaithful(t, vs)
    requires k < |t| && t[k].material.name == m.name
    ensures TallyFaithful(t[k := t[k].(count := t[k].count + 1)], vs + [m])
  {
    var w := vs + [m];
    var ns := DistinctNames(vs);
    assert ns[k] == m.name;
    NamesSnocSeen(vs, m);
    forall j | 0 <= j < |t|
      ensures Occ(w, ns[j]) == Occ(vs, ns[j]) + (if j == k then 1 else 0)
      ensures FirstVote(w, ns[j]) == FirstVote(vs, ns[j])
    {
      OccSnoc(vs, m, ns[j]);
      FirstVoteSnoc(vs, m, ns[j]);
    }
  }

  /** The tally step for a name voted for the first time. */
  lemma VoteNew(t: seq<Tally>, vs: seq<Material>, m: Material)
    requires TallyFaithful(t, vs)
    requires m.name !in DistinctNames(vs)
    ensures TallyFaithful(t + [Tally(m, 1)], vs + [m])
  {
    var w, t' := vs + [m], t + [Tally(m, 1)];
    var ns, ns' := DistinctNames(vs), DistinctNames(vs + [m]);
    NamesSnocNew(vs, m);
    assert |t'| == |ns'|;
    forall j | 0 <= j < |t'|
      ensures t'[j].material.name == ns'[j] && t'[j].count == Occ(w, ns'[j]) && t'[j].count > 0
      ensures t'[j].material == w[FirstVote(w, ns'[j])]
    {
      if j < |t| {
        assert t'[j] == t[j] && ns'[j] == ns[j];
        OccSnoc(vs, m, ns[j]);
        FirstVoteSnoc(vs, m, ns[j]);
        assert w[FirstVote(vs, ns[j])] == vs[FirstVote(vs, ns[j])];
      } else {
        assert t'[j] == Tally(m, 1) && ns'[j] == m.name;
        OccZero(vs, m.name);
        OccSnoc(vs, m, m.name);
      }
    }
  }

  /** The tally built vote by vote is faithful to the votes. */
  lemma {:induction false} TallyOfFaithful(vs: seq<Material>)
    ensures TallyFaithful(TallyOf(vs), vs)
  {
    if vs != [] {
      var init, m := vs[..|vs| - 1], vs[|vs| - 1];
      assert vs == init + [m];
      TallyOfFaithful(init);
      var t := TallyOf(init);
      var ns := DistinctNames(init);
      if m.name in ns {
        var k :| 0 <= k < |ns| && ns[k] == m.name;
        AddVoteAt(t, m, k);
        VoteRepeated(t, init, m, k);
      } else {
        AddVoteAbsent(t, m);
        VoteNew(t, init, m);
      }
    }
  }

  /** Distinct names stand in the order of their first votes. */
  lemma {:induction false} DistinctNamesOrdered(vs: seq<Material>)
    ensures var ns := DistinctNames(vs);
      forall j, j' :: 0 <= j < j' < |ns| ==> FirstVote(vs, ns[j]) < FirstVote(vs, ns[j'])
  {
    if vs != [] {
      var init, m := vs[..|vs| - 1], vs[|vs| - 1];
      assert vs == init + [m];
      DistinctNamesOrdered(init);
      var ns := DistinctNames(init);
      if m.name in ns {
        NamesSnocSeen(init, m);
        forall j, j' | 0 <= j < j' < |ns| ensures FirstVote(vs, ns[j]) < FirstVote(vs, ns[j']) {
          FirstVoteSnoc(init, m, ns[j]);
          FirstVoteSnoc(init, m, ns[j']);
        }
      } else {
        NamesSnocNew(init, m);
        var ns' := ns + [m.name];
        forall j, j' | 0 <= j < j' < |ns'| ensures FirstVote(vs, ns'[j]) < FirstVote(vs, ns'[j']) {
          assert ns'[j] == ns[j];
          FirstVoteSnoc(init, m, ns[j]);
          if j' < |ns| {
            assert ns'[j'] == ns[j'];
            FirstVoteSnoc(init, m, ns[j']);
          }
        }
      }
    }
  }

  /** The first entry of greatest count. */
  function ArgMax(t: seq<Tally>): (k: nat)
    requires t != []
    ensures k < |t|
    ensures forall j :: 0 <= j < |t| ==> t[j].count <= t[k].count
    ensures forall j :: 0 <= j < k ==> t[j].count < t[k].count
  {
    if |t| == 1 then 0
    else
      var init := t[..|t| - 1];
      var k := ArgMax(init);
      assert forall j :: 0 <= j < |init| ==> init[j] == t[j];
      if t[|t| - 1].count > t[k].count then |t| - 1 else k
  }

  lemma {:induction false} BestFromNone(t: seq<Tally>, material: Option<Material>, count: int)
    requires forall j :: 0 <= j < |t| ==> t[j].count <= count
    ensures BestFrom(t, material, count) == material
  {
    if t != [] {
      assert forall j :: 0 <= j < |t[1..]| ==> t[1..][j] == t[j + 1];
      BestFromNone(t[1..], material, count);
    }
  }

  /** The max loop settles on the first entry of greatest count when that count beats the start. */
  lemma {:induction false} BestFromArgMax(t: seq<Tally>, material: Option<Material>, count: int, k: nat)
    requires k < |t| && t[k].count > count
    requires forall j :: 0 <= j < |t| ==> t[j].count <= t[k].count
    requires forall j :: 0 <= j < k ==> t[j].count < t[k].count
    ensures BestFrom(t, material, count) == Some(t[k].material)
  {
    var rest := t[1..];
    assert forall j :: 0 <= j < |rest| ==> rest[j] == t[j + 1];
    if k == 0 {
      BestFromNone(rest, Some(t[0].material), t[0].count);
    } else if t[0].count > count {
      BestFromArgMax(rest, Some(t[0].material), t[0].count, k - 1);
    } else {
      BestFromArgMax(rest, material, count, k - 1);
    }
  }

  /**
   * The dominant material of a non-empty vote: the material first voted under
   * the most-voted name; a tie goes to the name voted for first.
   */
  lemma DominantIsFirstMostVoted(votes: seq<Material>)
    requires votes != []
    ensures var r := Dominant(votes); var ns := DistinctNames(votes);
      r.Some? && r.value.name in ns &&
      r.value == votes[FirstVote(votes, r.value.name)] &&
      (forall n :: n in ns ==> Occ(votes, n) <= Occ(votes, r.value.name)) &&
      (forall n :: n in ns && FirstVote(votes, n) < FirstVote(votes, r.value.name) ==>
         Occ(votes, n) < Occ(votes, r.value.name))
  {
    var t := TallyOf(votes);
    var ns := DistinctNames(votes);
    TallyOfFaithful(votes);
    var k := ArgMax(t);
    BestFromArgMax(t, None, 0, k);
    TallyEntry(t, votes, k);
    forall n | n in ns
      ensures Occ(votes, n) <= Occ(votes, ns[k])
      ensures FirstVote(votes, n) < FirstVote(votes, ns[k]) ==> Occ(votes, n) < Occ(votes, ns[k])
    {
      var j :| 0 <= j < |ns| && ns[j] == n;
      TallyEntry(t, votes, j);
      if k < j {
        DistinctNamesOrdered(votes);
        assert FirstVote(votes, ns[k]) < FirstVote(votes, ns[j]);
      }
    }
  }

  /** One entry of a faithful tally, spelled out. */
  lemma TallyEntry(t: seq<Tally>, vs: seq<Material>, j: nat)
    requires TallyFaithful(t, vs) && j < |t|
    ensures var ns := DistinctNames(vs);
      j < |ns| && t[j].material.name == ns[j] && t[j].count == Occ(vs, ns[j]) &&
      t[j].material == vs[FirstVote(vs, ns[j])]
  {
  }

  // -- `_get_inherited_material` ------------------------------------------------

  /** The material of the nearest element of `path`, from its end, that owns one. */
  function InheritedMaterial(path: Path): Option<Material>
  {
    if path == [] then None
    else
      var entity := Last(path);
      if !IsDrawingElement(entity) then None
      else if entity.material.Some? then entity.material
      else InheritedMaterial(path[..|path| - 1])
  }

  /** Every element of `path` from position `k` on is a drawing element without a material. */
  ghost predicate UnownedFrom(path: Path, k: int) {
    forall j :: 0 <= j < |path| && k <= j ==> IsDrawingElement(path[j]) && path[j].material.None?
  }

  /**
   * The inherited material is that of the last owning element, provided only
   * unowned drawing elements follow it; the walk stops with none at the first
   * element, from the end, that is not a drawing element.
   */
  lemma {:induction false} InheritedMaterialScan(path: Path)
    ensures var r := InheritedMaterial(path);
      (r.Some? ==> exists i :: 0 <= i < |path| && IsDrawingElement(path[i]) &&
                     path[i].material == r && UnownedFrom(path, i + 1)) &&
      (r.None? ==> forall i :: 0 <= i < |path| && UnownedFrom(path, i + 1) ==>
                     !IsDrawingElement(path[i]) || path[i].material.None?)
  {
    if path != [] {
      var init := path[..|path| - 1];
      var e := Last(path);
      assert forall j :: 0 <= j < |init| ==> path[j] == init[j];
      if IsDrawingElement(e) && e.material.None? {
        InheritedMaterialScan(init);
        var r := InheritedMaterial(init);
        if r.Some? {
          var i :| 0 <= i < |init| && IsDrawingElement(init[i]) && init[i].material == r && UnownedFrom(init, i + 1);
          assert UnownedFrom(path, i + 1);
        } else {
          forall i | 0 <= i < |path| && UnownedFrom(path, i + 1)
            ensures !IsDrawingElement(path[i]) || path[i].material.None?
          {
            if i < |init| {
              assert UnownedFrom(init, i + 1);
            }
          }
        }
      } else if IsDrawingElement(e) {
        assert UnownedFrom(path, |path|);
      }
    }
  }

  // -- `_get_material` ----------------------------------------------------------

  /**
   * `_get_material(path, smart)`. An empty path has no last entity, so it takes the
   * same branch as a nil path.
   */
  function GetMaterial(path: Path, smart: bool): (r: Resolved)
    ensures r.origin == OriginUnknown <==> (|path| == 0 || !IsDrawingElement(Last(path)))
    ensures r.origin == OriginUnknown ==> r.material == None
    ensures |path| > 0 && IsDrawingElement(Last(path)) && (Last(path).material.Some? || !smart) ==>
      r == Resolved(Last(path).material, Owned)
    ensures r.origin == Child <==>
      |path| > 0 && IsDrawingElement(Last(path)) && smart && Last(path).material.None? &&
      DominantChildMaterial(Last(path), 0).Some?
    ensures r.origin == Child ==> r.material == DominantChildMaterial(Last(path), 0)
    ensures r.origin == Inherited <==>
      |path| > 0 && IsDrawingElement(Last(path)) && smart && Last(path).material.None? &&
      DominantChildMaterial(Last(path), 0).None? && InheritedMaterial(path).Some?
    ensures r.origin == Inherited ==> r.material == InheritedMaterial(path)
    ensures r.material.None? ==> r.origin == OriginUnknown || r.origin == Owned
    ensures r.origin == Owned ==> |path| > 0 && r.material == Last(path).material
  {
    if path == [] then Resolved(None, OriginUnknown)
    else
      var entity := Last(path);
      if !IsDrawingElement(entity) then Resolved(None, OriginUnknown)
      else if entity.material.Some? || !smart then Resolved(entity.material, Owned)
      else
        var dominant := DominantChildMaterial(entity, 0);
        if dominant.Some? then Resolved(dominant, Child)
        else
          var inherited := InheritedMaterial(path);
          Resolved(inherited, if inherited.Some? then Inherited else Owned)
  }
}
