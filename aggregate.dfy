/**
 * The populate loop of `generate_command`: every component path is
 * classified (material, size, raw size) and merged into a group keyed by
 * material and, for typed materials, raw thickness, and inside the group
 * into a part keyed by definition name.
 */
module Aggregate {
  import opened Scene
  import opened Bounds
  import opened Sizing
  import opened Materials
  import opened Collect

  /** What the loop derives from one component path before merging it. */
  datatype Entry = Entry(
    material: Option<Material>,
    origin: Origin,
    kind: MaterialType,
    definitionName: string,
    entityId: int,
    size: Size,
    rawSize: Size,
    rawThicknessAvailable: bool)

  /** `material ? material.name : ''`. */
  function MaterialName(e: Entry): string {
    if e.material.Some? then e.material.value.name else ""
  }

  /** The group identity: the material name and, for a typed material, the raw thickness. */
  datatype GroupKey = GroupKey(materialName: string, thickness: Option<int>)

  function KeyOf(e: Entry): GroupKey {
    GroupKey(MaterialName(e), if e.kind != Unknown then Some(e.rawSize.thickness) else None)
  }

  function DefinitionOf(e: Entry): string { e.definitionName }

  function OriginOf(e: Entry): Origin { e.origin }

  /** The resolved material's name, if any: what bumps a material usage. */
  function UsedMaterial(e: Entry): Option<string> {
    if e.material.Some? then Some(e.material.value.name) else None
  }

  /** PartDef: the first instance's sizes, the instance count, the origins and entity ids seen. */
  datatype PartDef = PartDef(
    definitionId: string,
    name: string,
    size: Size,
    rawSize: Size,
    materialName: string,
    count: nat,
    materialOrigins: seq<Origin>,
    entityIds: seq<int>)

  /** GroupDef: the first instance's material fields, its part count and its parts by definition name. */
  datatype GroupDef = GroupDef(
    id: GroupKey,
    materialName: string,
    materialType: MaterialType,
    rawThickness: int,
    rawThicknessAvailable: bool,
    partCount: nat,
    partNames: seq<string>,
    partDefs: map<string, PartDef>)

  /** MaterialUsage: a model material, its type and how many parts resolved to it. */
  datatype MaterialUsage = MaterialUsage(name: string, displayName: string, kind: MaterialType, useCount: nat)

  /** The attributes MaterialAttributes.new(material) reads; `nilAttributes` stands for a nil material. */
  function AttributesOf(m: Option<Material>, nilAttributes: Attributes): Attributes {
    if m.Some? then m.value.attributes else nilAttributes
  }

  /**
   * One component path classified: its resolved material and origin, finished size
   * of the definition's faces bounds, and raw size from the material's allowances
   * and standard thicknesses (lines 107-130).
   */
  function Classify(path: Path, autoOrient: bool, smart: bool, nilAttributes: Attributes): (e: Entry)
    requires |path| > 0 && Last(path).Instance?
    ensures e.definitionName == Last(path).definition.name && e.entityId == Last(path).entityId
    ensures (e.material, e.origin) == (GetMaterial(path, smart).material, GetMaterial(path, smart).origin)
    ensures var a := AttributesOf(e.material, nilAttributes);
      e.kind == a.kind &&
      e.rawSize.length == e.size.length + a.lengthIncrease &&
      e.rawSize.width == e.size.width + a.widthIncrease &&
      e.rawSize.thickness >= e.size.thickness + a.thicknessIncrease &&
      (e.rawThicknessAvailable ==> e.rawSize.thickness in a.stdThicknesses)
    ensures e.size == SizeFromBounds(FacesBounds(Last(path).definition.entities), autoOrient)
    ensures var a := AttributesOf(e.material, nilAttributes);
      var std := StdThicknessOf(e.size.thickness + a.thicknessIncrease, a.stdThicknesses, a.kind == SolidWood);
      e.rawSize.thickness == std.value && e.rawThicknessAvailable == std.available
    ensures autoOrient ==> e.size.length >= e.size.width >= e.size.thickness
  {
    var entity := Last(path);
    var resolved := GetMaterial(path, smart);
    var a := AttributesOf(resolved.material, nilAttributes);
    var size := SizeFromBounds(FacesBounds(entity.definition.entities), autoOrient);
    var std := StdThicknessOf(size.thickness + a.thicknessIncrease, a.stdThicknesses, a.kind == SolidWood);
    StdThicknessNotBelow(size.thickness + a.thicknessIncrease, a.stdThicknesses, a.kind == SolidWood);
    StdThicknessAvailable(size.thickness + a.thicknessIncrease, a.stdThicknesses, a.kind == SolidWood);
    var rawSize := Size(size.length + a.lengthIncrease, size.width + a.widthIncrease, std.value);
    Entry(resolved.material, resolved.origin, a.kind, entity.definition.name, entity.entityId,
          size, rawSize, std.available)
  }

  /** Paths the loop can classify: each ends with a component instance. */
  predicate InstancePaths(paths: seq<Path>) {
    forall i :: 0 <= i < |paths| ==> |paths[i]| > 0 && Last(paths[i]).Instance?
  }

  function EntriesOf(paths: seq<Path>, autoOrient: bool, smart: bool, nilAttributes: Attributes): (es: seq<Entry>)
    requires InstancePaths(paths)
    ensures |es| == |paths|
  {
    if paths == [] then []
    else
      var init := paths[..|paths| - 1];
      assert forall i :: 0 <= i < |init| ==> init[i] == paths[i];
      EntriesOf(init, autoOrient, smart, nilAttributes) +
      [Classify(paths[|paths| - 1], autoOrient, smart, nilAttributes)]
  }

  // -- The expected result, entry by entry ---------------------------------------

  function EntityIds(q: seq<Entry>): (ids: seq<int>)
    ensures |ids| == |q|
    ensures forall i :: 0 <= i < |q| ==> ids[i] == q[i].entityId
  {
    if q == [] then [] else EntityIds(q[..|q| - 1]) + [q[|q| - 1].entityId]
  }

  /** The part for definition `d` in the entries `g` of one group. */
  function PartOf(g: seq<Entry>, d: string): PartDef
    requires d in Keys(g, DefinitionOf)
  {
    FilterPresent(g, DefinitionOf, d);
    var q := Filter(g, DefinitionOf, d);
    PartDef(d, d, q[0].size, q[0].rawSize, MaterialName(q[0]), |q|, Keys(q, OriginOf), EntityIds(q))
  }

  function PartsOf(g: seq<Entry>): map<string, PartDef> {
    map d | d in Keys(g, DefinitionOf) :: PartOf(g, d)
  }

  /** The group for key `k`, made from the entries that carry it. */
  function GroupOf(es: seq<Entry>, k: GroupKey): GroupDef
    requires k in Keys(es, KeyOf)
  {
    FilterPresent(es, KeyOf, k);
    var g := Filter(es, KeyOf, k);
    GroupDef(k, MaterialName(g[0]), g[0].kind, g[0].rawSize.thickness, g[0].rawThicknessAvailable,
             |g|, Keys(g, DefinitionOf), PartsOf(g))
  }

  function GroupsOf(es: seq<Entry>): map<GroupKey, GroupDef> {
    map k | k in Keys(es, KeyOf) :: GroupOf(es, k)
  }

  /** Every seeded usage with its use count raised once per entry resolved to that material. */
  function Counted(seeded: map<string, MaterialUsage>, es: seq<Entry>): map<string, MaterialUsage> {
    map n | n in seeded :: seeded[n].(useCount := seeded[n].useCount + |Filter(es, UsedMaterial, Some(n))|)
  }

  // -- One merge step --------------------------------------------------------------

  function NewPart(e: Entry): PartDef {
    PartDef(e.definitionName, e.definitionName, e.size, e.rawSize, MaterialName(e), 0, [], [])
  }

  /** One more instance of a part; `add_entity_id` is read as an append, repeats included. */
  function AddToPart(p: PartDef, e: Entry): PartDef {
    p.(materialOrigins := if e.origin in p.materialOrigins then p.materialOrigins else p.materialOrigins + [e.origin],
       count := p.count + 1,
       entityIds := p.entityIds + [e.entityId])
  }

  function NewGroup(e: Entry): GroupDef {
    GroupDef(KeyOf(e), MaterialName(e), e.kind, e.rawSize.thickness, e.rawThicknessAvailable, 0, [], map[])
  }

  function AddToGroup(gd: GroupDef, e: Entry): GroupDef {
    var d := e.definitionName;
    var p := if d in gd.partDefs then gd.partDefs[d] else NewPart(e);
    gd.(partNames := if d in gd.partDefs then gd.partNames else gd.partNames + [d],
        partDefs := gd.partDefs[d := AddToPart(p, e)],
        partCount := gd.partCount + 1)
  }

  lemma EntityIdsSnoc(q: seq<Entry>, e: Entry)
    ensures EntityIds(q + [e]) == EntityIds(q) + [e.entityId]
  {
    SnocParts(q, e);
  }

  /** Merging an entry into its part: the part as if the entry had been there all along. */
  lemma PartSnoc(g: seq<Entry>, e: Entry)
    ensures var d := e.definitionName;
      PartOf(g + [e], d) ==
        AddToPart(if d in Keys(g, DefinitionOf) then PartOf(g, d) else NewPart(e), e)
  {
    var d := e.definitionName;
    KeysSnoc(g, e, DefinitionOf);
    FilterSnoc(g, e, DefinitionOf, d);
    var q := Filter(g, DefinitionOf, d);
    if d !in Keys(g, DefinitionOf) {
      FilterAbsent(g, DefinitionOf, d);
      assert q + [e] == [] + [e];
      assert PartOf(g + [e], d) == PartFrom(d, [] + [e], e);
      MergeIntoPart(d, [], e);
    } else {
      FilterPresent(g, DefinitionOf, d);
      assert PartOf(g, d) == PartFrom(d, q, e);
      assert PartOf(g + [e], d) == PartFrom(d, q + [e], e);
      MergeIntoPart(d, q, e);
    }
  }

  /** The part read off the entries `q` of one definition, or a new one when there are none. */
  function PartFrom(d: string, q: seq<Entry>, e: Entry): PartDef {
    if q == [] then NewPart(e)
    else PartDef(d, d, q[0].size, q[0].rawSize, MaterialName(q[0]), |q|, Keys(q, OriginOf), EntityIds(q))
  }

  /** Merging an entry into the part read off `q` gives the part read off `q + [e]`. */
  lemma MergeIntoPart(d: string, q: seq<Entry>, e: Entry)
    requires d == e.definitionName
    ensures AddToPart(PartFrom(d, q, e), e) == PartFrom(d, q + [e], e)
  {
    EntityIdsSnoc(q, e);
    KeysSnoc(q, e, OriginOf);
    assert (q + [e])[0] == if q == [] then e else q[0];
  }

  /** The other parts do not change. */
  lemma PartOther(g: seq<Entry>, e: Entry, d: string)
    requires d != e.definitionName && d in Keys(g, DefinitionOf)
    ensures d in Keys(g + [e], DefinitionOf) && PartOf(g + [e], d) == PartOf(g, d)
  {
    KeysSnoc(g, e, DefinitionOf);
    FilterSnoc(g, e, DefinitionOf, d);
    assert Filter(g + [e], DefinitionOf, d) == Filter(g, DefinitionOf, d);
  }

  function PartsAfter(g: seq<Entry>, e: Entry): map<string, PartDef> {
    var d := e.definitionName;
    var before := PartsOf(g);
    before[d := AddToPart(if d in before then before[d] else NewPart(e), e)]
  }

  lemma PartsDomainSnoc(g: seq<Entry>, e: Entry)
    ensures forall x :: x in PartsOf(g + [e]) <==> x in PartsOf(g) || x == e.definitionName
  {
    var d := e.definitionName;
    KeysSnoc(g, e, DefinitionOf);
    var ks := Keys(g, DefinitionOf);
    forall x ensures x in Keys(g + [e], DefinitionOf) <==> x in ks || x == d {
      assert x in ks + [d] <==> x in ks || x == d;
    }
  }

  lemma PartsValueSnoc(g: seq<Entry>, e: Entry, x: string)
    requires x in PartsOf(g + [e])
    ensures x in PartsAfter(g, e) && PartsOf(g + [e])[x] == PartsAfter(g, e)[x]
  {
    PartsDomainSnoc(g, e);
    if x == e.definitionName {
      PartSnoc(g, e);
    } else {
      PartOther(g, e, x);
    }
  }

  lemma PartsSnoc(g: seq<Entry>, e: Entry)
    ensures PartsOf(g + [e]) == PartsAfter(g, e)
  {
    PartsDomainSnoc(g, e);
    forall x | x in PartsOf(g + [e])
      ensures PartsOf(g + [e])[x] == PartsAfter(g, e)[x]
    {
      PartsValueSnoc(g, e, x);
    }
    MapExt(PartsOf(g + [e]), PartsAfter(g, e));
  }

  /** Merging an entry into its group. */
  lemma GroupSnoc(es: seq<Entry>, e: Entry)
    ensures var k := KeyOf(e);
      k in Keys(es + [e], KeyOf) &&
      GroupOf(es + [e], k) ==
        AddToGroup(if k in Keys(es, KeyOf) then GroupOf(es, k) else NewGroup(e), e)
  {
    var k := KeyOf(e);
    KeysSnoc(es, e, KeyOf);
    FilterSnoc(es, e, KeyOf, k);
    var g := Filter(es, KeyOf, k);
    if k !in Keys(es, KeyOf) {
      FilterAbsent(es, KeyOf, k);
      assert g + [e] == [] + [e];
      GroupFromFilter(es + [e], k, [] + [e]);
      MergeIntoGroup(k, [], e);
    } else {
      FilterPresent(es, KeyOf, k);
      GroupFromFilter(es + [e], k, g + [e]);
      GroupFromFilter(es, k, g);
      MergeIntoGroup(k, g, e);
    }
  }

  /** The group read off entries `g`, or a new one when there are none. */
  function GroupFrom(k: GroupKey, g: seq<Entry>, e: Entry): GroupDef {
    if g == [] then NewGroup(e)
    else GroupDef(k, MaterialName(g[0]), g[0].kind, g[0].rawSize.thickness, g[0].rawThicknessAvailable,
                  |g|, Keys(g, DefinitionOf), PartsOf(g))
  }

  /** Merging an entry into the group read off `g` gives the group read off `g + [e]`. */
  lemma MergeIntoGroup(k: GroupKey, g: seq<Entry>, e: Entry)
    requires k == KeyOf(e)
    ensures AddToGroup(GroupFrom(k, g, e), e) == GroupFrom(k, g + [e], e)
  {
    PartsSnoc(g, e);
    KeysSnoc(g, e, DefinitionOf);
    assert (g + [e])[0] == if g == [] then e else g[0];
    if g == [] {
      assert PartsOf(g) == map[];
    }
  }

  /** A group read off the entries that carry its key. */
  lemma GroupFromFilter(es: seq<Entry>, k: GroupKey, g: seq<Entry>)
    requires k in Keys(es, KeyOf) && g == Filter(es, KeyOf, k)
    ensures g != [] && GroupOf(es, k) ==
      GroupDef(k, MaterialName(g[0]), g[0].kind, g[0].rawSize.thickness, g[0].rawThicknessAvailable,
               |g|, Keys(g, DefinitionOf), PartsOf(g))
  {
    FilterPresent(es, KeyOf, k);
  }

  lemma GroupOther(es: seq<Entry>, e: Entry, k: GroupKey)
    requires k != KeyOf(e) && k in Keys(es, KeyOf)
    ensures k in Keys(es + [e], KeyOf) && GroupOf(es + [e], k) == GroupOf(es, k)
  {
    KeysSnoc(es, e, KeyOf);
    FilterSnoc(es, e, KeyOf, k);
    assert Filter(es + [e], KeyOf, k) == Filter(es, KeyOf, k);
  }

  function GroupsAfter(es: seq<Entry>, e: Entry): map<GroupKey, GroupDef> {
    var k := KeyOf(e);
    var before := GroupsOf(es);
    before[k := AddToGroup(if k in before then before[k] else NewGroup(e), e)]
  }

  lemma GroupsDomainSnoc(es: seq<Entry>, e: Entry)
    ensures forall x :: x in GroupsOf(es + [e]) <==> x in GroupsOf(es) || x == KeyOf(e)
  {
    var k := KeyOf(e);
    KeysSnoc(es, e, KeyOf);
    var ks := Keys(es, KeyOf);
    forall x ensures x in Keys(es + [e], KeyOf) <==> x in ks || x == k {
      assert x in ks + [k] <==> x in ks || x == k;
    }
  }

  lemma GroupsValueSnoc(es: seq<Entry>, e: Entry, x: GroupKey)
    requires x in GroupsOf(es + [e])
    ensures x in GroupsAfter(es, e) && GroupsOf(es + [e])[x] == GroupsAfter(es, e)[x]
  {
    GroupsDomainSnoc(es, e);
    if x == KeyOf(e) {
      GroupSnoc(es, e);
    } else {
      GroupOther(es, e, x);
    }
  }

  /** Merging an entry updates its own group and no other. */
  lemma GroupsSnoc(es: seq<Entry>, e: Entry)
    ensures GroupsOf(es + [e]) == GroupsAfter(es, e)
  {
    GroupsDomainSnoc(es, e);
    forall x | x in GroupsOf(es + [e])
      ensures GroupsOf(es + [e])[x] == GroupsAfter(es, e)[x]
    {
      GroupsValueSnoc(es, e, x);
    }
    MapExt(GroupsOf(es + [e]), GroupsAfter(es, e));
  }

  function CountedAfter(seeded: map<string, MaterialUsage>, es: seq<Entry>, e: Entry): map<string, MaterialUsage> {
    var before := Counted(seeded, es);
    if e.material.Some? && e.material.value.name in before then
      var n := e.material.value.name;
      before[n := before[n].(useCount := before[n].useCount + 1)]
    else before
  }

  /** Merging an entry bumps the usage of its resolved material, if seeded, and no other. */
  lemma CountedSnoc(seeded: map<string, MaterialUsage>, es: seq<Entry>, e: Entry)
    ensures Counted(seeded, es + [e]) == CountedAfter(seeded, es, e)
  {
    var a, b := Counted(seeded, es + [e]), CountedAfter(seeded, es, e);
    forall n ensures n in a <==> n in b {
    }
    forall n | n in a ensures a[n] == b[n] {
      FilterSnoc(es, e, UsedMaterial, Some(n));
      if UsedMaterial(e) == Some(n) {
        assert e.material.Some? && e.material.value.name == n;
      }
    }
    MapExt(Counted(seeded, es + [e]), CountedAfter(seeded, es, e));
  }

  /** Lines 146-166: the part looked up or created, then the origin, count and id recorded. */
  method MergeEntry(groupDef: GroupDef, e: Entry) returns (r: GroupDef)
    ensures r == AddToGroup(groupDef, e)
  {
    r := groupDef;
    var definitionName := e.definitionName;
    var partDef: PartDef;
    if definitionName in r.partDefs {
      partDef := r.partDefs[definitionName];
    } else {
      partDef := NewPart(e);
      r := r.(partNames := r.partNames + [definitionName]);
    }
    if e.origin !in partDef.materialOrigins {
      partDef := partDef.(materialOrigins := partDef.materialOrigins + [e.origin]);
    }
    partDef := partDef.(count := partDef.count + 1, entityIds := partDef.entityIds + [e.entityId]);
    r := r.(partDefs := r.partDefs[definitionName := partDef], partCount := r.partCount + 1);
  }

  // -- The loop ---------------------------------------------------------------------

  /** Lines 114-119: the usage of the resolved material, when there is one, counts one more use. */
  method CountUse(usages: map<string, MaterialUsage>, e: Entry,
                  ghost es: seq<Entry>, ghost seeded: map<string, MaterialUsage>)
    returns (usages': map<string, MaterialUsage>)
    requires usages == Counted(seeded, es)
    ensures usages' == Counted(seeded, es + [e])
  {
    usages' := usages;
    if e.material.Some? {
      var name := e.material.value.name;
      if name in usages' {
        usages' := usages'[name := usages'[name].(useCount := usages'[name].useCount + 1)];
      }
    }
    CountedSnoc(seeded, es, e);
  }

  /** Lines 132-166: the group looked up or created under the entry's key, then the entry merged into it. */
  method AddEntry(groupIds: seq<GroupKey>, groupDefs: map<GroupKey, GroupDef>, e: Entry, ghost es: seq<Entry>)
    returns (groupIds': seq<GroupKey>, groupDefs': map<GroupKey, GroupDef>)
    requires groupIds == Keys(es, KeyOf) && groupDefs == GroupsOf(es)
    ensures groupIds' == Keys(es + [e], KeyOf)
    ensures groupDefs' == GroupsOf(es + [e])
  {
    groupIds' := groupIds;
    var groupId := KeyOf(e);
    var groupDef: GroupDef;
    if groupId in groupDefs {
      groupDef := groupDefs[groupId];
    } else {
      groupDef := NewGroup(e);
      groupIds' := groupIds' + [groupId];
    }
    groupDef := MergeEntry(groupDef, e);
    groupDefs' := groupDefs[groupId := groupDef];
    GroupsSnoc(es, e);
    KeysSnoc(es, e, KeyOf);
  }

  /** The loop's state describes the entries `es`: groups in creation order, group defs and use counts. */
  predicate Populated(es: seq<Entry>, seeded: map<string, MaterialUsage>,
                      groupIds: seq<GroupKey>, groupDefs: map<GroupKey, GroupDef>, usages: map<string, MaterialUsage>)
  {
    groupIds == Keys(es, KeyOf) && groupDefs == GroupsOf(es) && usages == Counted(seeded, es)
  }

  lemma PopulateStart(seeded: map<string, MaterialUsage>)
    ensures Populated([], seeded, [], map[], seeded)
  {
    MapExt(Counted(seeded, []), seeded);
  }

  /** The loop's state after it has gone through the component paths `done`. */
  predicate PopulatedBy(done: seq<Path>, autoOrient: bool, smart: bool, nilAttributes: Attributes,
                        seeded: map<string, MaterialUsage>,
                        groupIds: seq<GroupKey>, groupDefs: map<GroupKey, GroupDef>, usages: map<string, MaterialUsage>)
  {
    InstancePaths(done) && Populated(EntriesOf(done, autoOrient, smart, nilAttributes), seeded, groupIds, groupDefs, usages)
  }

  /** One turn of the loop: the `i`-th path classified, its material usage counted, the entry merged. */
  method PopulateStep(paths: seq<Path>, i: nat, autoOrient: bool, smart: bool, nilAttributes: Attributes,
                      seeded: map<string, MaterialUsage>,
                      groupIds: seq<GroupKey>, groupDefs: map<GroupKey, GroupDef>, usages: map<string, MaterialUsage>)
    returns (groupIds': seq<GroupKey>, groupDefs': map<GroupKey, GroupDef>, usages': map<string, MaterialUsage>)
    requires i < |paths| && |paths[i]| > 0 && Last(paths[i]).Instance?
    requires PopulatedBy(paths[..i], autoOrient, smart, nilAttributes, seeded, groupIds, groupDefs, usages)
    ensures PopulatedBy(paths[..i + 1], autoOrient, smart, nilAttributes, seeded, groupIds', groupDefs', usages')
  {
    ghost var done := paths[..i];
    assert paths[..i + 1] == done + [paths[i]];
    ghost var es := EntriesOf(done, autoOrient, smart, nilAttributes);
    EntriesOfSnoc(done, paths[i], autoOrient, smart, nilAttributes);
    var e := Classify(paths[i], autoOrient, smart, nilAttributes);
    usages' := CountUse(usages, e, es, seeded);
    groupIds', groupDefs' := AddEntry(groupIds, groupDefs, e, es);
  }

  lemma EntriesOfSnoc(done: seq<Path>, path: Path, autoOrient: bool, smart: bool, nilAttributes: Attributes)
    requires InstancePaths(done) && |path| > 0 && Last(path).Instance?
    ensures InstancePaths(done + [path])
    ensures EntriesOf(done + [path], autoOrient, smart, nilAttributes) ==
            EntriesOf(done, autoOrient, smart, nilAttributes) + [Classify(path, autoOrient, smart, nilAttributes)]
  {
    assert (done + [path])[..|done|] == done;
  }

  /**
   * The `component_paths.each` loop of `generate_command`: the groups created, in
   * creation order, the group defs, and the usages with their use counts.
   */
  method PopulateCutlist(paths: seq<Path>, autoOrient: bool, smart: bool, nilAttributes: Attributes,
                         seeded: map<string, MaterialUsage>)
    returns (groupIds: seq<GroupKey>, groupDefs: map<GroupKey, GroupDef>, usages: map<string, MaterialUsage>)
    requires InstancePaths(paths)
    ensures var es := EntriesOf(paths, autoOrient, smart, nilAttributes);
      groupIds == Keys(es, KeyOf) && groupDefs == GroupsOf(es) && usages == Counted(seeded, es)
  {
    groupIds, groupDefs, usages := [], map[], seeded;
    PopulateStart(seeded);
    assert paths[..0] == [];
    var i := 0;
    while i < |paths|
      invariant 0 <= i <= |paths|
      invariant PopulatedBy(paths[..i], autoOrient, smart, nilAttributes, seeded, groupIds, groupDefs, usages)
    {
      groupIds, groupDefs, usages := PopulateStep(paths, i, autoOrient, smart, nilAttributes, seeded,
                                                  groupIds, groupDefs, usages);
      i := i + 1;
    }
    assert paths[..|paths|] == paths;
  }

  // -- What the populated cutlist satisfies ---------------------------------------------

  /** The sum of the part counts of the groups listed in `ks`. */
  function SumPartCounts(ks: seq<GroupKey>, groups: map<GroupKey, GroupDef>): nat
    requires forall k :: k in ks ==> k in groups
  {
    if ks == [] then 0 else SumPartCounts(ks[..|ks| - 1], groups) + groups[ks[|ks| - 1]].partCount
  }

  lemma {:induction false} SumPartCountsSizes(ks: seq<GroupKey>, es: seq<Entry>)
    requires forall k :: k in ks ==> k in Keys(es, KeyOf)
    ensures forall k :: k in ks ==> k in GroupsOf(es)
    ensures SumPartCounts(ks, GroupsOf(es)) == SumSizes(ks, es, KeyOf)
  {
    if ks != [] {
      var init, k := ks[..|ks| - 1], ks[|ks| - 1];
      assert k in ks;
      assert forall k :: k in init ==> k in ks;
      SumPartCountsSizes(init, es);
      var groups := GroupsOf(es);
      assert groups[k] == GroupOf(es, k);
    }
  }

  /**
   * Each component path adds one to exactly one group: over all groups the part
   * counts add up to the number of paths.
   */
  lemma PartCountsPartition(es: seq<Entry>)
    ensures SumPartCounts(Keys(es, KeyOf), GroupsOf(es)) == |es|
  {
    SumPartCountsSizes(Keys(es, KeyOf), es);
    Partition(es, KeyOf);
  }

  /** The sum of the instance counts of the parts listed in `ds`. */
  function SumCounts(ds: seq<string>, parts: map<string, PartDef>): nat
    requires forall d :: d in ds ==> d in parts
  {
    if ds == [] then 0 else SumCounts(ds[..|ds| - 1], parts) + parts[ds[|ds| - 1]].count
  }

  lemma {:induction false} SumCountsSizes(ds: seq<string>, g: seq<Entry>)
    requires forall d :: d in ds ==> d in PartsOf(g)
    ensures SumCounts(ds, PartsOf(g)) == SumSizes(ds, g, DefinitionOf)
  {
    if ds != [] {
      var init := ds[..|ds| - 1];
      assert forall d :: d in init ==> d in ds;
      SumCountsSizes(init, g);
    }
  }

  /**
   * Inside a group, each path adds one to exactly one part: the part names are the
   * part map's keys, each once, and the instance counts add up to the group's part count.
   */
  lemma GroupPartsPartition(es: seq<Entry>, k: GroupKey)
    requires k in GroupsOf(es)
    ensures var g := GroupsOf(es)[k];
      (forall d :: d in g.partNames <==> d in g.partDefs) &&
      (forall j, j' :: 0 <= j < j' < |g.partNames| ==> g.partNames[j] != g.partNames[j']) &&
      SumCounts(g.partNames, g.partDefs) == g.partCount
  {
    var q := Filter(es, KeyOf, k);
    SumCountsSizes(Keys(q, DefinitionOf), q);
    Partition(q, DefinitionOf);
  }

  /** The identity of a part: its group and its definition name. */
  function PartKeyOf(e: Entry): (GroupKey, string) { (KeyOf(e), e.definitionName) }

  /** Selecting a group and then a definition selects the entries of one part. */
  lemma {:induction false} FilterPart(es: seq<Entry>, k: GroupKey, d: string)
    ensures Filter(Filter(es, KeyOf, k), DefinitionOf, d) == Filter(es, PartKeyOf, (k, d))
  {
    if es != [] {
      var init, e := es[..|es| - 1], es[|es| - 1];
      assert es == init + [e];
      FilterPart(init, k, d);
      FilterSnoc(init, e, KeyOf, k);
      FilterSnoc(init, e, PartKeyOf, (k, d));
      var g := Filter(init, KeyOf, k);
      if KeyOf(e) == k {
        FilterSnoc(g, e, DefinitionOf, d);
      } else {
        assert Filter(es, KeyOf, k) == g;
      }
    }
  }

  /**
   * A group holds the fields of the first path that produced its key, and its key
   * carries the raw thickness exactly when that material is typed.
   */
  lemma GroupFacts(es: seq<Entry>, k: GroupKey)
    requires k in GroupsOf(es)
    ensures var g := GroupsOf(es)[k];
      g.id == k && g.partCount == |Filter(es, KeyOf, k)| && g.partCount > 0 &&
      g.materialName == k.materialName &&
      (g.materialType != Unknown <==> k.thickness.Some?) &&
      (g.materialType != Unknown ==> k.thickness == Some(g.rawThickness)) &&
      exists i :: 0 <= i < |es| && KeyOf(es[i]) == k &&
                  (forall j :: 0 <= j < i ==> KeyOf(es[j]) != k) &&
                  g.materialType == es[i].kind && g.rawThickness == es[i].rawSize.thickness &&
                  g.rawThicknessAvailable == es[i].rawThicknessAvailable
  {
    var q := Filter(es, KeyOf, k);
    assert GroupsOf(es)[k] == GroupOf(es, k);
    GroupFromFilter(es, k, q);
    FilterHead(es, KeyOf, k);
    var i :| 0 <= i < |es| && es[i] == q[0] && KeyOf(es[i]) == k && (forall j :: 0 <= j < i ==> KeyOf(es[j]) != k);
    assert KeyOf(q[0]) == k;
  }

  /** The part of definition `d` in group `k` is made from the entries of that part. */
  lemma PartIsOf(es: seq<Entry>, k: GroupKey, d: string)
    requires k in GroupsOf(es) && d in GroupsOf(es)[k].partDefs
    ensures var q := Filter(es, PartKeyOf, (k, d));
      q != [] &&
      GroupsOf(es)[k].partDefs[d] ==
        PartDef(d, d, q[0].size, q[0].rawSize, MaterialName(q[0]), |q|, Keys(q, OriginOf), EntityIds(q))
  {
    var g := Filter(es, KeyOf, k);
    assert GroupsOf(es)[k] == GroupOf(es, k);
    assert GroupsOf(es)[k].partDefs == PartsOf(g);
    FilterPresent(g, DefinitionOf, d);
    FilterPart(es, k, d);
  }

  /** The origins recorded are exactly those of the entries selected, each once. */
  lemma OriginsExact(es: seq<Entry>, q: seq<Entry>, pk: (GroupKey, string))
    requires q == Filter(es, PartKeyOf, pk)
    ensures forall o :: o in Keys(q, OriginOf) <==>
      exists i :: 0 <= i < |es| && PartKeyOf(es[i]) == pk && es[i].origin == o
  {
    FilterMembers(es, PartKeyOf, pk);
    forall o ensures o in Keys(q, OriginOf) <==>
      exists i :: 0 <= i < |es| && PartKeyOf(es[i]) == pk && es[i].origin == o
    {
      if o in Keys(q, OriginOf) {
        FilterPresent(q, OriginOf, o);
        var x := Filter(q, OriginOf, o)[0];
        assert x in Filter(q, OriginOf, o);
        assert x in es;
        var i :| 0 <= i < |es| && es[i] == x;
      } else {
        forall i | 0 <= i < |es| && PartKeyOf(es[i]) == pk ensures es[i].origin != o {
          assert es[i] in q;
          var j :| 0 <= j < |q| && q[j] == es[i];
        }
      }
    }
  }

  /**
   * A part: definition name as id and name, one entity id per instance, each origin
   * once and exactly the origins its instances had, and the sizes of its first instance.
   */
  lemma PartFacts(es: seq<Entry>, k: GroupKey, d: string)
    requires k in GroupsOf(es) && d in GroupsOf(es)[k].partDefs
    ensures var p := GroupsOf(es)[k].partDefs[d];
      p.definitionId == d && p.name == d &&
      p.count == |p.entityIds| && p.count > 0 &&
      p.entityIds == EntityIds(Filter(es, PartKeyOf, (k, d))) &&
      (forall j, j' :: 0 <= j < j' < |p.materialOrigins| ==> p.materialOrigins[j] != p.materialOrigins[j']) &&
      (forall o :: o in p.materialOrigins <==>
         exists i :: 0 <= i < |es| && PartKeyOf(es[i]) == (k, d) && es[i].origin == o) &&
      exists i :: 0 <= i < |es| && PartKeyOf(es[i]) == (k, d) &&
                  (forall j :: 0 <= j < i ==> PartKeyOf(es[j]) != (k, d)) &&
                  p.size == es[i].size && p.rawSize == es[i].rawSize && p.materialName == MaterialName(es[i])
  {
    PartIsOf(es, k, d);
    var q := Filter(es, PartKeyOf, (k, d));
    FilterHead(es, PartKeyOf, (k, d));
    OriginsExact(es, q, (k, d));
  }

  /** Every path is accounted for: its group, its part and its entity id are all recorded. */
  lemma EveryEntryPlaced(es: seq<Entry>, i: nat)
    requires i < |es|
    ensures var k := KeyOf(es[i]);
      k in GroupsOf(es) && es[i].definitionName in GroupsOf(es)[k].partDefs &&
      es[i].entityId in GroupsOf(es)[k].partDefs[es[i].definitionName].entityIds
  {
    var k, d := KeyOf(es[i]), es[i].definitionName;
    FilterMembers(es, KeyOf, k);
    var g := Filter(es, KeyOf, k);
    assert es[i] in g;
    var j :| 0 <= j < |g| && g[j] == es[i];
    FilterPart(es, k, d);
    FilterMembers(es, PartKeyOf, (k, d));
    var q := Filter(es, PartKeyOf, (k, d));
    assert es[i] in q;
    var m :| 0 <= m < |q| && q[m] == es[i];
    assert EntityIds(q)[m] == es[i].entityId;
  }
}
