/**
 * `generate_command` end to end: the component paths found under the selection
 * (or the active entities), the material usages seeded and counted, the
 * diagnostics, and the report with its sorted usages and numbered groups.
 */
module Generate {
  import opened Scene
  import opened Sizing
  import opened Materials
  import opened Discovery
  import opened Collect
  import opened Sorting
  import opened Numbering
  import opened Aggregate
  import opened Cutlist

  /** `model.active_path ? model.active_path : []`. */
  function StartPath(activePath: Option<Path>): Path {
    if activePath.Some? then activePath.value else []
  }

  /** The entities walked: the selection, or the active entities when nothing is selected. */
  function Walked(selection: seq<Node>, activeEntities: seq<Node>): seq<Node> {
    if selection == [] then activeEntities else selection
  }

  /** The component paths the walk records: each one useful and below the active path. */
  function ComponentPaths(selection: seq<Node>, activeEntities: seq<Node>, activePath: Option<Path>): (r: seq<Path>)
    ensures InstancePaths(r)
    ensures forall p :: p in r ==>
      Useful(p) && Extends(p, StartPath(activePath)) && p[|StartPath(activePath)|] in Walked(selection, activeEntities)
  {
    var r := DiscoverAll(Walked(selection, activeEntities), StartPath(activePath)).paths;
    assert forall i :: 0 <= i < |r| ==> r[i] in r;
    r
  }

  /** `sort_by { |k, v| [MaterialAttributes.type_order(v.material_type), ...] }` as a key function. */
  function GroupOrderBy(typeOrder: MaterialType -> int): GroupDef -> SortKey {
    (g: GroupDef) => GroupOrder(typeOrder, g)
  }

  function PartCountOf(g: GroupDef): int { g.partCount }

  function OutPartCountOf(g: GroupOut): int { g.partCount }

  /** The group defs of the entries in report order: all of them, once each, sorted. */
  function SortedGroups(es: seq<Entry>, typeOrder: MaterialType -> int): (gs: seq<GroupDef>)
    ensures AllWellFormed(gs)
    ensures multiset(gs) == multiset(ValuesOf(Keys(es, KeyOf), GroupsOf(es)))
    ensures SortedBy(gs, GroupOrderBy(typeOrder))
  {
    var vs := ValuesOf(Keys(es, KeyOf), GroupsOf(es));
    GroupValuesWellFormed(es);
    var gs := SortBy(vs, GroupOrderBy(typeOrder));
    forall x | 0 <= x < |gs| ensures WellFormed(gs[x]) {
      assert gs[x] in multiset(vs);
    }
    gs
  }

  /** Every group def the populate loop builds lists only part names it holds. */
  lemma GroupValuesWellFormed(es: seq<Entry>)
    ensures forall g :: g in ValuesOf(Keys(es, KeyOf), GroupsOf(es)) ==> WellFormed(g)
  {
    var ks, groups := Keys(es, KeyOf), GroupsOf(es);
    var vs := ValuesOf(ks, groups);
    forall i | 0 <= i < |vs| ensures WellFormed(vs[i]) {
      var k := ks[i];
      assert k in groups;
      GroupPartsPartition(es, k);
    }
  }

  /** Every model material's name has a usage once the parts are counted. */
  lemma UsagesCover(ms: seq<Material>, es: seq<Entry>)
    ensures forall n :: n in Keys(ms, NameOf) ==> n in Counted(Seeded(ms), es)
  {
  }

  /** The errors, warnings and tips for the counted usages. */
  function TypedDiagnostics(ms: seq<Material>, es: seq<Entry>, pathCount: nat, modelEntityCount: nat,
                            useSelection: bool): Diagnostics
  {
    UsagesCover(ms, es);
    var names, usages := Keys(ms, NameOf), Counted(Seeded(ms), es);
    DiagnosticsOf(pathCount, modelEntityCount, useSelection,
                  TypedUses(names, usages, SolidWood), TypedUses(names, usages, SheetGood))
  }

  /** The report's material usages: every seeded usage with its count, by display name. */
  function UsageList(ms: seq<Material>, es: seq<Entry>): seq<MaterialUsage> {
    UsagesCover(ms, es);
    SortBy(ValuesOf(Keys(ms, NameOf), Counted(Seeded(ms), es)), UsageOrder)
  }

  /** The report's groups. */
  function GroupList(es: seq<Entry>, typeOrder: MaterialType -> int, settings: Settings,
                     partOrder: PartDef -> SortKey): seq<GroupOut>
  {
    var gs := SortedGroups(es, typeOrder);
    EmittedUpTo(gs, |gs|, LabelOf(settings.partNumberWithLetters), settings.partNumberSequenceByGroup, partOrder)
  }

  /** The whole report `generate_command` returns for the entries `es` of the component paths. */
  function ReportOf(settings: Settings, pathCount: nat, es: seq<Entry>, useSelection: bool, modelEntityCount: nat,
                    materials: seq<Material>, filename: string, pageLabel: string,
                    typeOrder: MaterialType -> int, partOrder: PartDef -> SortKey): Report
  {
    var d := TypedDiagnostics(materials, es, pathCount, modelEntityCount, useSelection);
    Report(d.errors, d.warnings, d.tips, filename, pageLabel, UsageList(materials, es),
           GroupList(es, typeOrder, settings, partOrder))
  }

  /** `entities.each { |entity| _fetch_useful_component_paths(entity, component_paths, path) }`. */
  method FindComponentPaths(selection: seq<Node>, activeEntities: seq<Node>, activePath: Option<Path>)
    returns (componentPaths: seq<Path>)
    ensures componentPaths == ComponentPaths(selection, activeEntities, activePath)
  {
    var entities := if selection == [] then activeEntities else selection;
    var path := if activePath.Some? then activePath.value else [];
    var _, paths := FetchChildren(entities, [], path);
    componentPaths := paths;
  }

  /** The errors and tips of lines 81-92 and the warnings and tips of lines 170-187. */
  method Diagnose(pathCount: nat, modelEntityCount: nat, useSelection: bool,
                  names: seq<string>, usages: map<string, MaterialUsage>, ghost ms: seq<Material>, ghost es: seq<Entry>)
    returns (d: Diagnostics)
    requires names == Keys(ms, NameOf) && usages == Counted(Seeded(ms), es)
    ensures d == TypedDiagnostics(ms, es, pathCount, modelEntityCount, useSelection)
  {
    UsagesCover(ms, es);
    var hardwood, plywood := 0, 0;
    if pathCount > 0 {
      hardwood, plywood := CountTypedUses(names, usages);
    }
    d := DiagnosticsOf(pathCount, modelEntityCount, useSelection, hardwood, plywood);
  }

  /** `cutlist.material_usages.sort_by { ... }.each { ... data[:material_usages].push(...) }`. */
  method ListUsages(names: seq<string>, usages: map<string, MaterialUsage>, ghost ms: seq<Material>, ghost es: seq<Entry>)
    returns (usageList: seq<MaterialUsage>)
    requires names == Keys(ms, NameOf) && usages == Counted(Seeded(ms), es)
    ensures usageList == UsageList(ms, es)
  {
    UsagesCover(ms, es);
    usageList := SortBy(ValuesOf(names, usages), UsageOrder);
  }

  /** `cutlist.group_defs.sort_by { ... }.each { ... }`. */
  method ListGroups(groupIds: seq<GroupKey>, groupDefs: map<GroupKey, GroupDef>, ghost es: seq<Entry>,
                    typeOrder: MaterialType -> int, settings: Settings, partOrder: PartDef -> SortKey)
    returns (groups: seq<GroupOut>)
    requires groupIds == Keys(es, KeyOf) && groupDefs == GroupsOf(es)
    ensures groups == GroupList(es, typeOrder, settings, partOrder)
  {
    var groupList := SortBy(ValuesOf(groupIds, groupDefs), GroupOrderBy(typeOrder));
    assert groupList == SortedGroups(es, typeOrder);
    groups := EmitGroups(groupList, settings.partNumberWithLetters, settings.partNumberSequenceByGroup, partOrder);
  }

  /**
   * `generate_command`: the host model's selection, active entities, active path,
   * entity count, materials, file name and page label are parameters, as are the
   * attributes of a nil material and the two ordering strategies.
   */
  method GenerateCommand(settings: Settings, selection: seq<Node>, activeEntities: seq<Node>,
                         activePath: Option<Path>, modelEntityCount: nat, materials: seq<Material>,
                         filename: string, pageLabel: string, nilAttributes: Attributes,
                         typeOrder: MaterialType -> int, partOrder: PartDef -> SortKey)
    returns (report: Report)
    ensures var paths := ComponentPaths(selection, activeEntities, activePath);
      report == ReportOf(settings, |paths|, EntriesOf(paths, settings.autoOrient, settings.smartMaterial, nilAttributes),
                         selection != [], modelEntityCount, materials, filename, pageLabel, typeOrder, partOrder)
  {
    var useSelection := selection != [];
    var componentPaths := FindComponentPaths(selection, activeEntities, activePath);
    ghost var es := EntriesOf(componentPaths, settings.autoOrient, settings.smartMaterial, nilAttributes);
    var names, seeded := SeedUsages(materials);
    var groupIds, groupDefs, usages :=
      PopulateCutlist(componentPaths, settings.autoOrient, settings.smartMaterial, nilAttributes, seeded);
    var d := Diagnose(|componentPaths|, modelEntityCount, useSelection, names, usages, materials, es);
    var usageList := ListUsages(names, usages, materials, es);
    var groups := ListGroups(groupIds, groupDefs, es, typeOrder, settings, partOrder);
    report := Report(d.errors, d.warnings, d.tips, filename, pageLabel, usageList, groups);
  }

  // -- What the report satisfies -------------------------------------------------------

  lemma {:induction false} ValuesOfPartCounts(ks: seq<GroupKey>, m: map<GroupKey, GroupDef>)
    requires forall k :: k in ks ==> k in m
    ensures SumOf(ValuesOf(ks, m), PartCountOf) == SumPartCounts(ks, m)
  {
    if ks != [] {
      var init, k := ks[..|ks| - 1], ks[|ks| - 1];
      assert forall j :: j in init ==> j in ks;
      ValuesOfPartCounts(init, m);
      assert ValuesOf(ks, m) == ValuesOf(init, m) + [m[k]];
      SumOfSnoc(ValuesOf(init, m), m[k], PartCountOf);
    }
  }

  /** Each component path is counted in exactly one reported group: the part counts add up to the paths. */
  lemma {:induction false} ReportPartCounts(es: seq<Entry>, typeOrder: MaterialType -> int, settings: Settings, partOrder: PartDef -> SortKey)
    ensures SumOf(GroupList(es, typeOrder, settings, partOrder), OutPartCountOf) == |es|
  {
    var ks, m := Keys(es, KeyOf), GroupsOf(es);
    var vs, gs := ValuesOf(ks, m), SortedGroups(es, typeOrder);
    var out := GroupList(es, typeOrder, settings, partOrder);
    ValuesOfPartCounts(ks, m);
    PartCountsPartition(es);
    SumOfPermutation(gs, vs, PartCountOf);
    SumOfPointwise(out, gs, OutPartCountOf, PartCountOf);
  }

  /** A group reports one part per part name, the `j`-th numbered `numberOf(Start + j)`. */
  lemma EmittedNumber(gs: seq<GroupDef>, x: nat, numberOf: nat -> string, byGroup: bool,
                      partOrder: PartDef -> SortKey, j: nat)
    requires x < |gs| && AllWellFormed(gs)
    ensures |Emitted(gs, x, numberOf, byGroup, partOrder).parts| == |gs[x].partNames|
    ensures j < |gs[x].partNames| ==>
      Emitted(gs, x, numberOf, byGroup, partOrder).parts[j].number == numberOf(Start(gs, x, byGroup) + j)
  {
  }

  lemma {:induction false} PartsBeforeMonotone(gs: seq<GroupDef>, x: nat, y: nat)
    requires x <= y <= |gs|
    ensures PartsBefore(gs, x) <= PartsBefore(gs, y)
    decreases y
  {
    if x < y {
      PartsBeforeMonotone(gs, x, y - 1);
    }
  }

  /** Different places in the numbering get different numbers. */
  ghost predicate Distinct(numberOf: nat -> string) {
    forall i: nat, i': nat :: i != i' ==> numberOf(i) != numberOf(i')
  }

  /** The decimal and the letter numberings never repeat a number. */
  lemma LabelsDistinct(letters: bool)
    ensures Distinct(LabelOf(letters))
  {
    forall i: nat, i': nat | i != i' ensures Label(i, letters) != Label(i', letters) {
      if Label(i, letters) == Label(i', letters) {
        LabelInjective(i, i', letters);
      }
    }
  }

  /**
   * With one numbering sequence for the whole report, no two parts share a number,
   * whether in the same group or in different ones.
   */
  lemma NumbersUnique(gs: seq<GroupDef>, numberOf: nat -> string, partOrder: PartDef -> SortKey,
                      x: nat, j: nat, y: nat, j': nat)
    requires AllWellFormed(gs) && Distinct(numberOf) && x < |gs| && y < |gs|
    requires j < |gs[x].partNames| && j' < |gs[y].partNames| && (x, j) != (y, j')
    ensures Emitted(gs, x, numberOf, false, partOrder).parts[j].number !=
            Emitted(gs, y, numberOf, false, partOrder).parts[j'].number
  {
    EmittedNumber(gs, x, numberOf, false, partOrder, j);
    EmittedNumber(gs, y, numberOf, false, partOrder, j');
    PositionsDistinct(gs, x, j, y, j');
  }

  /** Parts of different positions in the report get different places in the numbering. */
  lemma PositionsDistinct(gs: seq<GroupDef>, x: nat, j: nat, y: nat, j': nat)
    requires x < |gs| && y < |gs|
    requires j < |gs[x].partNames| && j' < |gs[y].partNames| && (x, j) != (y, j')
    ensures PartsBefore(gs, x) + j != PartsBefore(gs, y) + j'
  {
    if x < y {
      PartsBeforeMonotone(gs, x + 1, y);
    } else if y < x {
      PartsBeforeMonotone(gs, y + 1, x);
    }
  }

  /**
   * With a sequence per group, each group numbers its parts from the first number on
   * and no two parts of one group share a number.
   */
  lemma NumbersUniqueInGroup(gs: seq<GroupDef>, numberOf: nat -> string, partOrder: PartDef -> SortKey,
                             x: nat, j: nat, j': nat)
    requires AllWellFormed(gs) && Distinct(numberOf) && x < |gs| && j < j' < |gs[x].partNames|
    ensures Emitted(gs, x, numberOf, true, partOrder).parts[0].number == numberOf(0)
    ensures Emitted(gs, x, numberOf, true, partOrder).parts[j].number !=
            Emitted(gs, x, numberOf, true, partOrder).parts[j'].number
  {
    EmittedNumber(gs, x, numberOf, true, partOrder, 0);
    EmittedNumber(gs, x, numberOf, true, partOrder, j);
    EmittedNumber(gs, x, numberOf, true, partOrder, j');
  }

  /**
   * A group's raw area and volume do not depend on the part order: they are the totals
   * over its part defs, area for typed materials, volume for solid wood only.
   */
  lemma EmittedTotals(gs: seq<GroupDef>, x: nat, numberOf: nat -> string, byGroup: bool, partOrder: PartDef -> SortKey)
    requires x < |gs| && AllWellFormed(gs)
    ensures Emitted(gs, x, numberOf, byGroup, partOrder).rawArea == GroupArea(gs[x].materialType, PartsList(gs[x]))
    ensures Emitted(gs, x, numberOf, byGroup, partOrder).rawVolume == GroupVolume(gs[x].materialType, PartsList(gs[x]))
  {
    var ps := PartsList(gs[x]);
    SumOfPermutation(SortBy(ps, partOrder), ps, RawAreaOf);
    SumOfPermutation(SortBy(ps, partOrder), ps, RawVolumeOf);
  }

  /** Two solid-wood parts of 100 x 50 x 18 and 200 x 50 x 18: area 15000, volume 270000; no volume for sheet goods. */
  lemma TotalsExample()
    ensures var a := PartDef("a", "a", Size(100, 50, 18), Size(100, 50, 18), "Oak", 1, [], []);
      var b := PartDef("b", "b", Size(200, 50, 18), Size(200, 50, 18), "Oak", 1, [], []);
      GroupArea(SolidWood, [a, b]) == 15000 && GroupVolume(SolidWood, [a, b]) == 270000 &&
      GroupArea(SheetGood, [a, b]) == 15000 && GroupVolume(SheetGood, [a, b]) == 0 &&
      GroupArea(Unknown, [a, b]) == 0
  {
    var a := PartDef("a", "a", Size(100, 50, 18), Size(100, 50, 18), "Oak", 1, [], []);
    var b := PartDef("b", "b", Size(200, 50, 18), Size(200, 50, 18), "Oak", 1, [], []);
    SumOfSnoc([], a, RawAreaOf);
    SumOfSnoc([], a, RawVolumeOf);
    assert [] + [a] == [a] && [a] + [b] == [a, b];
    SumOfSnoc([a], b, RawAreaOf);
    SumOfSnoc([a], b, RawVolumeOf);
  }

  /**
   * Every reported usage belongs to a model material of that name and counts exactly
   * the parts that resolved to it; the usages come sorted by display name.
   */
  lemma {:induction false} UsageListFacts(ms: seq<Material>, es: seq<Entry>)
    ensures SortedBy(UsageList(ms, es), UsageOrder)
    ensures forall u :: u in UsageList(ms, es) ==>
      (exists i :: 0 <= i < |ms| && ms[i].name == u.name) &&
      u.useCount == |Filter(es, UsedMaterial, Some(u.name))|
  {
    var ks, usages := Keys(ms, NameOf), Counted(Seeded(ms), es);
    UsagesCover(ms, es);
    var vs := ValuesOf(ks, usages);
    SameMembers(UsageList(ms, es), vs);
    forall j | 0 <= j < |vs| ensures Accounted(ms, es, vs[j]) {
      CountedUsage(ms, es, ks[j]);
    }
    forall u | u in UsageList(ms, es) ensures Accounted(ms, es, u) {
      assert u in vs;
    }
  }

  /** A reported usage belongs to a model material and counts the entries resolved to it. */
  ghost predicate Accounted(ms: seq<Material>, es: seq<Entry>, u: MaterialUsage) {
    (exists i :: 0 <= i < |ms| && ms[i].name == u.name) && u.useCount == |Filter(es, UsedMaterial, Some(u.name))|
  }

  /** The counted usage of a model material: its name, and the entries resolved to it. */
  lemma CountedUsage(ms: seq<Material>, es: seq<Entry>, n: string)
    requires n in Keys(ms, NameOf)
    ensures n in Counted(Seeded(ms), es)
    ensures Counted(Seeded(ms), es)[n].name == n && Accounted(ms, es, Counted(Seeded(ms), es)[n])
  {
    SeededFacts(ms, n);
    var seeded := Seeded(ms);
    assert n in seeded && seeded[n].name == n && seeded[n].useCount == 0;
    assert Counted(seeded, es)[n] ==
      seeded[n].(useCount := seeded[n].useCount + |Filter(es, UsedMaterial, Some(n))|);
  }

  /**
   * With component paths found, the no-typed-materials warning and tip appear exactly
   * when no part resolved to a model material of type solid wood or sheet good.
   */
  lemma {:induction false} NoTypedWarning(ms: seq<Material>, es: seq<Entry>, pathCount: nat, modelEntityCount: nat, useSelection: bool)
    requires pathCount > 0
    ensures var d := TypedDiagnostics(ms, es, pathCount, modelEntityCount, useSelection);
      (d.tips == [TipNoTypedMaterials]) <==>
      forall i :: 0 <= i < |es| && UsedMaterial(es[i]).Some? && UsedMaterial(es[i]).value in Seeded(ms) ==>
        Seeded(ms)[UsedMaterial(es[i]).value].kind !in {SolidWood, SheetGood}
  {
    NoTypedUses(ms, es, SolidWood);
    NoTypedUses(ms, es, SheetGood);
  }
}
