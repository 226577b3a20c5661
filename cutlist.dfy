/**
 * The rest of `generate_command`: material usages seeded from the model's
 * materials, errors, warnings and tips, and the report: usages sorted by
 * display name, groups sorted by type, material and thickness, parts sorted
 * and numbered, and raw area and volume per group.
 */
module Cutlist {
  import opened Scene
  import opened Sizing
  import opened Materials
  import opened Discovery
  import opened Collect
  import opened Sorting
  import opened Numbering
  import opened Aggregate

  datatype Settings = Settings(
    autoOrient: bool,
    smartMaterial: bool,
    partNumberWithLetters: bool,
    partNumberSequenceByGroup: bool)

  // -- Seeding the material usages (lines 95-100) ------------------------------------

  function NameOf(m: Material): string { m.name }

  function UsageOf(m: Material): MaterialUsage {
    MaterialUsage(m.name, m.displayName, m.attributes.kind, 0)
  }

  /** The material `set_material_usage` leaves under name `n`: the last one carrying it. */
  function LastNamed(ms: seq<Material>, n: string): Material
    requires n in Keys(ms, NameOf)
  {
    FilterPresent(ms, NameOf, n);
    var f := Filter(ms, NameOf, n);
    f[|f| - 1]
  }

  /** The usages hash after the seeding loop. */
  function Seeded(ms: seq<Material>): map<string, MaterialUsage> {
    map n | n in Keys(ms, NameOf) :: UsageOf(LastNamed(ms, n))
  }

  lemma SeededSnoc(ms: seq<Material>, m: Material)
    ensures Seeded(ms + [m]) == Seeded(ms)[m.name := UsageOf(m)]
  {
    KeysSnoc(ms, m, NameOf);
    var a, b := Seeded(ms + [m]), Seeded(ms)[m.name := UsageOf(m)];
    forall n ensures n in a <==> n in b {
    }
    forall n | n in a ensures a[n] == b[n] {
      FilterSnoc(ms, m, NameOf, n);
    }
    MapExt(a, b);
  }

  /** `materials.each { ... cutlist.set_material_usage(material.name, ...) }`. */
  method SeedUsages(materials: seq<Material>) returns (names: seq<string>, usages: map<string, MaterialUsage>)
    ensures names == Keys(materials, NameOf)
    ensures usages == Seeded(materials)
  {
    names, usages := [], map[];
    SeededStart();
    assert materials[..0] == [];
    var i := 0;
    while i < |materials|
      invariant 0 <= i <= |materials|
      invariant SeededState(materials[..i], names, usages)
    {
      names, usages := SeedUsage(materials, i, names, usages);
      i := i + 1;
    }
    assert materials[..|materials|] == materials;
  }

  /** The hash order and the usages hash after the seeding loop has seen `ms`. */
  predicate SeededState(ms: seq<Material>, names: seq<string>, usages: map<string, MaterialUsage>) {
    names == Keys(ms, NameOf) && usages == Seeded(ms)
  }

  lemma SeededStart()
    ensures SeededState([], [], map[])
  {
    MapExt(Seeded([]), map[]);
  }

  /** One `set_material_usage`: a new name is appended to the hash order, and the usage replaced. */
  method SeedUsage(materials: seq<Material>, i: nat, names: seq<string>, usages: map<string, MaterialUsage>)
    returns (names': seq<string>, usages': map<string, MaterialUsage>)
    requires i < |materials| && SeededState(materials[..i], names, usages)
    ensures SeededState(materials[..i + 1], names', usages')
  {
    ghost var ms := materials[..i];
    var material := materials[i];
    assert materials[..i + 1] == ms + [material];
    KeysSnoc(ms, material, NameOf);
    SeededSnoc(ms, material);
    names' := names;
    if material.name !in usages {
      names' := names + [material.name];
    }
    usages' := usages[material.name := UsageOf(material)];
  }

  /**
   * Every model material has a usage under its name, with no uses yet, taken from
   * the last material of that name; no other name has one.
   */
  lemma SeededFacts(ms: seq<Material>, n: string)
    ensures n in Seeded(ms) <==> exists i :: 0 <= i < |ms| && ms[i].name == n
    ensures n in Seeded(ms) ==>
      Seeded(ms)[n].name == n && Seeded(ms)[n].useCount == 0 &&
      exists i :: 0 <= i < |ms| && ms[i].name == n && Seeded(ms)[n] == UsageOf(ms[i]) &&
                  (forall j :: i < j < |ms| ==> ms[j].name != n)
  {
    if n in Keys(ms, NameOf) {
      FilterPresent(ms, NameOf, n);
      FilterLast(ms, NameOf, n);
    } else {
      forall i | 0 <= i < |ms| ensures ms[i].name != n {
        assert NameOf(ms[i]) in Keys(ms, NameOf);
      }
    }
  }

  // -- Typed material uses (lines 174-182) ----------------------------------------------

  function UsesOfKind(u: MaterialUsage, kind: MaterialType): nat {
    if u.kind == kind then u.useCount else 0
  }

  /** The use counts of the usages of type `kind`, over the names in hash order. */
  function TypedUses(names: seq<string>, usages: map<string, MaterialUsage>, kind: MaterialType): nat
    requires forall n :: n in names ==> n in usages
  {
    if names == [] then 0
    else TypedUses(names[..|names| - 1], usages, kind) + UsesOfKind(usages[names[|names| - 1]], kind)
  }

  /** The hardwood and plywood counters of `cutlist.material_usages.each`. */
  method CountTypedUses(names: seq<string>, usages: map<string, MaterialUsage>)
    returns (hardwood: nat, plywood: nat)
    requires forall n :: n in names ==> n in usages
    ensures hardwood == TypedUses(names, usages, SolidWood)
    ensures plywood == TypedUses(names, usages, SheetGood)
  {
    hardwood, plywood := 0, 0;
    var i := 0;
    while i < |names|
      invariant 0 <= i <= |names|
      invariant hardwood == TypedUses(names[..i], usages, SolidWood)
      invariant plywood == TypedUses(names[..i], usages, SheetGood)
    {
      assert names[..i + 1][..i] == names[..i];
      var usage := usages[names[i]];
      if usage.kind == SolidWood {
        hardwood := hardwood + usage.useCount;
      } else if usage.kind == SheetGood {
        plywood := plywood + usage.useCount;
      }
      i := i + 1;
    }
    assert names[..|names|] == names;
  }

  /** The typed count is zero exactly when no listed usage of that type was used. */
  lemma {:induction false} TypedUsesZero(names: seq<string>, usages: map<string, MaterialUsage>, kind: MaterialType)
    requires forall n :: n in names ==> n in usages
    ensures TypedUses(names, usages, kind) == 0 <==>
            forall n :: n in names && usages[n].kind == kind ==> usages[n].useCount == 0
  {
    if names != [] {
      var init, last := names[..|names| - 1], names[|names| - 1];
      assert names == init + [last];
      TypedUsesZero(init, usages, kind);
    }
  }

  /**
   * After the populate loop, the typed count of `kind` is zero exactly when no part
   * resolved to a model material whose usage has that type.
   */
  lemma NoTypedUses(ms: seq<Material>, es: seq<Entry>, kind: MaterialType)
    ensures forall n :: n in Keys(ms, NameOf) ==> n in Counted(Seeded(ms), es)
    ensures TypedUses(Keys(ms, NameOf), Counted(Seeded(ms), es), kind) == 0 <==>
            forall i :: 0 <= i < |es| && UsedMaterial(es[i]).Some? && UsedMaterial(es[i]).value in Seeded(ms) ==>
              Seeded(ms)[UsedMaterial(es[i]).value].kind != kind
  {
    var names, seeded := Keys(ms, NameOf), Seeded(ms);
    var usages := Counted(seeded, es);
    TypedUsesZero(names, usages, kind);
    if forall n :: n in names && usages[n].kind == kind ==> usages[n].useCount == 0 {
      forall i | 0 <= i < |es| && UsedMaterial(es[i]).Some? && UsedMaterial(es[i]).value in seeded
        ensures seeded[UsedMaterial(es[i]).value].kind != kind
      {
        UseCountZero(seeded, es, UsedMaterial(es[i]).value);
      }
    } else {
      var n :| n in names && usages[n].kind == kind && usages[n].useCount != 0;
      UseCountZero(seeded, es, n);
    }
  }

  /** A seeded usage keeps its type, and its count stays zero exactly when no entry resolved to it. */
  lemma UseCountZero(seeded: map<string, MaterialUsage>, es: seq<Entry>, n: string)
    requires n in seeded && seeded[n].useCount == 0
    ensures n in Counted(seeded, es) && Counted(seeded, es)[n].kind == seeded[n].kind
    ensures Counted(seeded, es)[n].useCount == 0 <==> forall i :: 0 <= i < |es| ==> UsedMaterial(es[i]) != Some(n)
  {
    FilterMembers(es, UsedMaterial, Some(n));
    if Counted(seeded, es)[n].useCount != 0 {
      var f := Filter(es, UsedMaterial, Some(n));
      assert f[0] in es;
    }
  }

  // -- Errors, warnings and tips (lines 81-92, 170-187) ----------------------------------

  const ErrorNoEntities := "tab.cutlist.error.no_entities"
  const ErrorNoComponentInSelection := "tab.cutlist.error.no_component_in_selection"
  const ErrorNoComponentInModel := "tab.cutlist.error.no_component_in_model"
  const TipNoComponent := "tab.cutlist.tip.no_component"
  const WarningPartialCutlist := "tab.cutlist.warning.partial_cutlist"
  const WarningNoTypedInSelection := "tab.cutlist.warning.no_typed_materials_in_selection"
  const WarningNoTypedInModel := "tab.cutlist.warning.no_typed_materials_in_model"
  const TipNoTypedMaterials := "tab.cutlist.tip.no_typed_materials"

  datatype Diagnostics = Diagnostics(errors: seq<string>, warnings: seq<string>, tips: seq<string>)

  /**
   * With no component path there is exactly one error and no warning, and a tip unless
   * the model is empty; with paths there is no error, a partial-cutlist warning exactly
   * for a selection, and the no-typed-materials warning and tip exactly when no typed
   * material was used.
   */
  function DiagnosticsOf(pathCount: nat, modelEntityCount: nat, useSelection: bool,
                         hardwood: nat, plywood: nat): (d: Diagnostics)
    ensures pathCount == 0 <==> d.errors != []
    ensures pathCount == 0 ==> d.warnings == [] && |d.errors| == 1
    ensures pathCount == 0 && modelEntityCount == 0 ==> d.errors == [ErrorNoEntities] && d.tips == []
    ensures pathCount == 0 && modelEntityCount > 0 ==>
      d.errors == [if useSelection then ErrorNoComponentInSelection else ErrorNoComponentInModel] &&
      d.tips == [TipNoComponent]
    ensures pathCount > 0 ==>
      (WarningPartialCutlist in d.warnings <==> useSelection) &&
      (d.tips != [] <==> hardwood == 0 && plywood == 0) &&
      (WarningNoTypedInSelection in d.warnings <==> useSelection && hardwood == 0 && plywood == 0) &&
      (WarningNoTypedInModel in d.warnings <==> !useSelection && hardwood == 0 && plywood == 0)
    ensures pathCount > 0 && hardwood == 0 && plywood == 0 ==> d.tips == [TipNoTypedMaterials]
    ensures pathCount > 0 ==>
      d.errors == [] &&
      d.warnings == (if useSelection then [WarningPartialCutlist] else []) +
                    (if hardwood == 0 && plywood == 0
                     then [if useSelection then WarningNoTypedInSelection else WarningNoTypedInModel]
                     else [])
  {
    if pathCount == 0 then
      if modelEntityCount == 0 then Diagnostics([ErrorNoEntities], [], [])
      else Diagnostics([if useSelection then ErrorNoComponentInSelection else ErrorNoComponentInModel],
                       [], [TipNoComponent])
    else
      var partial := if useSelection then [WarningPartialCutlist] else [];
      if hardwood == 0 && plywood == 0 then
        Diagnostics([], partial + [if useSelection then WarningNoTypedInSelection else WarningNoTypedInModel],
                    [TipNoTypedMaterials])
      else Diagnostics([], partial, [])
  }

  // -- Report data (lines 191-261) --------------------------------------------------------

  datatype PartOut = PartOut(
    definitionId: string,
    name: string,
    length: int,
    width: int,
    thickness: int,
    count: nat,
    rawLength: int,
    rawWidth: int,
    number: string,
    materialName: string,
    materialOrigins: seq<Origin>,
    entityIds: seq<int>)

  datatype GroupOut = GroupOut(
    id: GroupKey,
    materialName: string,
    materialType: MaterialType,
    partCount: nat,
    rawThickness: int,
    rawThicknessAvailable: bool,
    rawArea: int,
    rawVolume: int,
    parts: seq<PartOut>)

  datatype Report = Report(
    errors: seq<string>,
    warnings: seq<string>,
    tips: seq<string>,
    filename: string,
    pageLabel: string,
    materialUsages: seq<MaterialUsage>,
    groups: seq<GroupOut>)

  /** `[v.display_name.downcase]`. */
  function UsageOrder(u: MaterialUsage): SortKey {
    [Text(Lower(u.displayName))]
  }

  /** `[type_order(material_type), material_name.downcase, -raw_thickness]`. */
  function GroupOrder(typeOrder: MaterialType -> int, g: GroupDef): SortKey {
    [Num(typeOrder(g.materialType)), Text(Lower(g.materialName)), Num(-g.rawThickness)]
  }

  /** The values of a hash, in the insertion order its keys record. */
  function ValuesOf<K, V>(ks: seq<K>, m: map<K, V>): (vs: seq<V>)
    requires forall k :: k in ks ==> k in m
    ensures |vs| == |ks|
    ensures forall i :: 0 <= i < |ks| ==> vs[i] == m[ks[i]]
  {
    seq(|ks|, i requires 0 <= i < |ks| => m[ks[i]])
  }

  /** Every listed part name has a part def, as the populate loop keeps it. */
  predicate WellFormed(g: GroupDef) {
    forall n :: n in g.partNames ==> n in g.partDefs
  }

  /** `group_def.part_defs.values`. */
  function PartsList(g: GroupDef): seq<PartDef>
    requires WellFormed(g)
  {
    ValuesOf(g.partNames, g.partDefs)
  }

  /** `raw_size.area * count`, in square units. */
  function RawAreaOf(p: PartDef): int {
    p.rawSize.length * p.rawSize.width * p.count
  }

  /** `raw_size.volume * count`, in cubic units. */
  function RawVolumeOf(p: PartDef): int {
    p.rawSize.length * p.rawSize.width * p.rawSize.thickness * p.count
  }

  /** A group's raw area: counted only for typed materials. */
  function GroupArea(kind: MaterialType, ps: seq<PartDef>): int {
    if kind != Unknown then SumOf(ps, RawAreaOf) else 0
  }

  /** A group's raw volume: counted only for solid wood. */
  function GroupVolume(kind: MaterialType, ps: seq<PartDef>): int {
    if kind == SolidWood then SumOf(ps, RawVolumeOf) else 0
  }

  lemma TotalsSnoc(kind: MaterialType, ps: seq<PartDef>, p: PartDef)
    ensures GroupArea(kind, ps + [p]) == GroupArea(kind, ps) + (if kind != Unknown then RawAreaOf(p) else 0)
    ensures GroupVolume(kind, ps + [p]) == GroupVolume(kind, ps) + (if kind == SolidWood then RawVolumeOf(p) else 0)
  {
    SumOfSnoc(ps, p, RawAreaOf);
    SumOfSnoc(ps, p, RawVolumeOf);
  }

  function PartOutOf(p: PartDef, number: string): PartOut {
    PartOut(p.definitionId, p.name, p.size.length, p.size.width, p.size.thickness, p.count,
            p.rawSize.length, p.rawSize.width, number, p.materialName, p.materialOrigins, p.entityIds)
  }

  /** The part numbers in order: the `i`-th label (from 0) of the chosen alphabet. */
  function LabelOf(letters: bool): nat -> string {
    (i: nat) => Label(i, letters)
  }

  /** Every number can be advanced with `succ`, which gives the next one. */
  ghost predicate Advances(numberOf: nat -> string) {
    forall i: nat :: Steps(numberOf, i)
  }

  /** The `i`-th number can be advanced with `succ`, which gives the next one. */
  ghost predicate Steps(numberOf: nat -> string, i: nat) {
    numberOf(i) != [] && (AllDigits(numberOf(i)) || AllUpper(numberOf(i))) && Succ(numberOf(i)) == numberOf(i + 1)
  }

  lemma LabelAdvances(letters: bool)
    ensures Advances(LabelOf(letters))
  {
    forall i: nat ensures Steps(LabelOf(letters), i) {
      SuccLabel(i, letters);
    }
  }

  /** Parts numbered from the `start`-th label on. */
  function Numbered(ps: seq<PartDef>, start: nat, numberOf: nat -> string): (r: seq<PartOut>)
    ensures |r| == |ps|
    ensures forall j :: 0 <= j < |ps| ==> r[j] == PartOutOf(ps[j], numberOf(start + j))
  {
    seq(|ps|, j requires 0 <= j < |ps| => PartOutOf(ps[j], numberOf(start + j)))
  }

  lemma NumberedSnoc(ps: seq<PartDef>, p: PartDef, start: nat, numberOf: nat -> string)
    ensures Numbered(ps + [p], start, numberOf) == Numbered(ps, start, numberOf) + [PartOutOf(p, numberOf(start + |ps|))]
  {
    var a, b := Numbered(ps + [p], start, numberOf), Numbered(ps, start, numberOf) + [PartOutOf(p, numberOf(start + |ps|))];
    assert |a| == |b|;
    forall j | 0 <= j < |a| ensures a[j] == b[j] {
      if j < |ps| {
        assert (ps + [p])[j] == ps[j];
      }
    }
  }

  predicate AllWellFormed(gs: seq<GroupDef>) {
    forall x :: 0 <= x < |gs| ==> WellFormed(gs[x])
  }

  /** How many parts the groups before the `x`-th one emit. */
  function PartsBefore(gs: seq<GroupDef>, x: nat): nat
    requires x <= |gs|
  {
    if x == 0 then 0 else PartsBefore(gs, x - 1) + |gs[x - 1].partNames|
  }

  /** The numberOf index the `x`-th group's first part gets. */
  function Start(gs: seq<GroupDef>, x: nat, byGroup: bool): nat
    requires x <= |gs|
  {
    if byGroup then 0 else PartsBefore(gs, x)
  }

  /** The `x`-th group as the report lists it. */
  function Emitted(gs: seq<GroupDef>, x: nat, numberOf: nat -> string, byGroup: bool, partOrder: PartDef -> SortKey): GroupOut
    requires x < |gs| && AllWellFormed(gs)
  {
    var g := gs[x];
    var ps := SortBy(PartsList(g), partOrder);
    GroupOut(g.id, g.materialName, g.materialType, g.partCount, g.rawThickness, g.rawThicknessAvailable,
             GroupArea(g.materialType, ps), GroupVolume(g.materialType, ps),
             Numbered(ps, Start(gs, x, byGroup), numberOf))
  }

  /** `part_number_with_letters ? 'A' : '1'`: the first numberOf. */
  function FirstNumber(letters: bool): (r: string)
    ensures r == LabelOf(letters)(0)
  {
    if letters then "A" else "1"
  }

  /** `part_number = part_number.succ`. */
  method NextNumber(partNumber: string, ghost numberOf: nat -> string, ghost i: nat) returns (r: string)
    requires Advances(numberOf) && partNumber == numberOf(i)
    ensures r == numberOf(i + 1)
  {
    assert Steps(numberOf, i);
    r := Succ(partNumber);
  }

  /**
   * The `part_defs.values.sort ... .each` loop of one group: every part reported with
   * the current number, which then advances by `succ`, and the area and volume summed.
   */
  method EmitParts(parts: seq<PartDef>, kind: MaterialType, partNumber: string,
                   ghost numberOf: nat -> string, ghost start: nat)
    returns (partsOut: seq<PartOut>, rawArea: int, rawVolume: int, partNumber': string)
    requires Advances(numberOf) && partNumber == numberOf(start)
    ensures partsOut == Numbered(parts, start, numberOf)
    ensures rawArea == GroupArea(kind, parts) && rawVolume == GroupVolume(kind, parts)
    ensures partNumber' == numberOf(start + |parts|)
  {
    partNumber' := partNumber;
    rawArea, rawVolume := 0, 0;
    partsOut := [];
    assert parts[..0] == [];
    var j := 0;
    while j < |parts|
      invariant 0 <= j <= |parts|
      invariant EmittedParts(parts[..j], kind, start, numberOf, partsOut, rawArea, rawVolume, partNumber')
    {
      partsOut, rawArea, rawVolume, partNumber' :=
        EmitPart(parts, j, kind, start, numberOf, partsOut, rawArea, rawVolume, partNumber');
      j := j + 1;
    }
    assert parts[..|parts|] == parts;
  }

  /** The group's parts, totals and number after the parts loop has reported `ps`. */
  ghost predicate EmittedParts(ps: seq<PartDef>, kind: MaterialType, start: nat, numberOf: nat -> string,
                               partsOut: seq<PartOut>, rawArea: int, rawVolume: int, partNumber: string) {
    partsOut == Numbered(ps, start, numberOf) && partNumber == numberOf(start + |ps|) &&
    rawArea == GroupArea(kind, ps) && rawVolume == GroupVolume(kind, ps)
  }

  /** One part: reported with the current number, added to the totals, and the number advanced. */
  method EmitPart(parts: seq<PartDef>, j: nat, kind: MaterialType, ghost start: nat,
                  ghost numberOf: nat -> string, partsOut: seq<PartOut>, rawArea: int, rawVolume: int,
                  partNumber: string)
    returns (partsOut': seq<PartOut>, rawArea': int, rawVolume': int, partNumber': string)
    requires Advances(numberOf) && j < |parts|
    requires EmittedParts(parts[..j], kind, start, numberOf, partsOut, rawArea, rawVolume, partNumber)
    ensures EmittedParts(parts[..j + 1], kind, start, numberOf, partsOut', rawArea', rawVolume', partNumber')
  {
    ghost var ps := parts[..j];
    var partDef := parts[j];
    assert parts[..j + 1] == ps + [partDef];
    TotalsSnoc(kind, ps, partDef);
    NumberedSnoc(ps, partDef, start, numberOf);
    rawArea', rawVolume' := rawArea, rawVolume;
    if kind != Unknown {
      rawArea' := rawArea + RawAreaOf(partDef);
      if kind == SolidWood {
        rawVolume' := rawVolume + RawVolumeOf(partDef);
      }
    }
    partsOut' := partsOut + [PartOutOf(partDef, partNumber)];
    partNumber' := NextNumber(partNumber, numberOf, start + j);
  }

  /** The first `x` groups as the report lists them. */
  function EmittedUpTo(gs: seq<GroupDef>, x: nat, numberOf: nat -> string, byGroup: bool, partOrder: PartDef -> SortKey): (r: seq<GroupOut>)
    requires x <= |gs| && AllWellFormed(gs)
    ensures |r| == x
    ensures forall y :: 0 <= y < x ==> r[y] == Emitted(gs, y, numberOf, byGroup, partOrder)
  {
    seq(x, y requires 0 <= y < x => Emitted(gs, y, numberOf, byGroup, partOrder))
  }

  lemma EmittedUpToSnoc(gs: seq<GroupDef>, x: nat, numberOf: nat -> string, byGroup: bool, partOrder: PartDef -> SortKey)
    requires x < |gs| && AllWellFormed(gs)
    ensures EmittedUpTo(gs, x + 1, numberOf, byGroup, partOrder) ==
            EmittedUpTo(gs, x, numberOf, byGroup, partOrder) + [Emitted(gs, x, numberOf, byGroup, partOrder)]
  {
    var a := EmittedUpTo(gs, x + 1, numberOf, byGroup, partOrder);
    var b := EmittedUpTo(gs, x, numberOf, byGroup, partOrder) + [Emitted(gs, x, numberOf, byGroup, partOrder)];
    assert |a| == |b|;
    forall y | 0 <= y < |a| ensures a[y] == b[y] {
      if y < x {
        assert b[y] == EmittedUpTo(gs, x, numberOf, byGroup, partOrder)[y];
      }
    }
  }

  /**
   * One pass of the `group_defs ... .each` loop: the number restarts when `byGroup`,
   * the group is reported with its sorted parts numbered on from there, and the number
   * ends past its last part.
   */
  method EmitGroup(groups: seq<GroupDef>, x: nat, letters: bool, byGroup: bool, partOrder: PartDef -> SortKey,
                   partNumber: string, ghost numberOf: nat -> string)
    returns (group: GroupOut, partNumber': string)
    requires x < |groups| && AllWellFormed(groups)
    requires Advances(numberOf) && numberOf(0) == FirstNumber(letters)
    requires !byGroup ==> partNumber == numberOf(PartsBefore(groups, x))
    ensures group == Emitted(groups, x, numberOf, byGroup, partOrder)
    ensures partNumber' == numberOf(Start(groups, x, byGroup) + |groups[x].partNames|)
  {
    var number := partNumber;
    if byGroup {
      number := FirstNumber(letters);    // the number restarts with every group
    }
    var groupDef := groups[x];
    var parts := SortBy(PartsList(groupDef), partOrder);
    var partsOut, rawArea, rawVolume;
    partsOut, rawArea, rawVolume, partNumber' :=
      EmitParts(parts, groupDef.materialType, number, numberOf, Start(groups, x, byGroup));
    group := GroupOut(groupDef.id, groupDef.materialName, groupDef.materialType, groupDef.partCount,
                      groupDef.rawThickness, groupDef.rawThicknessAvailable, rawArea, rawVolume, partsOut);
  }

  /**
   * The `group_defs ... .each` loop over sorted groups: each group reported with its
   * sorted parts numbered by `succ` from 'A' or '1', restarting at every group when
   * `byGroup`, and its raw area and volume summed.
   */
  method EmitGroups(groups: seq<GroupDef>, letters: bool, byGroup: bool, partOrder: PartDef -> SortKey)
    returns (out: seq<GroupOut>)
    requires AllWellFormed(groups)
    ensures out == EmittedUpTo(groups, |groups|, LabelOf(letters), byGroup, partOrder)
  {
    ghost var numberOf := LabelOf(letters);
    LabelAdvances(letters);
    var partNumber := FirstNumber(letters);
    out := [];
    var x := 0;
    while x < |groups|
      invariant 0 <= x <= |groups|
      invariant out == EmittedUpTo(groups, x, numberOf, byGroup, partOrder)
      invariant !byGroup ==> partNumber == numberOf(PartsBefore(groups, x))
    {
      var group;
      group, partNumber := EmitGroup(groups, x, letters, byGroup, partOrder, partNumber, numberOf);
      EmittedUpToSnoc(groups, x, numberOf, byGroup, partOrder);
      out := out + [group];
      x := x + 1;
    }
  }
}
