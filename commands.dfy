/**
 * The two update commands: `part_update_command` renames a component
 * definition and sets or clears the material of the listed instances;
 * `group_update_command` does the latter for every part of a group. Only a
 * nil or empty material name (clear) or the name of an existing material
 * (set) changes any instance; any other name leaves every material as it is.
 */
module Commands {
  import opened Scene
  import opened Collect

  /** What the material guard lets through. */
  datatype Request = Clear | Assign(name: string) | Ignore

  /**
   * `material_name == nil or material_name.empty? or (material = materials[material_name])`:
   * clear for a missing or empty name, assign for a registered one, otherwise nothing.
   */
  function RequestOf(materialName: Option<string>, materials: set<string>): (r: Request)
    ensures r == Clear <==> materialName.None? || materialName.value == ""
    ensures r.Assign? <==> materialName.Some? && materialName.value != "" && materialName.value in materials
    ensures r.Assign? ==> r.name == materialName.value
    ensures r == Ignore <==> materialName.Some? && materialName.value != "" && materialName.value !in materials
  {
    if materialName.None? || materialName.value == "" then Clear
    else if materialName.value in materials then Assign(materialName.value)
    else Ignore
  }

  /** The material an instance ends up with under a request that changes something. */
  function Target(r: Request): Option<string>
    requires r != Ignore
  {
    if r == Clear then None else Some(r.name)
  }

  /** The entity materials after the ids in `ids` took the request's material; unknown ids are skipped. */
  function Applied(m: map<int, Option<string>>, ids: seq<int>, r: Request): map<int, Option<string>> {
    if r == Ignore then m
    else map e | e in m :: if e in ids then Target(r) else m[e]
  }

  /** One id: `entity = model.find_entity_by_id(entity_id)` and, if found, its material set. */
  function AppliedOne(m: map<int, Option<string>>, id: int, r: Request): map<int, Option<string>> {
    if r != Ignore && id in m then m[id := Target(r)] else m
  }

  lemma AppliedSnoc(m: map<int, Option<string>>, ids: seq<int>, id: int, r: Request)
    ensures Applied(m, ids + [id], r) == AppliedOne(Applied(m, ids, r), id, r)
  {
    if r != Ignore {
      var a, b := Applied(m, ids + [id], r), AppliedOne(Applied(m, ids, r), id, r);
      forall e | e in a ensures a[e] == b[e] {
        assert e in ids + [id] <==> e in ids || e == id;
      }
      MapExt(a, b);
    }
  }

  /**
   * Unknown ids are skipped and unlisted entities keep their material: the known
   * entities stay the same, a listed one takes the request's material, and every
   * other one keeps its own.
   */
  lemma AppliedFrame(m: map<int, Option<string>>, ids: seq<int>, r: Request)
    ensures Applied(m, ids, r).Keys == m.Keys
    ensures forall e :: e in m && (e !in ids || r == Ignore) ==> Applied(m, ids, r)[e] == m[e]
    ensures r != Ignore ==> forall e :: e in m && e in ids ==> Applied(m, ids, r)[e] == Target(r)
  {
  }

  /** A rejected material name changes nothing. */
  lemma IgnoredChangesNothing(m: map<int, Option<string>>, ids: seq<int>, materialName: Option<string>,
                              materials: set<string>)
    requires materialName.Some? && materialName.value != "" && materialName.value !in materials
    ensures Applied(m, ids, RequestOf(materialName, materials)) == m
  {
  }

  /** Applying the same update twice gives the same materials as applying it once. */
  lemma AppliedIdempotent(m: map<int, Option<string>>, ids: seq<int>, r: Request)
    ensures Applied(Applied(m, ids, r), ids, r) == Applied(m, ids, r)
  {
    if r != Ignore {
      MapExt(Applied(Applied(m, ids, r), ids, r), Applied(m, ids, r));
    }
  }

  /** Updating one list of ids and then another is updating both at once. */
  lemma AppliedAppend(m: map<int, Option<string>>, ids: seq<int>, more: seq<int>, r: Request)
    ensures Applied(Applied(m, ids, r), more, r) == Applied(m, ids + more, r)
  {
    if r != Ignore {
      var a, b := Applied(Applied(m, ids, r), more, r), Applied(m, ids + more, r);
      forall e | e in a ensures a[e] == b[e] {
        assert e in ids + more <==> e in ids || e in more;
      }
      MapExt(a, b);
    }
  }

  /** All entity ids of the parts, part by part. */
  function Flatten(parts: seq<seq<int>>): seq<int> {
    if parts == [] then [] else Flatten(parts[..|parts| - 1]) + parts[|parts| - 1]
  }

  /** The part updates of a group, one after another, with the group's material. */
  function AppliedEach(m: map<int, Option<string>>, parts: seq<seq<int>>, r: Request): map<int, Option<string>> {
    if parts == [] then m else Applied(AppliedEach(m, parts[..|parts| - 1], r), parts[|parts| - 1], r)
  }

  /** Updating a group is updating each of its parts in turn with the same material. */
  lemma {:induction false} GroupIsPartUpdates(m: map<int, Option<string>>, parts: seq<seq<int>>, r: Request)
    ensures Applied(m, Flatten(parts), r) == AppliedEach(m, parts, r)
  {
    if parts == [] {
      if r != Ignore {
        MapExt(Applied(m, [], r), m);
      }
    } else {
      var init := parts[..|parts| - 1];
      GroupIsPartUpdates(m, init, r);
      AppliedAppend(m, Flatten(init), parts[|parts| - 1], r);
    }
  }

  /** The position of the first definition named `id`. */
  function IndexOf(names: seq<string>, id: string): (i: nat)
    requires id in names
    ensures i < |names| && names[i] == id
    ensures forall j :: 0 <= j < i ==> names[j] != id
  {
    if names[0] == id then 0 else 1 + IndexOf(names[1..], id)
  }

  /** `definition = definitions[definition_id]; definition.name = name if definition and definition.name != name`. */
  function Renamed(names: seq<string>, id: string, name: string): seq<string> {
    if id in names && id != name then names[IndexOf(names, id) := name] else names
  }

  /**
   * The rename touches at most the first definition named `id`: nothing changes when
   * there is none, and no other definition changes.
   */
  lemma RenamedFacts(names: seq<string>, id: string, name: string)
    ensures |Renamed(names, id, name)| == |names|
    ensures id !in names ==> Renamed(names, id, name) == names
    ensures id in names ==> Renamed(names, id, name)[IndexOf(names, id)] == name
    ensures id in names ==>
      forall j :: 0 <= j < |names| && j != IndexOf(names, id) ==> Renamed(names, id, name)[j] == names[j]
  {
  }

  /** With definition names unique, renaming twice is renaming once. */
  lemma RenamedIdempotent(names: seq<string>, id: string, name: string)
    requires forall i, j :: 0 <= i < j < |names| ==> names[i] != names[j]
    ensures Renamed(Renamed(names, id, name), id, name) == Renamed(names, id, name)
  {
    if id in names && id != name {
      var i := IndexOf(names, id);
      var r := names[i := name];
      assert forall j :: 0 <= j < |r| ==> r[j] != id by {
        forall j | 0 <= j < |r| ensures r[j] != id {
          if j != i {
            assert names[j] != names[i] || j == i;
          }
        }
      }
    }
  }

  /** The parts of the host model the two commands read and change. */
  class ModelState {
    /** The component definitions' names, in the model's order. */
    var definitionNames: seq<string>
    /** The material of every entity `find_entity_by_id` can find, by entity id. */
    var entityMaterials: map<int, Option<string>>
    /** The names `model.materials[...]` resolves. */
    var materialNames: set<string>

    constructor(definitionNames: seq<string>, entityMaterials: map<int, Option<string>>, materialNames: set<string>)
      ensures this.definitionNames == definitionNames
      ensures this.entityMaterials == entityMaterials
      ensures this.materialNames == materialNames
    {
      this.definitionNames := definitionNames;
      this.entityMaterials := entityMaterials;
      this.materialNames := materialNames;
    }

    /** The `entity_ids.each { ... }` loop: every known entity takes the request's material. */
    method ApplyMaterial(entityIds: seq<int>, r: Request)
      modifies this
      requires r != Ignore
      ensures entityMaterials == Applied(old(entityMaterials), entityIds, r)
      ensures definitionNames == old(definitionNames) && materialNames == old(materialNames)
    {
      ghost var m := entityMaterials;
      assert Applied(m, [], r) == m by {
        MapExt(Applied(m, [], r), m);
      }
      var k := 0;
      while k < |entityIds|
        invariant 0 <= k <= |entityIds|
        invariant entityMaterials == Applied(m, entityIds[..k], r)
        invariant definitionNames == old(definitionNames) && materialNames == old(materialNames)
      {
        var entityId := entityIds[k];
        AppliedSnoc(m, entityIds[..k], entityId, r);
        assert entityIds[..k + 1] == entityIds[..k] + [entityId];
        if entityId in entityMaterials {
          if r == Clear {
            entityMaterials := entityMaterials[entityId := None];
          } else if entityMaterials[entityId] != Some(r.name) {
            entityMaterials := entityMaterials[entityId := Some(r.name)];
          }
        }
        k := k + 1;
      }
      assert entityIds[..|entityIds|] == entityIds;
    }

    /**
     * `part_update_command`: the definition renamed whatever the material name, and
     * the listed instances' material set or cleared when the guard lets it through.
     */
    method PartUpdateCommand(definitionId: string, name: string, materialName: Option<string>, entityIds: seq<int>)
      modifies this
      ensures definitionNames == Renamed(old(definitionNames), definitionId, name)
      ensures entityMaterials == Applied(old(entityMaterials), entityIds, RequestOf(materialName, old(materialNames)))
      ensures materialNames == old(materialNames)
    {
      if definitionId in definitionNames && definitionId != name {
        definitionNames := definitionNames[IndexOf(definitionNames, definitionId) := name];
      }
      var r := RequestOf(materialName, materialNames);
      if r != Ignore {
        ApplyMaterial(entityIds, r);
      }
    }

    /**
     * `group_update_command`: the material of every instance of every part of the
     * group set or cleared when the guard lets it through; no definition changes.
     */
    method GroupUpdateCommand(materialName: Option<string>, parts: seq<seq<int>>)
      modifies this
      ensures entityMaterials == Applied(old(entityMaterials), Flatten(parts), RequestOf(materialName, old(materialNames)))
      ensures definitionNames == old(definitionNames) && materialNames == old(materialNames)
    {
      var r := RequestOf(materialName, materialNames);
      if r != Ignore {
        ghost var m := entityMaterials;
        assert Applied(m, [], r) == m by {
          MapExt(Applied(m, [], r), m);
        }
        var p := 0;
        while p < |parts|
          invariant 0 <= p <= |parts|
          invariant entityMaterials == Applied(m, Flatten(parts[..p]), r)
          invariant definitionNames == old(definitionNames) && materialNames == old(materialNames)
        {
          assert parts[..p + 1][..p] == parts[..p];
          AppliedAppend(m, Flatten(parts[..p]), parts[p], r);
          ApplyMaterial(parts[p], r);
          p := p + 1;
        }
        assert parts[..|parts|] == parts;
      }
    }
  }
}
