# Cutlist controller model

A Dafny model of the cutlist controller of the OpenCutList SketchUp
extension (`cutlist_controller.rb`). The controller does four things.

- It walks the model, or the current selection, to find the component
  instances that bound solid geometry.
- It resolves each instance's material: its own material, the material most of
  its children carry, or a material inherited from an ancestor.
- It groups the instances by material and standardised raw thickness, and
  inside a group into parts by definition.
- It returns a report: errors, warnings and tips, material usages sorted by
  display name, and groups sorted by type, material and thickness. The parts of
  each group are sorted and numbered, and each group carries its raw area and
  volume.

Two commands change the model. `part_update_command` renames a definition and
sets or clears the material of its instances. `group_update_command` sets or
clears the material of every instance of a group.

Modules follow the controller's helpers and stages:

- `Scene`: the scene graph as a finite value tree, with bounding boxes.
- `Bounds`: `_compute_faces_bounds`.
- `Discovery`: `_fetch_useful_component_paths`.
- `Sizing`: `_size_from_bounds` and `_find_std_thickness`.
- `Materials`: `_get_material`, `_get_dominant_child_material` and
  `_get_inherited_material`.
- `Collect`, `Sorting` and `Numbering`: generic filtering and summing,
  Ruby's `sort_by` on array keys, and `String#succ` on part numbers.
- `Aggregate`: the populate loop.
- `Cutlist`: seeding, diagnostics and the final listing loops.
- `Generate`: `generate_command` end to end.
- `Commands`: the two update commands, on a `ModelState` class.

Each loop of the source is a method, proved equal to a reference function of
its inputs. The source's promises are lemmas about those functions.

Host inputs are parameters. These are the selection, the active entities and
path, the number of top-level model entities, the model's materials, the file
name, the page label, the attributes of "no material", the material type rank
(`MaterialAttributes.type_order`) and the part order (`PartDef::part_order`,
as a sort key).

A few behaviours of the code are easy to misread; the model follows the code:

- A component instance that has faces of its own beside a qualifying nested
  component is recorded too, after the nested one. So a recorded path can be a
  prefix of another (`Discovery.AncestorAlsoRecorded`).
- In smart mode the dominant child material is tried before the inherited one.
- The face count a component returns to its parent is reset only when the
  component is recorded.
- With `nearest_highest` false, the raw thickness stays the given thickness,
  and is "available" only if it equals the first standard thickness not
  below it.
- The two "no typed materials" diagnostics depend only on the use counts of
  seeded materials. A resolved material that the model's list does not hold is
  not counted.

## Model

| member | source | states |
|---|---|---|
| Scene.Union | src/ladb_toolbox/ruby/controller/cutlist_controller.rb:407-409 | BoundingBox#add gives the least box holding both boxes; it is empty only when both are |
| Bounds.ComputeFacesBounds | src/ladb_toolbox/ruby/controller/cutlist_controller.rb:403-413 | the loop computes exactly the reference faces bounds of the entities |
| Bounds.FacesBoundsCovers | src/ladb_toolbox/ruby/controller/cutlist_controller.rb:403-413 | every face box reached through nested groups lies within the faces bounds |
| Bounds.FacesBoundsLeast | src/ladb_toolbox/ruby/controller/cutlist_controller.rb:403-413 | any box that holds every reached face box holds the faces bounds, so the bounds are the least such box |
| Bounds.UnionCommutes | src/ladb_toolbox/ruby/controller/cutlist_controller.rb:407-409 | adding boxes is commutative and associative, so the face order does not matter |
| Discovery.Discover | src/ladb_toolbox/ruby/controller/cutlist_controller.rb:365-399 | every recorded path ends in an instance with solid faces bounds, extends the walk's path and passes through the entity walked |
| Discovery.DiscoverAll | src/ladb_toolbox/ruby/controller/cutlist_controller.rb:371-373 | the same for a list of sibling entities: each path passes through one of them |
| Discovery.FetchUsefulComponentPaths | src/ladb_toolbox/ruby/controller/cutlist_controller.rb:365-399 | the recursive walk returns the reference face count and appends exactly the reference paths to the collected ones |
| Discovery.FetchChildren | src/ladb_toolbox/ruby/controller/cutlist_controller.rb:371-380 | the loop over children sums their face counts and appends their paths in order |
| Discovery.FaceCountBound | src/ladb_toolbox/ruby/controller/cutlist_controller.rb:383-398 | the returned count never exceeds the visible faces below the entity, and equals it when nothing was recorded |
| Discovery.InstanceRecorded | src/ladb_toolbox/ruby/controller/cutlist_controller.rb:375-389 | an instance is recorded iff it is shown, has unclaimed faces below it and has solid faces bounds; it is then recorded after all its nested components; it returns a face count of 0 to its parent when recorded, its children's count when shown and not recorded, and 0 when hidden |
| Discovery.DiscoverBasics | src/ladb_toolbox/ruby/controller/cutlist_controller.rb:366-398 | hidden entities yield nothing, a shown face counts 1, a group passes its children's result up, any other entity yields nothing |
| Discovery.AncestorAlsoRecorded | src/ladb_toolbox/ruby/controller/cutlist_controller.rb:383-388 | a cabinet with a face of its own and a drawer inside is recorded after the drawer, so recorded paths can nest |
| Sizing.SizeFromBounds | src/ladb_toolbox/ruby/controller/cutlist_controller.rb:415-422 | with auto orient the size is the three extents in decreasing order; otherwise width, height and depth as length, width and thickness |
| Sizing.FindStdThickness | src/ladb_toolbox/ruby/controller/cutlist_controller.rb:426-446 | the early-return loop computes the reference standard thickness |
| Sizing.StdThicknessFirstMatch | src/ladb_toolbox/ruby/controller/cutlist_controller.rb:426-446 | the first standard thickness not below the thickness decides; nearest-highest takes it as available, otherwise the thickness stays and is available iff equal; with no fit the thickness stays, unavailable |
| Sizing.StdThicknessNotBelow | src/ladb_toolbox/ruby/controller/cutlist_controller.rb:426-446 | the raw thickness is never below the requested thickness |
| Sizing.StdThicknessAvailable | src/ladb_toolbox/ruby/controller/cutlist_controller.rb:426-446 | an available raw thickness is one of the standard thicknesses |
| Sizing.StdThicknessExamples | src/ladb_toolbox/ruby/controller/cutlist_controller.rb:426-446 | worked cases with standards 6, 12, 18 and 25, in both modes |
| Materials.GetDominantChildMaterial | src/ladb_toolbox/ruby/controller/cutlist_controller.rb:477-522 | the recursive vote equals the reference dominant child material |
| Materials.TallyChildren | src/ladb_toolbox/ruby/controller/cutlist_controller.rb:489-500 | the child loop builds the tally of the children's votes |
| Materials.MostVoted | src/ladb_toolbox/ruby/controller/cutlist_controller.rb:502-510 | the strict-greater scan picks the reference best tally |
| Materials.TallyOfFaithful | src/ladb_toolbox/ruby/controller/cutlist_controller.rb:489-500 | the tally lists each voted name once, in first-vote order, with its number of votes and the first material voted under it |
| Materials.DominantIsFirstMostVoted | src/ladb_toolbox/ruby/controller/cutlist_controller.rb:502-510 | with votes cast, the dominant material has the most votes, and every name first voted earlier has strictly fewer |
| Materials.InheritedMaterialScan | src/ladb_toolbox/ruby/controller/cutlist_controller.rb:524-540 | the inherited material is that of the last owning drawing element followed only by unowned drawing elements; none when the walk meets a non-drawing element first |
| Materials.GetMaterial | src/ladb_toolbox/ruby/controller/cutlist_controller.rb:450-475 | unknown origin iff the path is empty or ends in a non-drawing element; owned when the entity has a material or smart mode is off; child iff smart, unowned and a dominant child exists; inherited iff smart, unowned, no dominant child and an inherited material; an owned origin carries the entity's own material, so none when smart mode finds nothing |
| Numbering.SuccDecimal | src/ladb_toolbox/ruby/controller/cutlist_controller.rb:257 | String#succ on the numeral of n is the numeral of n + 1 ('9' to '10') |
| Numbering.SuccAlpha | src/ladb_toolbox/ruby/controller/cutlist_controller.rb:257 | String#succ on the letter numeral of n is that of n + 1 ('Z' to 'AA', 'AZ' to 'BA') |
| Numbering.SuccLabel | src/ladb_toolbox/ruby/controller/cutlist_controller.rb:213-257 | advancing the i-th part number gives the (i+1)-th, for both alphabets |
| Numbering.LabelInjective | src/ladb_toolbox/ruby/controller/cutlist_controller.rb:213-257 | two positions with the same part number are the same position |
| Numbering.LabelRoundTrip | src/ladb_toolbox/ruby/controller/cutlist_controller.rb:213-257 | the part number of position i reads back as i + 1 in either alphabet |
| Numbering.DecimalRoundTrip | src/ladb_toolbox/ruby/controller/cutlist_controller.rb:213 | reading back a decimal part number gives the number written |
| Numbering.AlphaRoundTrip | src/ladb_toolbox/ruby/controller/cutlist_controller.rb:213 | reading back a letter part number gives the number written |
| Numbering.LabelExamples | src/ladb_toolbox/ruby/controller/cutlist_controller.rb:213 | the sequences start at "1" and "A" and carry to "10", "AA" and "BA" |
| Sorting.SortBy | src/ladb_toolbox/ruby/controller/cutlist_controller.rb:203 | `sort_by` returns a permutation of its input in non-decreasing key order |
| Sorting.SortByStable | src/ladb_toolbox/ruby/controller/cutlist_controller.rb:203 | the elements that share a key come out in their input order (the model's choice where Ruby leaves the order open) |
| Sorting.KeyLeTotal | src/ladb_toolbox/ruby/controller/cutlist_controller.rb:214 | any two array keys are comparable |
| Sorting.KeyLeTrans | src/ladb_toolbox/ruby/controller/cutlist_controller.rb:214 | the array-key order is transitive |
| Sorting.Lower | src/ladb_toolbox/ruby/controller/cutlist_controller.rb:203 | downcase maps each ASCII capital to its small letter and keeps every other character |
| Collect.Partition | src/ladb_toolbox/ruby/controller/cutlist_controller.rb:133-165 | splitting entries by key and counting each class gives back the number of entries |
| Collect.SumOfPermutation | src/ladb_toolbox/ruby/controller/cutlist_controller.rb:234-240 | a sum does not depend on the order of its terms |
| Aggregate.Classify | src/ladb_toolbox/ruby/controller/cutlist_controller.rb:105-130 | an entry carries the instance's definition and id, the resolved material and origin, the size from the definition's faces bounds (decreasing extents with auto orient), the raw length and width with the allowances added, and the raw thickness and its availability as the standard-thickness choice for the thickness plus its allowance |
| Aggregate.PopulateCutlist | src/ladb_toolbox/ruby/controller/cutlist_controller.rb:103-167 | the populate loop leaves the group ids in first-seen order, the group defs, and every seeded usage counted once per entry resolved to it |
| Aggregate.PopulateStep | src/ladb_toolbox/ruby/controller/cutlist_controller.rb:105-166 | one iteration extends the populated state of the prefix by one path |
| Aggregate.AddEntry | src/ladb_toolbox/ruby/controller/cutlist_controller.rb:132-165 | a new group or part is created at the first entry of its key, and the entry is merged into it |
| Aggregate.CountUse | src/ladb_toolbox/ruby/controller/cutlist_controller.rb:113-118 | the use count of the resolved material goes up by one when a usage for it was seeded; nothing else changes |
| Aggregate.GroupFacts | src/ladb_toolbox/ruby/controller/cutlist_controller.rb:132-165 | a group's id is its key; its part count is the number of its entries; its material and thickness come from its first entry; the key has a thickness iff the type is known |
| Aggregate.PartFacts | src/ladb_toolbox/ruby/controller/cutlist_controller.rb:146-163 | a part's count is the number of its instances; its ids are theirs, in order; its origins are exactly theirs, once each; its sizes and material come from its first instance |
| Aggregate.EveryEntryPlaced | src/ladb_toolbox/ruby/controller/cutlist_controller.rb:132-163 | every instance's id is listed in the part of its definition in the group of its key |
| Aggregate.PartCountsPartition | src/ladb_toolbox/ruby/controller/cutlist_controller.rb:165 | the part counts of all groups add up to the number of component paths |
| Aggregate.GroupPartsPartition | src/ladb_toolbox/ruby/controller/cutlist_controller.rb:146-165 | a group's part names are distinct, name exactly its part defs, and their counts add up to the group's part count |
| Cutlist.SeedUsages | src/ladb_toolbox/ruby/controller/cutlist_controller.rb:95-100 | the seeding loop leaves one usage per material name, from the last material of that name, with use count 0 |
| Cutlist.SeededFacts | src/ladb_toolbox/ruby/controller/cutlist_controller.rb:95-100 | a name is seeded iff a material carries it; its usage has count 0 and comes from the last such material |
| Cutlist.CountTypedUses | src/ladb_toolbox/ruby/controller/cutlist_controller.rb:174-182 | the loop sums the use counts of solid wood and of sheet good usages |
| Cutlist.TypedUsesZero | src/ladb_toolbox/ruby/controller/cutlist_controller.rb:174-183 | a typed total is zero iff every usage of that type has use count zero |
| Cutlist.NoTypedUses | src/ladb_toolbox/ruby/controller/cutlist_controller.rb:174-183 | after counting, a typed total is zero iff no entry resolved to a seeded material of that type |
| Cutlist.DiagnosticsOf | src/ladb_toolbox/ruby/controller/cutlist_controller.rb:81-187 | no paths gives exactly one error and no warning: no entities, or no component in the selection or model with the no-component tip; with paths, no error and exactly the warnings in order: the partial warning iff a selection is used, then the no-typed warning for selection or model iff both typed totals are zero, with its tip |
| Cutlist.EmitParts | src/ladb_toolbox/ruby/controller/cutlist_controller.rb:234-258 | the part loop outputs the sorted parts numbered from the current number, sums area and volume by type, and leaves the number after the last |
| Cutlist.EmitGroup | src/ladb_toolbox/ruby/controller/cutlist_controller.rb:216-258 | one group output: the number resets per group or continues after the parts before it |
| Cutlist.EmitGroups | src/ladb_toolbox/ruby/controller/cutlist_controller.rb:213-260 | the group loop outputs each sorted group as the reference emitted group |
| Cutlist.NextNumber | src/ladb_toolbox/ruby/controller/cutlist_controller.rb:257 | `part_number.succ` moves to the next position's number |
| Cutlist.FirstNumber | src/ladb_toolbox/ruby/controller/cutlist_controller.rb:213 | the first part number is the number of position 0, 'A' or '1' |
| Generate.ComponentPaths | src/ladb_toolbox/ruby/controller/cutlist_controller.rb:57-72 | every component path is useful, extends the active path and passes through a selected entity, or an active one when nothing is selected |
| Generate.FindComponentPaths | src/ladb_toolbox/ruby/controller/cutlist_controller.rb:67-72 | the loop over the walked entities collects the reference component paths |
| Generate.SortedGroups | src/ladb_toolbox/ruby/controller/cutlist_controller.rb:214 | the groups in report order are a permutation of all group defs, sorted by type rank, lowercase material name and decreasing raw thickness |
| Generate.Diagnose | src/ladb_toolbox/ruby/controller/cutlist_controller.rb:81-92 | the diagnostics are those of the path count, the selection flag and the counted typed uses |
| Generate.ListUsages | src/ladb_toolbox/ruby/controller/cutlist_controller.rb:202-210 | the usage list is the counted usages sorted by lowercase display name |
| Generate.ListGroups | src/ladb_toolbox/ruby/controller/cutlist_controller.rb:212-260 | the group list is the sorted groups, emitted and numbered by the settings |
| Generate.GenerateCommand | src/ladb_toolbox/ruby/controller/cutlist_controller.rb:48-263 | the whole command returns the reference report of the component paths found |
| Generate.ReportPartCounts | src/ladb_toolbox/ruby/controller/cutlist_controller.rb:165-224 | the part counts of the reported groups add up to the number of component paths |
| Generate.EmittedNumber | src/ladb_toolbox/ruby/controller/cutlist_controller.rb:213-257 | a group reports one part per part def; the j-th is numbered with the number of position start + j |
| Generate.NumbersUnique | src/ladb_toolbox/ruby/controller/cutlist_controller.rb:213-257 | with one sequence for the whole cutlist, no two parts of the report share a number |
| Generate.NumbersUniqueInGroup | src/ladb_toolbox/ruby/controller/cutlist_controller.rb:216-218 | with a sequence per group, each group starts at the first number and no two parts of a group share a number |
| Generate.LabelsDistinct | src/ladb_toolbox/ruby/controller/cutlist_controller.rb:213-257 | the decimal and letter numberings never repeat a number |
| Generate.EmittedTotals | src/ladb_toolbox/ruby/controller/cutlist_controller.rb:234-240 | a group's raw area and volume do not depend on the part order: area over typed materials, volume over solid wood only |
| Generate.TotalsExample | src/ladb_toolbox/ruby/controller/cutlist_controller.rb:235-239 | two oak parts give area 15000 for both typed kinds, volume 270000 for solid wood only, and nothing for an unknown type |
| Generate.UsageListFacts | src/ladb_toolbox/ruby/controller/cutlist_controller.rb:203-209 | the usage list is sorted; each usage belongs to a model material and counts the component paths resolved to it |
| Generate.CountedUsage | src/ladb_toolbox/ruby/controller/cutlist_controller.rb:95-118 | the counted usage of a model material keeps its name and counts exactly the entries resolved to it |
| Generate.NoTypedWarning | src/ladb_toolbox/ruby/controller/cutlist_controller.rb:170-186 | with paths, the no-typed tip appears iff no entry resolved to a seeded solid-wood or sheet-good material |
| Commands.RequestOf | src/ladb_toolbox/ruby/controller/cutlist_controller.rb:315 | a nil or empty material name clears; a registered name assigns; any other name is ignored |
| Commands.AppliedFrame | src/ladb_toolbox/ruby/controller/cutlist_controller.rb:317-326 | no entity is added or removed; listed known entities take the target material; unlisted ones, and all under an ignored request, keep theirs |
| Commands.IgnoredChangesNothing | src/ladb_toolbox/ruby/controller/cutlist_controller.rb:315-328 | a non-empty unregistered material name changes no entity |
| Commands.AppliedIdempotent | src/ladb_toolbox/ruby/controller/cutlist_controller.rb:317-326 | running the material update twice gives the same materials as once |
| Commands.AppliedAppend | src/ladb_toolbox/ruby/controller/cutlist_controller.rb:345-357 | updating two id lists one after the other equals updating their concatenation |
| Commands.GroupIsPartUpdates | src/ladb_toolbox/ruby/controller/cutlist_controller.rb:332-361 | the group update equals the part updates of its parts in turn |
| Commands.RenamedFacts | src/ladb_toolbox/ruby/controller/cutlist_controller.rb:307-311 | the rename changes only the definition found, to the new name; an unknown id changes nothing |
| Commands.RenamedIdempotent | src/ladb_toolbox/ruby/controller/cutlist_controller.rb:307-311 | with unique definition names, renaming twice equals renaming once |
| Commands.ModelState.ApplyMaterial | src/ladb_toolbox/ruby/controller/cutlist_controller.rb:317-326 | the id loop sets or clears the material of exactly the known listed entities |
| Commands.ModelState.PartUpdateCommand | src/ladb_toolbox/ruby/controller/cutlist_controller.rb:296-330 | the definition is renamed whatever the material name; the instances' materials change as the guard allows; the material registry is unchanged |
| Commands.ModelState.GroupUpdateCommand | src/ladb_toolbox/ruby/controller/cutlist_controller.rb:332-361 | the instances of all parts take the group's material as the guard allows; definitions and the registry are unchanged |

## Left out

- The thumbnail command and the registration of the commands with the dialog (lines 23-42 and 265-294) are not modelled.
- The SketchUp host is not modelled. The active model, its selection, active entities, active path, file name, page label and materials are parameters of `Generate.GenerateCommand`, as a value snapshot.
- `MaterialAttributes.new` and `MaterialAttributes.type_order` are inputs: material attributes are part of `Scene.Material`, the attributes of "no material" are a parameter, and the type rank is a function parameter.
- `Generate.GenerateCommand`: the SHA1 group id hashes the string of the material name followed, for a typed material, by `:` and the raw thickness. That string can be the same for two different groups, such as an untyped material named `Oak:18` and a typed `Oak` at 18. The model keys groups by the pair itself, so it does not reproduce this collision.
- `Aggregate.AddToPart`, `Aggregate.PartFacts`: `PartDef#add_entity_id` (line 163) is not part of this model; it is taken to append the id even when the id is already listed. One instance reached through several placements of its enclosing definition adds its id several times, and `PartFacts`' `count == |entityIds|` relies on this reading.
- `Aggregate.Classify`, `Cutlist.RawAreaOf`, `Cutlist.RawVolumeOf`: lengths are integers in one unit. `to_l` rounding in `Classify` and the conversion of area to m² and volume to m³ in `RawAreaOf`/`RawVolumeOf` are not modelled, so the raw area and volume are integer products.
- `Numbering.Succ`: String#succ is modelled only for strings of digits and of capital letters, the two alphabets part numbers take.
- `Sorting.Lower`: String#downcase is modelled on ASCII letters only.
- `Sorting.SortBy`: Ruby's `sort_by` does not promise an order among equal keys; the model's sort is stable (`Sorting.SortByStable`), so that order is the model's choice. The exact report of `Generate.GenerateCommand` (`report == ReportOf(...)`) depends on this choice; sortedness, permutation, counts, totals and the uniqueness of part numbers hold for any order among equal keys.
- `Cutlist.EmitGroup`: the part comparator `PartDef::part_order` with its strategy string is a sort key parameter; the comparator itself is not part of this model.
- `Cutlist.PartOutOf`: `PartDef#id` is not part of this model and is left out of the part output.
- `Generate.GenerateCommand`: Ruby pushes a group hash into the report and then fills in its area, volume and parts; the model builds each group completely before appending it, which yields the same report.
- `Commands.ModelState`: the update commands act on a separate model state (definition names, entity materials by id, registered material names) rather than on the scene value the report is built from.
- `Commands.ModelState.PartUpdateCommand`: `definitions[...]` is a lookup by name; renaming to a name another definition already has is not made unique as SketchUp would.
- `group_update_command`'s unused `id` parameter is not modelled.
