# Cascading selection of process, material and finish

This project models the selection logic of a manufacturing-order form. A
catalog lists processes, materials and finishes. A material belongs to one
process. A finish belongs to one process and lists the ids of the materials
it is not offered for.

The form holds three selection cells: `processId`, `materialId` and
`finishId`. The last two may be undefined. The material list is the
catalog's materials of the selected process. The finish list is the
catalog's finishes of that process that do not exclude the selected
material. Picking a process resets the material to the first active
material of its list, and then resets the finish to the first entry of the
new finish list. Picking a material resets only the finish. Picking a
finish changes nothing else. Picking the value that is already selected
changes nothing. The form also shows some extra fields depending on the
selected material and finish: custom material, color, infill, custom
finish and tolerance.

Modules:

- `Catalog` (catalog.dfy): the record types and the catalog.
- `ArrayOps` (array_ops.dfy): JavaScript's `filter` and `find`, with `findIndex` as the
  helper that pins down which element `find` returns.
  Proved: a filter keeps exactly the accepted elements, in order. A find
  returns the first accepted element.
- `Queries` (queries.dfy): the four catalog queries and the two
  current-record lookups.
- `Cascade` (cascade.dfy): the consistency predicate for a selection. Proved:
  the cascaded defaults and every offered option satisfy it.
- `Form` (form.dfy): class `FormState`, which holds the three cells, its
  initial state and the three change handlers.
- `Fields` (fields.dfy): the view saying which optional fields are shown.
- `Scenarios` (scenarios.dfy): a worked session on a small catalog. It uses
  only the contracts of `FormState`.

Consistency (`Cascade.Consistent`) means two things:

- The material id is undefined, or it is the id of an active catalog
  material of the selected process.
- The finish id is undefined, or it is the id of a catalog finish of that
  process that does not exclude the selected material.

The handlers never check the id they are given. The process select lists
every process and disables the inactive ones. The material select lists
`FilteredMaterials()` and disables inactive materials. The finish select
lists `FilteredFinishes()`. A new process always gives a consistent state.
The material and finish handlers promise a consistent state only for an
offered id: an active material of the process, or an entry of
`FilteredFinishes()`. They also need the state to have been consistent
before when the material id is unchanged or a finish is picked.
`Cascade.OfferedMaterialFits` and `Cascade.OfferedFinishFits` show that
every offered option qualifies.

Two behaviours of the code that the model keeps:

- `restrictedMaterials` is an array, and the code tests
  `restrictedMaterials.find(r => r === materialId)` for truthiness. The
  found element equals the material id, so a restricted id of `0` never
  excludes a finish. `Queries.IsExcluded` models this literally, and
  `Queries.ZeroMaterialIsNeverExcluded` states the consequence.
- The handlers do not check that an id exists in the catalog, and nothing
  ties a material's or a finish's `processId` to an existing process. A
  process id that no material refers to gets no default material, and one
  that no finish refers to gets no default finish
  (`Queries.DefaultMaterialOfProcess`, `Queries.DefaultFinishOfProcess`).

## Model

| member | source | states |
|---|---|---|
| ArrayOps.Filter | src/components/Form/index.tsx:17-18 | a filter result is no longer than its input, and every element of it is accepted by the predicate |
| ArrayOps.FindIndex | src/components/Form/index.tsx:21-23 | the index found holds an accepted element and every earlier one is rejected; no index exactly when no element is accepted |
| ArrayOps.Find | src/components/Form/index.tsx:21-23 | `find` returns undefined exactly when no element is accepted, and otherwise returns the element at the first accepted index |
| ArrayOps.FilterIsSubsequence | src/components/Form/index.tsx:17-18 | a filter result is a subsequence of its input, so catalog order is kept |
| ArrayOps.FilterCounts | src/components/Form/index.tsx:33-39 | a filter result holds each accepted element exactly as often as the input does, and no rejected element |
| ArrayOps.FilterMembership | src/components/Form/index.tsx:33-39 | an element is in the filter result if and only if it is in the input and accepted |
| ArrayOps.FilterHead | src/components/Form/index.tsx:41-44 | a filter result is empty exactly when no element is accepted; otherwise its first element is the first accepted element of the input |
| ArrayOps.FindAfterFilter | src/components/Form/index.tsx:79-81 | finding in a filtered sequence is the same as finding, in the input, the first element both predicates accept |
| Queries.MaterialsByProcess | src/components/Form/index.tsx:17-18 | every material returned belongs to the given process |
| Queries.MaterialsByProcessExact | src/components/Form/index.tsx:17-18 | the materials of a process, in catalog order (a subsequence), each as often as the catalog has it, and no material of another process |
| Queries.DefaultMaterialId | src/components/Form/index.tsx:20-26 | the id of an active material with every earlier material inactive; undefined if and only if no material is active |
| Queries.DefaultMaterialOfProcess | src/components/Form/index.tsx:79-81 | the default material of a process is the first material of the whole catalog that belongs to the process and is active; undefined if and only if there is none |
| Queries.IsExcluded | src/components/Form/index.tsx:36-38 | a finish excludes a material if and only if the material id is defined, non-zero, and in `restrictedMaterials` |
| Queries.FinishesByProcessAndMaterial | src/components/Form/index.tsx:28-39 | every finish returned belongs to the process and does not exclude the material |
| Queries.FinishesByProcessAndMaterialExact | src/components/Form/index.tsx:28-39 | the offered finishes, in catalog order (a subsequence), each as often as the catalog has it, and no other finish |
| Queries.FinishesWithoutMaterial | src/components/Form/index.tsx:36-38 | with the material undefined, every finish of the process is returned, whatever its restricted materials |
| Queries.ZeroMaterialIsNeverExcluded | src/components/Form/index.tsx:36-38 | material id 0 is offered the same finishes as an undefined material |
| Queries.DefaultFinishId | src/components/Form/index.tsx:41-44 | the id of the first finish of the list, with no active check; undefined if and only if the list is empty |
| Queries.DefaultFinishOfProcess | src/components/Form/index.tsx:41-44 | the default finish is the first catalog finish of the process that does not exclude the material, with no active check; undefined if and only if there is none |
| Queries.CurrentMaterial | src/components/Form/index.tsx:60-63 | the first catalog material with the selected id; undefined if and only if the id is undefined or no material has it |
| Queries.CurrentFinish | src/components/Form/index.tsx:72-75 | the first catalog finish with the selected id; undefined if and only if the id is undefined or no finish has it |
| Cascade.DefaultFinishFits | src/components/Form/index.tsx:82-84 | a cascaded default finish is undefined or a finish of the process that does not exclude the material |
| Cascade.ProcessDefaultsAreConsistent | src/components/Form/index.tsx:77-89 | a process together with its cascaded default material and default finish is a consistent selection |
| Cascade.MaterialChoiceIsConsistent | src/components/Form/index.tsx:91-100 | an active material of the process together with its cascaded default finish is a consistent selection |
| Cascade.OfferedMaterialFits | src/components/Form/index.tsx:173-181 | every enabled material option is an active material of the selected process |
| Cascade.OfferedFinishFits | src/components/Form/index.tsx:233-237 | every finish option belongs to the process and does not exclude the selected material |
| Cascade.CurrentMaterialFits | src/components/Form/index.tsx:60-63 | when ids are unique, the record found for a consistent material id is an active material of the process |
| Cascade.CurrentFinishFits | src/components/Form/index.tsx:72-75 | when ids are unique, the record found for a consistent finish id belongs to the process and does not exclude the material |
| Fields.ListChoice | src/components/Form/index.tsx:189-217 | a color or infill select is shown if and only if its list is non-empty; its options are the list and it starts at the first entry |
| Fields.ToleranceChoice | src/components/Form/index.tsx:245-260 | the tolerance select is shown if and only if its options are present and non-empty; it starts at the tolerance default, which may be absent |
| Fields.VisibleFields | src/components/Form/index.tsx:184-260 | custom material shown if and only if the material is custom; color and infill shown if and only if non-empty, starting at their first entry; custom finish shown if and only if the finish is custom; tolerance shown if and only if its options are present and non-empty, starting at its default |
| Fields.NoActiveMaterialHidesMaterialFields | src/components/Form/index.tsx:184-218 | a process with no active material shows none of the material-dependent fields |
| Form.FormState.constructor | src/components/Form/index.tsx:51-71 | the initial state is the first catalog process with its cascaded defaults, and it is consistent |
| Form.FormState.HandleProcessChange | src/components/Form/index.tsx:77-89 | the same process changes nothing; a new process gets its default material and then that material's default finish; a new process always gives a consistent state, and a consistent state stays consistent |
| Form.FormState.HandleMaterialChange | src/components/Form/index.tsx:91-100 | the same material changes nothing; otherwise the process is kept and the finish becomes the default for the new material; the result is consistent when the material is an active material of the process (in particular an enabled option of `FilteredMaterials()`) and either the material changes or the state was consistent before |
| Form.FormState.HandleFinishChange | src/components/Form/index.tsx:102-106 | only the finish changes; the material-dependent fields stay as they were; the result is consistent when it was consistent before and the finish is an option of `FilteredFinishes()` |

## Left out

- Rendering: the antd `Form`, `Select`, `Option`, `Input`, `InputNumber`, tooltips, labels, titles and dividers, and the binding of the three cells to form fields. This is presentation only.
- The values the user types or picks in the optional fields (custom material, color, infill, custom finish, tolerance). The form library stores them, not the component's state. The model only states when each field is shown and its initial value.
- Submitting: `onFinish` shows the collected values in a browser alert. This is I/O.
- The bounds 1 to 10 on quantity, threads and inserts. The number widgets enforce them, not the selection logic.
- Memoisation with `useMemo`. `FilteredMaterials`, `FilteredFinishes`, `SelectedMaterial`, `SelectedFinish` and `View` of `FormState` recompute the same values from the current cells.
- The catalog contents. The catalog file `features` is not part of this model, so the catalog is a parameter.
- The disabled state of inactive processes in the process list. The initial process is the first catalog process whether it is active or not, and `HandleProcessChange` accepts any id.
- JavaScript number semantics: ids and tolerance values are integers, with no fractional values and no `NaN`. Under that assumption, 0 is the only falsy id.
- Form.FormState.constructor: it requires a non-empty process list. The component reads `processes[0].id` and fails with a type error on an empty one, so that failure is not modelled.
- Form.FormState.HandleMaterialChange: it promises consistency only for an id that is an active material of the process. The handler does not check this; the form guarantees it by offering only such ids.
- Form.FormState.HandleFinishChange: it promises consistency only for an id that is on offer. The handler does not check this; the form guarantees it by offering only such ids.
