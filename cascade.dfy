/** The consistency of a selection (process, material, finish) with the
    catalog, which the form's transitions keep: the selected material, if
    any, is an active material of the selected process, and the selected
    finish, if any, is a finish of that process that does not exclude the
    selected material. The lemmas show that the defaults the form cascades
    downstream, and every option it offers, satisfy it. */
module Cascade {
  import opened Catalog
  import opened ArrayOps
  import opened Queries

  /** The material id is undefined or names an active material of the process. */
  predicate MaterialFits(materials: seq<Material>, processId: int, materialId: Option<int>)
  {
    materialId.None? ||
    exists i :: 0 <= i < |materials| && materials[i].id == materialId.value &&
      materials[i].processId == processId && materials[i].active
  }

  /** The finish id is undefined or names a finish of the process that does
      not exclude the material. */
  predicate FinishFits(finishes: seq<Finish>, processId: int, materialId: Option<int>, finishId: Option<int>)
  {
    finishId.None? ||
    exists i :: 0 <= i < |finishes| && finishes[i].id == finishId.value &&
      finishes[i].processId == processId && !IsExcluded(finishes[i], materialId)
  }

  predicate Consistent(features: Features, processId: int, materialId: Option<int>, finishId: Option<int>)
  {
    MaterialFits(features.materials, processId, materialId) &&
    FinishFits(features.finishes, processId, materialId, finishId)
  }

  /** The id of the default finish for a process and a material. */
  function DefaultFinishFor(features: Features, processId: int, materialId: Option<int>): Option<int>
  {
    DefaultFinishId(FinishesByProcessAndMaterial(features.finishes, processId, materialId))
  }

  /** A default finish never breaks the finish half of consistency. */
  lemma DefaultFinishFits(features: Features, processId: int, materialId: Option<int>)
    ensures FinishFits(features.finishes, processId, materialId, DefaultFinishFor(features, processId, materialId))
  {
    DefaultFinishOfProcess(features.finishes, processId, materialId);
  }

  /** Selecting a process and cascading its defaults, as the initial state
      and a process change do, gives a consistent selection. */
  lemma ProcessDefaultsAreConsistent(features: Features, processId: int)
    ensures
      var materialId := DefaultMaterialId(MaterialsByProcess(features.materials, processId));
      Consistent(features, processId, materialId, DefaultFinishFor(features, processId, materialId))
  {
    var materialId := DefaultMaterialId(MaterialsByProcess(features.materials, processId));
    DefaultMaterialOfProcess(features.materials, processId);
    DefaultFinishFits(features, processId, materialId);
  }

  /** Selecting a fitting material and cascading its default finish, as a
      material change does, gives a consistent selection. */
  lemma MaterialChoiceIsConsistent(features: Features, processId: int, materialId: int)
    requires MaterialFits(features.materials, processId, Some(materialId))
    ensures Consistent(features, processId, Some(materialId), DefaultFinishFor(features, processId, Some(materialId)))
  {
    DefaultFinishFits(features, processId, Some(materialId));
  }

  /** Every enabled option of the material list fits the process. */
  lemma OfferedMaterialFits(materials: seq<Material>, processId: int, i: int)
    requires 0 <= i < |MaterialsByProcess(materials, processId)|
    requires MaterialsByProcess(materials, processId)[i].active
    ensures MaterialFits(materials, processId, Some(MaterialsByProcess(materials, processId)[i].id))
  {
    var m := MaterialsByProcess(materials, processId)[i];
    FilterMembership(materials, MaterialOfProcess(processId), m);
    var k :| 0 <= k < |materials| && materials[k] == m;
  }

  /** Every option of the finish list fits the process and the material. */
  lemma OfferedFinishFits(finishes: seq<Finish>, processId: int, materialId: Option<int>, i: int)
    requires 0 <= i < |FinishesByProcessAndMaterial(finishes, processId, materialId)|
    ensures FinishFits(finishes, processId, materialId,
      Some(FinishesByProcessAndMaterial(finishes, processId, materialId)[i].id))
  {
    var f := FinishesByProcessAndMaterial(finishes, processId, materialId)[i];
    FilterMembership(finishes, FinishOffered(processId, materialId), f);
    var k :| 0 <= k < |finishes| && finishes[k] == f;
  }

  /** No two materials share an id. */
  predicate UniqueMaterialIds(materials: seq<Material>)
  {
    forall i, j :: 0 <= i < j < |materials| ==> materials[i].id != materials[j].id
  }

  /** No two finishes share an id. */
  predicate UniqueFinishIds(finishes: seq<Finish>)
  {
    forall i, j :: 0 <= i < j < |finishes| ==> finishes[i].id != finishes[j].id
  }

  /** With unique ids, the record the current-material lookup finds for a
      fitting material id is an active material of the process. */
  lemma CurrentMaterialFits(materials: seq<Material>, processId: int, materialId: int)
    requires UniqueMaterialIds(materials)
    requires MaterialFits(materials, processId, Some(materialId))
    ensures CurrentMaterial(materials, Some(materialId)).Some?
    ensures CurrentMaterial(materials, Some(materialId)).value.processId == processId
    ensures CurrentMaterial(materials, Some(materialId)).value.active
  {
  }

  /** With unique ids, the record the current-finish lookup finds for a
      fitting finish id is a finish of the process that does not exclude the
      material. */
  lemma CurrentFinishFits(finishes: seq<Finish>, processId: int, materialId: Option<int>, finishId: int)
    requires UniqueFinishIds(finishes)
    requires FinishFits(finishes, processId, materialId, Some(finishId))
    ensures CurrentFinish(finishes, Some(finishId)).Some?
    ensures CurrentFinish(finishes, Some(finishId)).value.processId == processId
    ensures !IsExcluded(CurrentFinish(finishes, Some(finishId)).value, materialId)
  {
  }
}
