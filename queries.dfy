/** The catalog queries of the configuration form: which materials belong to
    a process, which finishes are offered for a process and a material, which
    of them is selected by default, and which record the current selection
    names. Every query is a filter or a find over a catalog sequence, so
    "first" always means first in catalog order. */
module Queries {
  import opened Catalog
  import opened ArrayOps

  /** The filter condition of `getMaterialsByProcess`. */
  function MaterialOfProcess(processId: int): Material -> bool
  {
    (m: Material) => processId == m.processId
  }

  /** The find condition of `getDefaultMaterialId`. */
  function ActiveMaterial(): Material -> bool
  {
    (m: Material) => m.active
  }

  /** The materials of the process `processId`, in catalog order. */
  function MaterialsByProcess(materials: seq<Material>, processId: int): (r: seq<Material>)
    ensures |r| <= |materials|
    ensures forall i :: 0 <= i < |r| ==> r[i].processId == processId
  {
    Filter(materials, MaterialOfProcess(processId))
  }

  /** The id of the first active material, or `undefined` if none is active. */
  function DefaultMaterialId(materials: seq<Material>): (r: Option<int>)
    ensures r.None? <==> forall i :: 0 <= i < |materials| ==> !materials[i].active
    ensures r.Some? ==>
      exists i :: 0 <= i < |materials| && materials[i].id == r.value &&
        materials[i].active && forall j :: 0 <= j < i ==> !materials[j].active
  {
    match Find(materials, ActiveMaterial())
    case None => None
    case Some(m) => Some(m.id)
  }

  /** The restriction test of `getFinishesByProcessAndMeterial`:
      `restrictedMaterials.find(r => r === materialId)` is truthy. The found
      element equals the material id; a found `0` is falsy, so a material
      with id 0 is never excluded, and an `undefined` id matches nothing. */
  function IsExcluded(finish: Finish, materialId: Option<int>): (r: bool)
    ensures r <==>
      (materialId.Some? && materialId.value != 0 && materialId.value in finish.restrictedMaterials)
  {
    match materialId
    case None => false
    case Some(id) =>
      match Find(finish.restrictedMaterials, (restricted: int) => restricted == id)
      case None => false
      case Some(found) => found != 0
  }

  /** The filter condition of `getFinishesByProcessAndMeterial`. */
  function FinishOffered(processId: int, materialId: Option<int>): Finish -> bool
  {
    (f: Finish) => processId == f.processId && !IsExcluded(f, materialId)
  }

  /** The finishes of the process `processId` that do not exclude the
      material `materialId`, in catalog order. */
  function FinishesByProcessAndMaterial(finishes: seq<Finish>, processId: int, materialId: Option<int>)
    : (r: seq<Finish>)
    ensures |r| <= |finishes|
    ensures forall i :: 0 <= i < |r| ==>
      r[i].processId == processId && !IsExcluded(r[i], materialId)
  {
    Filter(finishes, FinishOffered(processId, materialId))
  }

  /** The id of the first finish, or `undefined` for an empty sequence.
      Finishes have no `active` flag, so none is skipped. */
  function DefaultFinishId(finishes: seq<Finish>): (r: Option<int>)
    ensures r.None? <==> finishes == []
    ensures r.Some? ==> r.value == finishes[0].id
  {
    if |finishes| > 0 then Some(finishes[0].id) else None
  }

  /** The find condition of the current-material and current-finish lookups. */
  function MaterialWithId(id: int): Material -> bool
  {
    (m: Material) => m.id == id
  }

  function FinishWithId(id: int): Finish -> bool
  {
    (f: Finish) => f.id == id
  }

  /** `materials.find(m => m.id === materialId)`: the first material of the
      whole catalog with that id; an `undefined` id finds nothing. */
  function CurrentMaterial(materials: seq<Material>, materialId: Option<int>): (r: Option<Material>)
    ensures r.None? <==> materialId.None? || forall i :: 0 <= i < |materials| ==> materials[i].id != materialId.value
    ensures r.Some? ==> materialId == Some(r.value.id)
    ensures r.Some? ==>
      exists i :: 0 <= i < |materials| && materials[i] == r.value &&
        forall j :: 0 <= j < i ==> materials[j].id != r.value.id
  {
    match materialId
    case None => None
    case Some(id) => Find(materials, MaterialWithId(id))
  }

  /** `finishes.find(f => f.id === finishId)`. */
  function CurrentFinish(finishes: seq<Finish>, finishId: Option<int>): (r: Option<Finish>)
    ensures r.None? <==> finishId.None? || forall i :: 0 <= i < |finishes| ==> finishes[i].id != finishId.value
    ensures r.Some? ==> finishId == Some(r.value.id)
    ensures r.Some? ==>
      exists i :: 0 <= i < |finishes| && finishes[i] == r.value &&
        forall j :: 0 <= j < i ==> finishes[j].id != r.value.id
  {
    match finishId
    case None => None
    case Some(id) => Find(finishes, FinishWithId(id))
  }

  /** `MaterialsByProcess` is exactly the filter: it keeps the catalog order
      and keeps every material of the process as often as the catalog has it. */
  lemma MaterialsByProcessExact(materials: seq<Material>, processId: int)
    ensures IsSubsequence(MaterialsByProcess(materials, processId), materials)
    ensures forall m ::
      multiset(MaterialsByProcess(materials, processId))[m] ==
        if m.processId == processId then multiset(materials)[m] else 0
  {
    FilterIsSubsequence(materials, MaterialOfProcess(processId));
    forall m ensures multiset(MaterialsByProcess(materials, processId))[m] ==
      if m.processId == processId then multiset(materials)[m] else 0
    {
      FilterCounts(materials, MaterialOfProcess(processId), m);
    }
  }

  /** `FinishesByProcessAndMaterial` is exactly the filter: it keeps the
      catalog order and keeps every offered finish as often as the catalog
      has it. */
  lemma FinishesByProcessAndMaterialExact(finishes: seq<Finish>, processId: int, materialId: Option<int>)
    ensures IsSubsequence(FinishesByProcessAndMaterial(finishes, processId, materialId), finishes)
    ensures forall f ::
      multiset(FinishesByProcessAndMaterial(finishes, processId, materialId))[f] ==
        if f.processId == processId && !IsExcluded(f, materialId) then multiset(finishes)[f] else 0
  {
    FilterIsSubsequence(finishes, FinishOffered(processId, materialId));
    forall f ensures multiset(FinishesByProcessAndMaterial(finishes, processId, materialId))[f] ==
      if f.processId == processId && !IsExcluded(f, materialId) then multiset(finishes)[f] else 0
    {
      FilterCounts(finishes, FinishOffered(processId, materialId), f);
    }
  }

  /** With no material selected every finish of the process is offered,
      whatever its restricted materials. */
  lemma FinishesWithoutMaterial(finishes: seq<Finish>, processId: int)
    ensures forall f ::
      multiset(FinishesByProcessAndMaterial(finishes, processId, None))[f] ==
        if f.processId == processId then multiset(finishes)[f] else 0
  {
    FinishesByProcessAndMaterialExact(finishes, processId, None);
  }

  /** The material with id 0 is offered the same finishes as no material. */
  lemma {:induction false} ZeroMaterialIsNeverExcluded(finishes: seq<Finish>, processId: int)
    ensures FinishesByProcessAndMaterial(finishes, processId, Some(0)) ==
      FinishesByProcessAndMaterial(finishes, processId, None)
  {
    if finishes != [] {
      ZeroMaterialIsNeverExcluded(finishes[1..], processId);
      assert FinishOffered(processId, Some(0))(finishes[0]) == FinishOffered(processId, None)(finishes[0]);
    }
  }

  /** The default material of a process is the first material of the whole
      catalog that belongs to the process and is active. */
  lemma DefaultMaterialOfProcess(materials: seq<Material>, processId: int)
    ensures DefaultMaterialId(MaterialsByProcess(materials, processId)).None? <==>
      forall i :: 0 <= i < |materials| ==> !(materials[i].processId == processId && materials[i].active)
    ensures DefaultMaterialId(MaterialsByProcess(materials, processId)).Some? ==>
      exists i :: 0 <= i < |materials| &&
        materials[i].id == DefaultMaterialId(MaterialsByProcess(materials, processId)).value &&
        materials[i].processId == processId && materials[i].active &&
        forall j :: 0 <= j < i ==> !(materials[j].processId == processId && materials[j].active)
  {
    FindAfterFilter(materials, MaterialOfProcess(processId), ActiveMaterial());
  }

  /** The default finish of a process and a material is the first finish of
      the whole catalog that belongs to the process and does not exclude the
      material; there is none exactly when no such finish exists. */
  lemma DefaultFinishOfProcess(finishes: seq<Finish>, processId: int, materialId: Option<int>)
    ensures DefaultFinishId(FinishesByProcessAndMaterial(finishes, processId, materialId)).None? <==>
      forall i :: 0 <= i < |finishes| ==>
        !(finishes[i].processId == processId && !IsExcluded(finishes[i], materialId))
    ensures DefaultFinishId(FinishesByProcessAndMaterial(finishes, processId, materialId)).Some? ==>
      exists i :: 0 <= i < |finishes| &&
        finishes[i].id == DefaultFinishId(FinishesByProcessAndMaterial(finishes, processId, materialId)).value &&
        finishes[i].processId == processId && !IsExcluded(finishes[i], materialId) &&
        forall j :: 0 <= j < i ==> !(finishes[j].processId == processId && !IsExcluded(finishes[j], materialId))
  {
    FilterHead(finishes, FinishOffered(processId, materialId));
  }
}
