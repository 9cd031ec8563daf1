/** The state of the configuration form: the three selection cells
    `processId`, `materialId` and `finishId`, set up from the catalog and
    changed only by the three change handlers, each of which does nothing
    when the chosen id is already selected and otherwise cascades defaults
    downstream (process, then material, then finish). The lists and records
    the form derives from the cells are recomputed from them. */
module Form {
  import opened Catalog
  import opened Queries
  import opened Cascade
  import opened Fields

  class FormState {
    const features: Features
    var processId: int
    var materialId: Option<int>
    var finishId: Option<int>

    /** The selection is consistent with the catalog. */
    predicate Valid()
      reads this
    {
      Consistent(features, processId, materialId, finishId)
    }

    /** The material options: the materials of the selected process. */
    function FilteredMaterials(): seq<Material>
      reads this
    {
      MaterialsByProcess(features.materials, processId)
    }

    /** The finish options for the selected process and material. */
    function FilteredFinishes(): seq<Finish>
      reads this
    {
      FinishesByProcessAndMaterial(features.finishes, processId, materialId)
    }

    function SelectedMaterial(): Option<Material>
      reads this
    {
      CurrentMaterial(features.materials, materialId)
    }

    function SelectedFinish(): Option<Finish>
      reads this
    {
      CurrentFinish(features.finishes, finishId)
    }

    /** The optional fields the form shows for the current selection. */
    function View(): FieldView
      reads this
    {
      VisibleFields(SelectedMaterial(), SelectedFinish())
    }

    /** The first process of the catalog (active or not), its default
        material and their default finish. An empty process list has no
        first element. */
    constructor (features: Features)
      requires |features.processes| > 0
      ensures this.features == features
      ensures processId == features.processes[0].id
      ensures materialId == DefaultMaterialId(MaterialsByProcess(features.materials, processId))
      ensures finishId == DefaultFinishFor(features, processId, materialId)
      ensures Valid()
    {
      this.features := features;
      var p := features.processes[0].id;
      var m := DefaultMaterialId(MaterialsByProcess(features.materials, p));
      processId := p;
      materialId := m;
      finishId := DefaultFinishFor(features, p, m);
      ProcessDefaultsAreConsistent(features, p);
    }

    method HandleProcessChange(id: int)
      modifies this
      ensures old(processId) == id ==> unchanged(this)
      ensures old(processId) != id ==>
        processId == id &&
        materialId == DefaultMaterialId(MaterialsByProcess(features.materials, id)) &&
        finishId == DefaultFinishFor(features, id, materialId)
      ensures old(processId) != id ==> Valid()
      ensures old(Valid()) ==> Valid()
    {
      if processId != id {
        var defaultMaterialId := DefaultMaterialId(MaterialsByProcess(features.materials, id));
        var defaultFinishId := DefaultFinishFor(features, id, defaultMaterialId);
        ProcessDefaultsAreConsistent(features, id);
        processId := id;
        materialId := defaultMaterialId;
        finishId := defaultFinishId;
      }
    }

    method HandleMaterialChange(id: int)
      modifies this
      ensures old(materialId) == Some(id) ==> unchanged(this)
      ensures old(materialId) != Some(id) ==>
        processId == old(processId) &&
        materialId == Some(id) &&
        finishId == DefaultFinishFor(features, processId, Some(id))
      ensures old(materialId) != Some(id) ==> FinishFits(features.finishes, processId, materialId, finishId)
      ensures
        (MaterialFits(features.materials, old(processId), Some(id)) &&
         (old(materialId) != Some(id) || old(Valid()))) ==> Valid()
      ensures
        ((exists i :: 0 <= i < |old(FilteredMaterials())| &&
           old(FilteredMaterials())[i].id == id && old(FilteredMaterials())[i].active) &&
         (old(materialId) != Some(id) || old(Valid()))) ==> Valid()
    {
      forall i | 0 <= i < |FilteredMaterials()| && FilteredMaterials()[i].active
        ensures MaterialFits(features.materials, processId, Some(FilteredMaterials()[i].id))
      {
        OfferedMaterialFits(features.materials, processId, i);
      }
      if materialId != Some(id) {
        var defaultFinishId := DefaultFinishFor(features, processId, Some(id));
        DefaultFinishFits(features, processId, Some(id));
        materialId := Some(id);
        finishId := defaultFinishId;
      }
    }

    method HandleFinishChange(id: int)
      modifies this
      ensures old(finishId) == Some(id) ==> unchanged(this)
      ensures processId == old(processId) && materialId == old(materialId) && finishId == Some(id)
      ensures old(Valid()) && FinishFits(features.finishes, processId, materialId, Some(id)) ==> Valid()
      ensures
        (old(Valid()) &&
         exists i :: 0 <= i < |old(FilteredFinishes())| && old(FilteredFinishes())[i].id == id) ==> Valid()
      ensures View().customMaterial == old(View().customMaterial)
      ensures View().color == old(View().color) && View().infill == old(View().infill)
      ensures View().tolerance == old(View().tolerance)
    {
      forall i | 0 <= i < |FilteredFinishes()|
        ensures FinishFits(features.finishes, processId, materialId, Some(FilteredFinishes()[i].id))
      {
        OfferedFinishFits(features.finishes, processId, materialId, i);
      }
      if finishId != Some(id) {
        finishId := Some(id);
      }
    }
  }
}
