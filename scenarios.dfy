/** A worked selection session over a small catalog, written against the
    contracts of the form's state alone: two processes, one active and one
    inactive material, and two finishes of which the second excludes the
    active material. */
module Scenarios {
  import opened Catalog
  import opened Queries
  import opened Form

  function SampleMaterial(id: int, active: bool): Material
  {
    Material(id, 1, "material", [], [], Tolerance(None, None), active, None)
  }

  function SampleFeatures(): Features
  {
    Features(
      [Process(1, "3D Printing", true), Process(2, "CNC", false)],
      [SampleMaterial(10, true), SampleMaterial(11, false)],
      [Finish(20, 1, "standard", [], false), Finish(21, 1, "polished", [10], false)])
  }

  method Session()
  {
    var features := SampleFeatures();
    var form := new FormState(features);
    assert form.processId == 1;
    assert MaterialsByProcess(features.materials, 1) == features.materials;
    assert form.materialId == Some(10);
    assert FinishesByProcessAndMaterial(features.finishes, 1, Some(10)) == [features.finishes[0]];
    assert form.finishId == Some(20);

    form.HandleProcessChange(1);
    assert form.materialId == Some(10) && form.finishId == Some(20);

    form.HandleMaterialChange(11);
    assert FinishesByProcessAndMaterial(features.finishes, 1, Some(11)) == features.finishes;
    assert form.finishId == Some(20);

    form.HandleFinishChange(21);
    assert form.processId == 1 && form.materialId == Some(11) && form.finishId == Some(21);

    form.HandleProcessChange(2);
    assert MaterialsByProcess(features.materials, 2) == [];
    assert FinishesByProcessAndMaterial(features.finishes, 2, None) == [];
    assert form.materialId == None && form.finishId == None;
    assert form.Valid();
  }
}
