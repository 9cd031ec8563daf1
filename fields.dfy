/** The optional form fields that appear or disappear with the selected
    material and finish, as one derived view: for each field whether it is
    shown and, for a select, its options and initial value. */
module Fields {
  import opened Catalog
  import opened Queries

  /** A select field: hidden, or shown with its options and initial value. */
  datatype Choice<T> = Hidden | Shown(options: seq<T>, initial: Option<T>)

  datatype FieldView = FieldView(
    customMaterial: bool,
    color: Choice<string>,
    infill: Choice<string>,
    customFinish: bool,
    tolerance: Choice<int>)

  /** A list-valued material attribute: shown when non-empty, starting at its
      first entry. */
  function ListChoice(values: seq<string>): (c: Choice<string>)
    ensures c.Shown? <==> |values| > 0
    ensures c.Shown? ==> c.options == values && c.initial == Some(values[0])
  {
    if |values| > 0 then Shown(values, Some(values[0])) else Hidden
  }

  /** The tolerance select: shown when `options` is present and non-empty,
      starting at `default`, which may be absent or outside the options. */
  function ToleranceChoice(tolerance: Tolerance): (c: Choice<int>)
    ensures c.Shown? <==> tolerance.options.Some? && |tolerance.options.value| > 0
    ensures c.Shown? ==> c.options == tolerance.options.value && c.initial == tolerance.default
  {
    match tolerance.options
    case Some(options) => if |options| > 0 then Shown(options, tolerance.default) else Hidden
    case None => Hidden
  }

  /** The optional fields for the current material and finish records (each
      `undefined` when nothing is selected or the id is not in the catalog). */
  function VisibleFields(material: Option<Material>, finish: Option<Finish>): (v: FieldView)
    ensures v.customMaterial <==> material.Some? && material.value.isCustom == Some(true)
    ensures v.color.Shown? <==> material.Some? && |material.value.color| > 0
    ensures v.color.Shown? ==>
      v.color.options == material.value.color &&
      v.color.initial == Some(material.value.color[0])
    ensures v.infill.Shown? <==> material.Some? && |material.value.infill| > 0
    ensures v.infill.Shown? ==>
      v.infill.options == material.value.infill &&
      v.infill.initial == Some(material.value.infill[0])
    ensures v.customFinish <==> finish.Some? && finish.value.isCustom
    ensures v.tolerance.Shown? <==>
      material.Some? && material.value.tolerance.options.Some? && |material.value.tolerance.options.value| > 0
    ensures v.tolerance.Shown? ==>
      v.tolerance.options == material.value.tolerance.options.value &&
      v.tolerance.initial == material.value.tolerance.default
  {
    match material
    case None =>
      FieldView(false, Hidden, Hidden, finish.Some? && finish.value.isCustom, Hidden)
    case Some(m) =>
      FieldView(
        m.isCustom == Some(true),
        ListChoice(m.color),
        ListChoice(m.infill),
        finish.Some? && finish.value.isCustom,
        ToleranceChoice(m.tolerance))
  }

  /** No material-dependent field is shown. */
  predicate NoMaterialFields(v: FieldView)
  {
    !v.customMaterial && v.color.Hidden? && v.infill.Hidden? && v.tolerance.Hidden?
  }

  /** A process without an active material gets no default material, and so
      shows none of the material-dependent fields. */
  lemma NoActiveMaterialHidesMaterialFields(features: Features, processId: int, finish: Option<Finish>)
    requires forall i :: 0 <= i < |features.materials| ==>
      !(features.materials[i].processId == processId && features.materials[i].active)
    ensures NoMaterialFields(VisibleFields(
      CurrentMaterial(features.materials, DefaultMaterialId(MaterialsByProcess(features.materials, processId))),
      finish))
  {
    DefaultMaterialOfProcess(features.materials, processId);
  }
}
