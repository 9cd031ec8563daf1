/** The catalog records of the configuration form: processes, materials and
    finishes, as the form's type declarations describe them, and the catalog
    (`Features`) that holds one sequence of each, in catalog order. */
module Catalog {

  /** A JavaScript value that may be `undefined`. */
  datatype Option<+T> = None | Some(value: T)

  /** A manufacturing technology. `active = false` shows it disabled. */
  datatype Process = Process(id: int, name: string, active: bool)

  /** Both parts of a tolerance are optional. Tolerance values are numbers
      that are only compared and displayed, so they are kept as `int`. */
  datatype Tolerance = Tolerance(default: Option<int>, options: Option<seq<int>>)

  /** A material belongs to the process `processId`. `isCustom` is optional. */
  datatype Material = Material(
    id: int,
    processId: int,
    name: string,
    color: seq<string>,
    infill: seq<string>,
    tolerance: Tolerance,
    active: bool,
    isCustom: Option<bool>)

  /** A finish belongs to the process `processId` and is not offered for the
      materials whose ids are listed in `restrictedMaterials`. */
  datatype Finish = Finish(
    id: int,
    processId: int,
    name: string,
    restrictedMaterials: seq<int>,
    isCustom: bool)

  /** The whole catalog, supplied once and never changed. */
  datatype Features = Features(
    processes: seq<Process>,
    materials: seq<Material>,
    finishes: seq<Finish>)
}
