/**
 * The structure set of the host application: a store of named structures,
 * each with a category, a region and a resolution flag. A region is
 * abstracted as the set of voxels it covers, so the boolean operations of
 * the geometry engine become set operations.
 */
module Store {

  datatype Option<T> = None | Some(value: T)

  /** A region as a set of voxel indices. */
  type Region = set<int>

  /** The DICOM type passed to AddStructure: "PTV", "CONTROL" or "AVOIDANCE". */
  datatype Category = Ptv | Control | Avoidance

  datatype Structure = Structure(category: Category, region: Region, highRes: bool)

  /** A geometry call that may raise: computing the segment assigned to a
      structure, or converting a structure to high resolution. */
  datatype GeoCall = Compute(target: string) | Convert(target: string)

  datatype Error =
    | DuplicateId(id: string)       // AddStructure with an id already in use
    | GeometryError(call: GeoCall)  // the geometry engine raised

  /** Normal completion or a thrown exception; `:-` propagates the exception. */
  datatype Status = Ok | Threw(error: Error) {
    predicate IsFailure() { Threw? }
    function PropagateFailure(): Status
      requires Threw?
    {
      this
    }
  }

  /** FirstOrDefault on the structure ids: the structure with this id, if any. */
  function Lookup(m: map<string, Structure>, id: string): (r: Option<Structure>)
    ensures r.Some? <==> id in m
    ensures r.Some? ==> r.value == m[id]
  {
    if id in m then Some(m[id]) else None
  }

  class StructureSet {
    var structures: map<string, Structure>

    constructor (initial: map<string, Structure>)
      ensures structures == initial
    {
      structures := initial;
    }

    /** Adds an empty, default-resolution structure; an id already in use raises. */
    method AddStructure(category: Category, id: string) returns (st: Status)
      modifies this
      ensures id in old(structures) ==> st == Threw(DuplicateId(id)) && structures == old(structures)
      ensures id !in old(structures) ==>
        st == Ok && structures == old(structures)[id := Structure(category, {}, false)]
    {
      if id in structures {
        return Threw(DuplicateId(id));
      }
      structures := structures[id := Structure(category, {}, false)];
      st := Ok;
    }

    /** Assignment to the SegmentVolume of an existing structure. */
    method SetSegmentVolume(id: string, r: Region)
      requires id in structures
      modifies this
      ensures structures == old(structures)[id := old(structures)[id].(region := r)]
    {
      structures := structures[id := structures[id].(region := r)];
    }

    /** ConvertToHighResolution: the voxels stay, the resolution flag is set. */
    method ConvertToHighResolution(id: string)
      requires id in structures
      modifies this
      ensures structures == old(structures)[id := old(structures)[id].(highRes := true)]
    {
      structures := structures[id := structures[id].(highRes := true)];
    }

    method RemoveStructure(id: string)
      requires id in structures
      modifies this
      ensures structures == old(structures) - {id}
    {
      structures := structures - {id};
    }
  }

  /** The geometry engine's verdict on one call: it raises exactly for the
      calls in `faults`. */
  method Attempt(call: GeoCall, faults: set<GeoCall>) returns (st: Status)
    ensures st.Threw? <==> call in faults
    ensures st.Threw? ==> st.error == GeometryError(call)
  {
    if call in faults {
      return Threw(GeometryError(call));
    }
    st := Ok;
  }
}
