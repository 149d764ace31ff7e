/**
 * The reference definition of what the script derives: the region of every
 * derived structure as a formula over the input regions, the order in which
 * structures are added, the outputs a successful run keeps, and the state
 * invariants that hold between the blocks of the script.
 */
module Derivation {
  import opened Ids
  import opened Store

  /** The geometry engine's Margin: expansion (positive) or contraction
      (negative) by a distance in mm. It is left uninterpreted. */
  type MarginFn = (Region, real) -> Region

  /** One enable flag per optional block, as computed by the validation gate. */
  datatype Flags = Flags(
    ptvIntDvh: bool, ptvIntOpt: bool, ptvLowDvh: bool, ptvLowOpt: bool, ring: bool,
    parotidL: bool, parotidR: bool, pharynx: bool, brainstem: bool, cord: bool)

  function RegionOf(m: map<string, Structure>, id: string): Region {
    if id in m then m[id].region else {}
  }

  /** IsHighResolution of the Pharynx input. */
  function PharynxHighRes(m: map<string, Structure>): bool {
    PharynxId in m && m[PharynxId].highRes
  }

  // The derived regions, over the regions of the original structure set `o`.

  function Body3mmRegion(o: map<string, Structure>, margin: MarginFn): Region {
    margin(RegionOf(o, BodyId), -3.0)
  }
  function PtvHighRegion(o: map<string, Structure>, margin: MarginFn): Region {
    RegionOf(o, PtvHighClinId) * Body3mmRegion(o, margin)
  }
  function PtvIntRegion(o: map<string, Structure>, margin: MarginFn): Region {
    RegionOf(o, PtvIntClinId) * Body3mmRegion(o, margin)
  }
  function PtvLowRegion(o: map<string, Structure>, margin: MarginFn): Region {
    RegionOf(o, PtvLowClinId) * Body3mmRegion(o, margin)
  }
  function PtvHighIntRegion(o: map<string, Structure>, margin: MarginFn): Region {
    PtvHighRegion(o, margin) + PtvIntRegion(o, margin)
  }
  function PtvAllRegion(o: map<string, Structure>, margin: MarginFn): Region {
    PtvHighIntRegion(o, margin) + PtvLowRegion(o, margin)
  }
  function PtvHigh3mmRegion(o: map<string, Structure>, margin: MarginFn): Region {
    margin(PtvHighRegion(o, margin), 3.0)
  }
  function PtvHighInt3mmRegion(o: map<string, Structure>, margin: MarginFn): Region {
    margin(PtvHighIntRegion(o, margin), 3.0)
  }
  function PtvAll3mmRegion(o: map<string, Structure>, margin: MarginFn): Region {
    margin(PtvAllRegion(o, margin), 3.0)
  }
  function PtvAll10mmRegion(o: map<string, Structure>, margin: MarginFn): Region {
    margin(PtvAllRegion(o, margin), 10.0)
  }
  function Ring310PreRegion(o: map<string, Structure>, margin: MarginFn): Region {
    PtvAll10mmRegion(o, margin) - PtvAll3mmRegion(o, margin)
  }

  /** The structures the script derives, one constructor per id it adds. */
  datatype Out =
    | Body3mm | PtvHigh | PtvInt | PtvLow | PtvHighInt | PtvAll
    | PtvIntDvh | PtvHigh3mm | PtvIntOpt | PtvLowDvh | PtvHighInt3mm | PtvLowOpt
    | PtvAll3mm | PtvAll10mm | Ring310Pre | Ring310
    | ParotidLOar | ParotidROar | PharynxOar | PtvAllHighRes | Brainstem3Prv | Cord5Prv

  /** The derived structure an id names, if any. */
  function IdOf(k: string): Option<Out> {
    if k == Body3mmId then Some(Body3mm)
    else if k == PtvHighId then Some(PtvHigh)
    else if k == PtvIntId then Some(PtvInt)
    else if k == PtvLowId then Some(PtvLow)
    else if k == PtvHighIntId then Some(PtvHighInt)
    else if k == PtvAllId then Some(PtvAll)
    else if k == PtvIntDvhId then Some(PtvIntDvh)
    else if k == PtvHigh3mmId then Some(PtvHigh3mm)
    else if k == PtvIntOptId then Some(PtvIntOpt)
    else if k == PtvLowDvhId then Some(PtvLowDvh)
    else if k == PtvHighInt3mmId then Some(PtvHighInt3mm)
    else if k == PtvLowOptId then Some(PtvLowOpt)
    else if k == PtvAll3mmId then Some(PtvAll3mm)
    else if k == PtvAll10mmId then Some(PtvAll10mm)
    else if k == Ring310PreId then Some(Ring310Pre)
    else if k == Ring310Id then Some(Ring310)
    else if k == ParotidLOptId then Some(ParotidLOar)
    else if k == ParotidROptId then Some(ParotidROar)
    else if k == PharynxOptId then Some(PharynxOar)
    else if k == PtvAllHighResId then Some(PtvAllHighRes)
    else if k == Brainstem3mmId then Some(Brainstem3Prv)
    else if k == Cord5mmId then Some(Cord5Prv)
    else None
  }

  /** The id under which the script adds `d`. */
  function Name(d: Out): string {
    match d
    case Body3mm => Body3mmId
    case PtvHigh => PtvHighId
    case PtvInt => PtvIntId
    case PtvLow => PtvLowId
    case PtvHighInt => PtvHighIntId
    case PtvAll => PtvAllId
    case PtvIntDvh => PtvIntDvhId
    case PtvHigh3mm => PtvHigh3mmId
    case PtvIntOpt => PtvIntOptId
    case PtvLowDvh => PtvLowDvhId
    case PtvHighInt3mm => PtvHighInt3mmId
    case PtvLowOpt => PtvLowOptId
    case PtvAll3mm => PtvAll3mmId
    case PtvAll10mm => PtvAll10mmId
    case Ring310Pre => Ring310PreId
    case Ring310 => Ring310Id
    case ParotidLOar => ParotidLOptId
    case ParotidROar => ParotidROptId
    case PharynxOar => PharynxOptId
    case PtvAllHighRes => PtvAllHighResId
    case Brainstem3Prv => Brainstem3mmId
    case Cord5Prv => Cord5mmId
  }

  /** Name inverts IdOf. */
  lemma IdOfName(d: Out)
    ensures IdOf(Name(d)) == Some(d)
  {
  }

  lemma IdOfNames()
    ensures forall d :: IdOf(Name(d)) == Some(d)
  {
    forall d {
      IdOfName(d);
    }
  }

  /** IdOf inverts Name. */
  lemma NameOfId(k: string)
    ensures IdOf(k).Some? ==> Name(IdOf(k).value) == k
  {
  }

  /** Distinct derived structures are added under distinct ids. */
  lemma NameInjective(d: Out, e: Out)
    ensures Name(d) == Name(e) ==> d == e
  {
    IdOfName(d);
    IdOfName(e);
  }

  /** A temporary removed inside the block that creates it. */
  predicate IsBranchTemp(d: Out) {
    d.PtvHigh3mm? || d.PtvHighInt3mm? || d.PtvAll3mm? || d.PtvAll10mm? || d.Ring310Pre? || d.PtvAllHighRes?
  }

  /** A temporary removed at the end of the run. */
  predicate IsFinalTemp(d: Out) {
    d.Body3mm? || d.PtvInt? || d.PtvLow? || d.PtvHighInt? || d.PtvAll?
  }

  predicate IsTemporary(d: Out) {
    IsBranchTemp(d) || IsFinalTemp(d)
  }

  /** The structure type (DICOM type) the script passes to AddStructure for `d`. */
  function CategoryOf(d: Out): Category {
    match d
    case Body3mm | PtvAll3mm | PtvAll10mm | Ring310Pre | Ring310 | PtvAllHighRes => Control
    case ParotidLOar | ParotidROar | PharynxOar | Brainstem3Prv | Cord5Prv => Avoidance
    case _ => Ptv
  }

  /** The region the script assigns to `d`, over the regions of the original
      structure set `o`. */
  function DerivedRegion(o: map<string, Structure>, margin: MarginFn, d: Out): Region {
    match d
    case Body3mm => Body3mmRegion(o, margin)
    case PtvHigh => PtvHighRegion(o, margin)
    case PtvInt => PtvIntRegion(o, margin)
    case PtvLow => PtvLowRegion(o, margin)
    case PtvHighInt => PtvHighIntRegion(o, margin)
    case PtvAll => PtvAllRegion(o, margin)
    case PtvIntDvh => PtvIntRegion(o, margin) - PtvHighRegion(o, margin)
    case PtvHigh3mm => PtvHigh3mmRegion(o, margin)
    case PtvIntOpt => PtvIntRegion(o, margin) - PtvHigh3mmRegion(o, margin)
    case PtvLowDvh => PtvLowRegion(o, margin) - PtvHighIntRegion(o, margin)
    case PtvHighInt3mm => PtvHighInt3mmRegion(o, margin)
    case PtvLowOpt => PtvLowRegion(o, margin) - PtvHighInt3mmRegion(o, margin)
    case PtvAll3mm => PtvAll3mmRegion(o, margin)
    case PtvAll10mm => PtvAll10mmRegion(o, margin)
    case Ring310Pre => Ring310PreRegion(o, margin)
    case Ring310 => Ring310PreRegion(o, margin) * Body3mmRegion(o, margin)
    case ParotidLOar => RegionOf(o, ParotidLId) - PtvAllRegion(o, margin)
    case ParotidROar => RegionOf(o, ParotidRId) - PtvAllRegion(o, margin)
    case PharynxOar => RegionOf(o, PharynxId) - PtvAllRegion(o, margin)
    case PtvAllHighRes => PtvAllRegion(o, margin)
    case Brainstem3Prv => margin(RegionOf(o, BrainstemId), 3.0)
    case Cord5Prv => margin(RegionOf(o, CordId), 5.0)
  }

  /** Whether the script converts `d` to high resolution: the copy of PTV_ALL
      made for a high-resolution pharynx, and the pharynx structure itself
      when the Pharynx input is high resolution. */
  function DerivedHighRes(o: map<string, Structure>, d: Out): bool {
    d.PtvAllHighRes? || (d.PharynxOar? && PharynxHighRes(o))
  }

  /** The structure a completed step leaves under the id of `d`. */
  function Derived(o: map<string, Structure>, margin: MarginFn, d: Out): Structure {
    Structure(CategoryOf(d), DerivedRegion(o, margin, d), DerivedHighRes(o, d))
  }

  /** The structures added by block `j` (1..13 for blocks 1-8, 101 L,
      101 R, 102, 103, 104), in the order of their AddStructure calls. */
  function Adds(j: nat, f: Flags, hr: bool): seq<Out> {
    if j == 1 then [Body3mm]
    else if j == 2 then [PtvHigh, PtvInt, PtvLow]
    else if j == 3 then [PtvHighInt, PtvAll]
    else if j == 4 then (if f.ptvIntDvh then [PtvIntDvh] else [])
    else if j == 5 then (if f.ptvIntOpt then [PtvHigh3mm, PtvIntOpt] else [])
    else if j == 6 then (if f.ptvLowDvh then [PtvLowDvh] else [])
    else if j == 7 then (if f.ptvLowOpt then [PtvHighInt3mm, PtvLowOpt] else [])
    else if j == 8 then (if f.ring then [PtvAll3mm, PtvAll10mm, Ring310Pre, Ring310] else [])
    else if j == 9 then (if f.parotidL then [ParotidLOar] else [])
    else if j == 10 then (if f.parotidR then [ParotidROar] else [])
    else if j == 11 then
      (if f.pharynx then (if hr then [PharynxOar, PtvAllHighRes] else [PharynxOar]) else [])
    else if j == 12 then (if f.brainstem then [Brainstem3Prv] else [])
    else if j == 13 then (if f.cord then [Cord5Prv] else [])
    else []
  }

  /** The block (as numbered in Adds) whose AddStructure call adds `d`. */
  function BlockOf(d: Out): nat {
    match d
    case Body3mm => 1
    case PtvHigh | PtvInt | PtvLow => 2
    case PtvHighInt | PtvAll => 3
    case PtvIntDvh => 4
    case PtvHigh3mm | PtvIntOpt => 5
    case PtvLowDvh => 6
    case PtvHighInt3mm | PtvLowOpt => 7
    case PtvAll3mm | PtvAll10mm | Ring310Pre | Ring310 => 8
    case ParotidLOar => 9
    case ParotidROar => 10
    case PharynxOar | PtvAllHighRes => 11
    case Brainstem3Prv => 12
    case Cord5Prv => 13
  }

  /** Every structure block `j` adds belongs to block `j`. */
  lemma AddsBlock(j: nat, f: Flags, hr: bool)
    ensures forall d :: d in Adds(j, f, hr) ==> BlockOf(d) == j
  {
    if j <= 4 {
      AddsBlockPtvs(j, f, hr);
    } else if j <= 8 {
      AddsBlockOpts(j, f, hr);
    } else {
      AddsBlockOars(j, f, hr);
    }
  }

  lemma AddsBlockPtvs(j: nat, f: Flags, hr: bool)
    requires j <= 4
    ensures forall d :: d in Adds(j, f, hr) ==> BlockOf(d) == j
  {
  }

  lemma AddsBlockOpts(j: nat, f: Flags, hr: bool)
    requires 4 < j <= 8
    ensures forall d :: d in Adds(j, f, hr) ==> BlockOf(d) == j
  {
  }

  lemma AddsBlockOars(j: nat, f: Flags, hr: bool)
    requires 8 < j
    ensures forall d :: d in Adds(j, f, hr) ==> BlockOf(d) == j
  {
  }

  /** No structure of `a` is in `b`. */
  predicate Apart(a: seq<Out>, b: seq<Out>) {
    forall d :: d in a ==> d !in b
  }

  /** The AddStructure calls of blocks 1..j, in order. */
  function PlanTo(j: nat, f: Flags, hr: bool): seq<Out>
    decreases j, f
  {
    if j == 0 then [] else PlanTo(j - 1, f, hr) + Adds(j, f, hr)
  }

  /** Every AddStructure call of a run that passes validation, in order;
      `hr` is whether the Pharynx input is high resolution. */
  function PlannedAdds(f: Flags, hr: bool): seq<Out> {
    PlanTo(13, f, hr)
  }

  /** The outputs the script writes to the plan. */
  const Outputs: set<Out> :=
    {PtvHigh, PtvIntDvh, PtvIntOpt, PtvLowDvh, PtvLowOpt, Ring310,
     ParotidLOar, ParotidROar, PharynxOar, Brainstem3Prv, Cord5Prv}

  /** Whether a successful run keeps `d`: PTV_HIGH always, every other
      output when its block is enabled, no temporary. */
  predicate Kept(d: Out, f: Flags) {
    match d
    case PtvHigh => true
    case PtvIntDvh => f.ptvIntDvh
    case PtvIntOpt => f.ptvIntOpt
    case PtvLowDvh => f.ptvLowDvh
    case PtvLowOpt => f.ptvLowOpt
    case Ring310 => f.ring
    case ParotidLOar => f.parotidL
    case ParotidROar => f.parotidR
    case PharynxOar => f.pharynx
    case Brainstem3Prv => f.brainstem
    case Cord5Prv => f.cord
    case _ => false
  }

  /** The derived structures a successful run keeps. */
  function Terminal(f: Flags): set<Out> {
    set d | d in Outputs && Kept(d, f)
  }

  function NamesOf(ds: set<Out>): set<string> {
    set d | d in ds :: Name(d)
  }

  /** The structure set a successful run leaves: the original structures,
      untouched, and the kept derived structures. */
  function Expected(o: map<string, Structure>, margin: MarginFn, f: Flags): map<string, Structure> {
    IdOfNames();
    map k | k in o.Keys + NamesOf(Terminal(f)) ::
      if k in o then o[k] else Derived(o, margin, IdOf(k).value)
  }

  predicate IsPrefix(a: seq<Out>, b: seq<Out>) {
    |a| <= |b| && b[..|a|] == a
  }

  /** `k` is the id of an original structure. */
  predicate Original(o: map<string, Structure>, k: string) {
    k in o
  }

  /** `d` was added by the run. */
  predicate Added(created: seq<Out>, d: Out) {
    d in created
  }

  /** Every original structure is still there, unchanged. */
  ghost predicate Untouched(o: map<string, Structure>, m: map<string, Structure>) {
    forall k {:trigger Original(o, k)} :: Original(o, k) ==> k in m && m[k] == o[k]
  }

  /** No structure added by the run had an id in use in the original set. */
  ghost predicate FreshIds(o: map<string, Structure>, created: seq<Out>) {
    forall d {:trigger Added(created, d)} :: Added(created, d) ==> Name(d) !in o
  }

  /** The id `k` names a derived structure in `created`. */
  predicate AddedId(k: string, created: seq<Out>) {
    IdOf(k).Some? && IdOf(k).value in created
  }

  /** The state after a sequence of completed blocks that added `created`:
      the originals are untouched, the block temporaries are gone, and every
      other added structure holds its derived structure. */
  ghost predicate InvOk(o: map<string, Structure>, margin: MarginFn, m: map<string, Structure>, created: seq<Out>) {
    && Untouched(o, m)
    && FreshIds(o, created)
    && (forall k {:trigger IdOf(k)} :: k in m ==> k in o || (IdOf(k).Some? && IdOf(k).value in created && !IsBranchTemp(IdOf(k).value)))
    && forall d {:trigger Added(created, d)} :: Added(created, d) && !IsBranchTemp(d) ==>
         Name(d) in m && m[Name(d)] == Derived(o, margin, d)
  }

  /** A structure that was added and is either still empty or already holds
      its derived region. */
  predicate Partial(o: map<string, Structure>, margin: MarginFn, d: Out, s: Structure) {
    s.category == Derived(o, margin, d).category
    && (s.region == {} || s.region == Derived(o, margin, d).region)
  }

  /** The state an exception leaves: originals untouched, only added ids are
      new, every added structure that is not a block temporary is still
      there, and each added structure is empty or complete. */
  ghost predicate InvFail(o: map<string, Structure>, margin: MarginFn, m: map<string, Structure>, created: seq<Out>) {
    && Untouched(o, m)
    && FreshIds(o, created)
    && (forall k {:trigger IdOf(k)} :: k in m ==> k in o || (IdOf(k).Some? && IdOf(k).value in created))
    && (forall d {:trigger Added(created, d)} :: Added(created, d) && !IsBranchTemp(d) ==> Name(d) in m)
    && forall d {:trigger Added(created, d)} :: Added(created, d) && Name(d) in m ==> Partial(o, margin, d, m[Name(d)])
  }
}
