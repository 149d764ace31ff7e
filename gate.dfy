/**
 * The validation gate of the script: the presence checks on the mandatory
 * inputs, the check on PTV_HIGH, and the per-output enable flags, with the
 * notices the operator is shown. The gate never changes the structure set.
 */
module Gate {
  import opened Ids
  import opened Store
  import opened Derivation

  /** The finding behind each message box, without its text. */
  datatype Notice =
    | NoStructureSet                            // no patient or structure set is loaded
    | NotFound(id: string)                      // a mandatory input is missing
    | MustNotExist(id: string)                  // PTV_HIGH already exists
    | OarNotFound(oar: string, output: string)  // an OAR is missing, its output is skipped
    | WillNotRecreate(id: string)               // an output already exists and is skipped
    | WasHighResolution(id: string)             // the pharynx was high resolution
    | ExceptionCaught(error: Error)             // the catch block

  /** The result of CheckOAR / CheckNewROI: the flag and the message, if any. */
  datatype Check = Check(flag: bool, notice: Option<Notice>)

  datatype AbortReason = MissingInputs(ids: seq<string>) | TargetExists(id: string)

  datatype Decision = Abort(reason: AbortReason) | Proceed(flags: Flags)

  /** Appends the id to the list of missing inputs when the lookup found nothing. */
  method CheckBaseROI(baseroi: Option<Structure>, id: string, missing: seq<string>) returns (r: seq<string>)
    ensures baseroi.Some? ==> r == missing
    ensures baseroi.None? ==> r == missing + [id]
  {
    r := missing;
    if baseroi.None? {
      r := r + [id];
    }
  }

  /** Whether the optimisation structure `optId` of the organ `oarId` may be
      created: the organ was found and `optId` is not in use. A missing organ
      is reported in preference to an existing output. */
  function CheckOAR(oarId: string, oar: Option<Structure>, m: map<string, Structure>, optId: string): (r: Check)
    ensures r.flag <==> oar.Some? && optId !in m
    ensures r.flag <==> r.notice.None?
    ensures oar.None? ==> r.notice == Some(OarNotFound(oarId, optId))
    ensures oar.Some? && optId in m ==> r.notice == Some(WillNotRecreate(optId))
  {
    if oar.None? then Check(false, Some(OarNotFound(oarId, optId)))
    else if Lookup(m, optId).Some? then Check(false, Some(WillNotRecreate(optId)))
    else Check(true, None)
  }

  /** Whether the output `id` may be created: it is not in use. */
  function CheckNewROI(id: string, m: map<string, Structure>): (r: Check)
    ensures r.flag <==> id !in m
    ensures r.flag ==> r.notice == None
    ensures !r.flag ==> r.notice == Some(WillNotRecreate(id))
  {
    if Lookup(m, id).Some? then Check(false, Some(WillNotRecreate(id))) else Check(true, None)
  }

  function Notes(c: Check): seq<Notice> {
    if c.notice.Some? then [c.notice.value] else []
  }

  /** The ids among `ids` that are not in the structure set, in order. */
  function Missing(m: map<string, Structure>, ids: seq<string>): seq<string> {
    if ids == [] then []
    else (if ids[0] in m then [] else [ids[0]]) + Missing(m, ids[1..])
  }

  /** An id is reported missing exactly when it is checked and absent. */
  lemma {:induction false} MissingMembers(m: map<string, Structure>, ids: seq<string>)
    ensures forall x :: x in Missing(m, ids) <==> x in ids && x !in m
  {
    if ids != [] {
      MissingMembers(m, ids[1..]);
      assert ids == [ids[0]] + ids[1..];
    }
  }

  /** The checked ids are reported in check order: Missing distributes over
      concatenation of the list of checked ids. */
  lemma {:induction false} MissingAppend(m: map<string, Structure>, a: seq<string>, b: seq<string>)
    ensures Missing(m, a + b) == Missing(m, a) + Missing(m, b)
  {
    if a == [] {
      assert a + b == b;
    } else {
      assert (a + b)[1..] == a[1..] + b;
      MissingAppend(m, a[1..], b);
    }
  }

  /** The mandatory inputs missing from `m`, in check order. */
  lemma MissingMandatory(m: map<string, Structure>)
    ensures Missing(m, Mandatory) ==
      (if BodyId in m then [] else [BodyId]) + (if PtvHighClinId in m then [] else [PtvHighClinId])
      + (if PtvIntClinId in m then [] else [PtvIntClinId]) + (if PtvLowClinId in m then [] else [PtvLowClinId])
  {
    var a, b, c, d := [BodyId], [PtvHighClinId], [PtvIntClinId], [PtvLowClinId];
    assert Mandatory == a + (b + (c + d));
    MissingAppend(m, a, b + (c + d));
    MissingAppend(m, b, c + d);
    MissingAppend(m, c, d);
  }

  /** One "not found" notice per missing id, in order (the foreach loop). */
  method ReportMissing(missing: seq<string>) returns (notices: seq<Notice>)
    ensures |notices| == |missing|
    ensures forall i :: 0 <= i < |missing| ==> notices[i] == NotFound(missing[i])
  {
    notices := [];
    for i := 0 to |missing|
      invariant |notices| == i
      invariant forall j :: 0 <= j < i ==> notices[j] == NotFound(missing[j])
    {
      notices := notices + [NotFound(missing[i])];
    }
  }

  // The ten checks, in the order in which the script makes them.

  function ParotidLCheck(m: map<string, Structure>): Check {
    CheckOAR(ParotidLId, Lookup(m, ParotidLId), m, ParotidLOptId)
  }
  function ParotidRCheck(m: map<string, Structure>): Check {
    CheckOAR(ParotidRId, Lookup(m, ParotidRId), m, ParotidROptId)
  }
  function PharynxCheck(m: map<string, Structure>): Check {
    CheckOAR(PharynxId, Lookup(m, PharynxId), m, PharynxOptId)
  }
  function BrainstemCheck(m: map<string, Structure>): Check {
    CheckOAR(BrainstemId, Lookup(m, BrainstemId), m, Brainstem3mmId)
  }
  function CordCheck(m: map<string, Structure>): Check {
    CheckOAR(CordId, Lookup(m, CordId), m, Cord5mmId)
  }

  /** The enable flags the gate computes for the structure set `m`. */
  function FlagsOf(m: map<string, Structure>): Flags {
    Flags(
      CheckNewROI(PtvIntDvhId, m).flag, CheckNewROI(PtvIntOptId, m).flag,
      CheckNewROI(PtvLowDvhId, m).flag, CheckNewROI(PtvLowOptId, m).flag,
      CheckNewROI(Ring310Id, m).flag,
      ParotidLCheck(m).flag, ParotidRCheck(m).flag, PharynxCheck(m).flag,
      BrainstemCheck(m).flag, CordCheck(m).flag)
  }

  /** The notices of the ten checks, in order. */
  function GateNotices(m: map<string, Structure>): seq<Notice> {
    Notes(ParotidLCheck(m)) + Notes(ParotidRCheck(m)) + Notes(PharynxCheck(m))
    + Notes(BrainstemCheck(m)) + Notes(CordCheck(m))
    + Notes(CheckNewROI(PtvIntDvhId, m)) + Notes(CheckNewROI(PtvIntOptId, m))
    + Notes(CheckNewROI(PtvLowDvhId, m)) + Notes(CheckNewROI(PtvLowOptId, m))
    + Notes(CheckNewROI(Ring310Id, m))
  }

  /** The gate's decision: abort on missing mandatory inputs (all of them
      reported), then on an existing PTV_HIGH; otherwise proceed with flags. */
  function Validate(m: map<string, Structure>): (d: Decision)
    ensures d.Proceed? <==> (forall i :: 0 <= i < |Mandatory| ==> Mandatory[i] in m) && PtvHighId !in m
    ensures d.Abort? && d.reason.MissingInputs? ==>
      d.reason.ids == Missing(m, Mandatory) && d.reason.ids != []
    ensures d.Abort? && d.reason.TargetExists? ==>
      d.reason.id == PtvHighId && PtvHighId in m && forall i :: 0 <= i < |Mandatory| ==> Mandatory[i] in m
    ensures d.Proceed? ==> d.flags == FlagsOf(m)
  {
    MissingMembers(m, Mandatory);
    var missing := Missing(m, Mandatory);
    if missing != [] then
      assert missing[0] in missing;
      Abort(MissingInputs(missing))
    else if PtvHighId in m then Abort(TargetExists(PtvHighId))
    else Proceed(FlagsOf(m))
  }
}
