/**
 * The script's Execute: the presence checks, the validation gate, the
 * derivation blocks in order under their enable flags, the removal of the
 * temporaries, and the catch block that ends the run on any exception.
 */
module Script {
  import opened Ids
  import opened Store
  import opened Derivation
  import opened Steps
  import opened Blocks
  import opened Gate
  import opened Plan
  import opened Properties

  /** How a run of Execute ended. */
  datatype Result =
    | NoContext                  // no patient or structure set loaded
    | Aborted(reason: AbortReason)
    | Completed
    | Failed(error: Error)       // the catch block ran

  /** The notices of a gate that aborts. */
  function AbortNotices(reason: AbortReason): (ns: seq<Notice>)
    ensures reason.MissingInputs? ==>
      |ns| == |reason.ids| && forall i :: 0 <= i < |ns| ==> ns[i] == NotFound(reason.ids[i])
    ensures reason.TargetExists? ==> ns == [MustNotExist(reason.id)]
  {
    match reason
    case MissingInputs(ids) => seq(|ids|, i requires 0 <= i < |ids| => NotFound(ids[i]))
    case TargetExists(id) => [MustNotExist(id)]
  }

  /** The notice block 102 shows when it copies a high-resolution Pharynx,
      shown once that branch completes. */
  function Shown(o: map<string, Structure>, margin: MarginFn, faults: set<GeoCall>, f: Flags): seq<Notice> {
    if f.pharynx && PharynxHighRes(o) && RunTo(o, margin, faults, f, 11).st.Ok?
    then [WasHighResolution(PharynxId)] else []
  }

  /** The Pharynx structure that block 102 reads is the original one. */
  lemma PharynxRead(o: map<string, Structure>, margin: MarginFn, faults: set<GeoCall>, f: Flags)
    requires InputsPresent(o, f) && f.pharynx
    requires RunTo(o, margin, faults, f, 10).st.Ok?
    ensures PharynxId in RunTo(o, margin, faults, f, 10).m
    ensures RunTo(o, margin, faults, f, 10).m[PharynxId].highRes == PharynxHighRes(o)
  {
    RunToKeeps(o, margin, faults, f, 10);
    assert Original(o, PharynxId);
  }

  /** The try block up to the removal of the temporaries: the blocks in
      order, each under its flag, up to the first exception. What it leaves
      is the run of the calls of every enabled block. */
  method Derive(ss: StructureSet, ghost o: map<string, Structure>, margin: MarginFn,
                faults: set<GeoCall>, f: Flags)
    returns (st: Status, ghost created: seq<Out>, shown: seq<Notice>)
    requires ss.structures == o && Validate(o) == Proceed(f)
    modifies ss
    ensures Outcome(st, ss.structures, created) == RunTo(o, margin, faults, f, 13)
    ensures shown == Shown(o, margin, faults, f)
  {
    InputsOfProceed(o, f);
    shown := [];
    st, created := DeriveBase(ss, o, margin, faults, f, []);
    if st.Threw? {
      Stops(o, margin, faults, f, 3, 11);
      Stops(o, margin, faults, f, 3, 13);
      return;
    }
    st, created := DeriveIntermediate(ss, o, margin, faults, f, created);
    if st.Threw? {
      Stops(o, margin, faults, f, 5, 11);
      Stops(o, margin, faults, f, 5, 13);
      return;
    }
    st, created := DeriveLow(ss, o, margin, faults, f, created);
    if st.Threw? {
      Stops(o, margin, faults, f, 8, 11);
      Stops(o, margin, faults, f, 8, 13);
      return;
    }
    st, created := DeriveParotids(ss, o, margin, faults, f, created);
    if st.Threw? {
      Stops(o, margin, faults, f, 10, 11);
      Stops(o, margin, faults, f, 10, 13);
      return;
    }
    st, created, shown := DerivePharynx(ss, o, margin, faults, f, created);
    if st.Threw? {
      Stops(o, margin, faults, f, 11, 13);
      return;
    }
    st, created := DerivePrvs(ss, o, margin, faults, f, created);
  }

  /** Blocks 1 to 3: Body_3mm, the PTVs and their unions. */
  method DeriveBase(ss: StructureSet, ghost o: map<string, Structure>, margin: MarginFn,
                    faults: set<GeoCall>, f: Flags, ghost created0: seq<Out>)
    returns (st: Status, ghost created: seq<Out>)
    requires InputsPresent(o, f)
    requires Outcome(Ok, ss.structures, created0) == RunTo(o, margin, faults, f, 0)
    modifies ss
    ensures Outcome(st, ss.structures, created) == RunTo(o, margin, faults, f, 3)
  {
    st, created := Ok, created0;
    // 1: Body_3mm
    Enter(o, margin, faults, f, 1);
    st, created := BlockSingle(ss, margin, faults, created, Body3mm, Margin(Input(BodyId), -3.0));
    if st.Threw? {
      Stops(o, margin, faults, f, 1, 3);
      return;
    }
    // 2: PTV_HIGH, PTV_INT, PTV_LOW
    Enter(o, margin, faults, f, 2);
    st, created := Block2Ptvs(ss, margin, faults, created);
    if st.Threw? {
      Stops(o, margin, faults, f, 2, 3);
      return;
    }
    // 3: PTV_HIGH+INT, PTV_ALL
    Enter(o, margin, faults, f, 3);
    st, created := Block3PtvAll(ss, margin, faults, created);
  }

  /** Blocks 4 and 5: the intermediate-dose DVH and optimisation structures. */
  method DeriveIntermediate(ss: StructureSet, ghost o: map<string, Structure>, margin: MarginFn,
                            faults: set<GeoCall>, f: Flags, ghost created0: seq<Out>)
    returns (st: Status, ghost created: seq<Out>)
    requires InputsPresent(o, f)
    requires Outcome(Ok, ss.structures, created0) == RunTo(o, margin, faults, f, 3)
    modifies ss
    ensures Outcome(st, ss.structures, created) == RunTo(o, margin, faults, f, 5)
  {
    st, created := Ok, created0;
    // 4: PTV_INT_DVH
    Enter(o, margin, faults, f, 4);
    if f.ptvIntDvh {
      st, created := BlockSingle(ss, margin, faults, created, PtvIntDvh, Sub(Made(PtvInt), Made(PtvHigh)));
      if st.Threw? {
        Stops(o, margin, faults, f, 4, 5);
        return;
      }
    }
    // 5: PTV_INT_OPT
    Enter(o, margin, faults, f, 5);
    if f.ptvIntOpt {
      st, created := Block5IntOpt(ss, margin, faults, created);
    }
  }

  /** Blocks 6 to 8: the low-dose DVH and optimisation structures and the ring. */
  method DeriveLow(ss: StructureSet, ghost o: map<string, Structure>, margin: MarginFn,
                   faults: set<GeoCall>, f: Flags, ghost created0: seq<Out>)
    returns (st: Status, ghost created: seq<Out>)
    requires InputsPresent(o, f)
    requires Outcome(Ok, ss.structures, created0) == RunTo(o, margin, faults, f, 5)
    modifies ss
    ensures Outcome(st, ss.structures, created) == RunTo(o, margin, faults, f, 8)
  {
    st, created := Ok, created0;
    // 6: PTV_LOW_DVH
    Enter(o, margin, faults, f, 6);
    if f.ptvLowDvh {
      st, created := BlockSingle(ss, margin, faults, created, PtvLowDvh, Sub(Made(PtvLow), Made(PtvHighInt)));
      if st.Threw? {
        Stops(o, margin, faults, f, 6, 8);
        return;
      }
    }
    // 7: PTV_LOW_OPT
    Enter(o, margin, faults, f, 7);
    if f.ptvLowOpt {
      st, created := Block7LowOpt(ss, margin, faults, created);
      if st.Threw? {
        Stops(o, margin, faults, f, 7, 8);
        return;
      }
    }
    // 8: 3_10mm RING
    Enter(o, margin, faults, f, 8);
    if f.ring {
      st, created := Block8Ring(ss, margin, faults, created);
    }
  }

  /** Block 101: the parotid avoidance structures. */
  method DeriveParotids(ss: StructureSet, ghost o: map<string, Structure>, margin: MarginFn,
                        faults: set<GeoCall>, f: Flags, ghost created0: seq<Out>)
    returns (st: Status, ghost created: seq<Out>)
    requires InputsPresent(o, f)
    requires Outcome(Ok, ss.structures, created0) == RunTo(o, margin, faults, f, 8)
    modifies ss
    ensures Outcome(st, ss.structures, created) == RunTo(o, margin, faults, f, 10)
  {
    st, created := Ok, created0;
    // 101: Parotid L OAR
    Enter(o, margin, faults, f, 9);
    if f.parotidL {
      st, created := BlockSingle(ss, margin, faults, created, ParotidLOar, Sub(Input(ParotidLId), Made(PtvAll)));
      if st.Threw? {
        Stops(o, margin, faults, f, 9, 10);
        return;
      }
    }
    // 101: Parotid R OAR
    Enter(o, margin, faults, f, 10);
    if f.parotidR {
      st, created := BlockSingle(ss, margin, faults, created, ParotidROar, Sub(Input(ParotidRId), Made(PtvAll)));
    }
  }

  /** Block 102: the pharynx avoidance structure, cropped from a
      high-resolution copy of PTV_ALL when the Pharynx input is high
      resolution. */
  method DerivePharynx(ss: StructureSet, ghost o: map<string, Structure>, margin: MarginFn,
                       faults: set<GeoCall>, f: Flags, ghost created0: seq<Out>)
    returns (st: Status, ghost created: seq<Out>, shown: seq<Notice>)
    requires InputsPresent(o, f)
    requires Outcome(Ok, ss.structures, created0) == RunTo(o, margin, faults, f, 10)
    modifies ss
    ensures Outcome(st, ss.structures, created) == RunTo(o, margin, faults, f, 11)
    ensures shown == Shown(o, margin, faults, f)
  {
    st, created, shown := Ok, created0, [];
    Enter(o, margin, faults, f, 11);
    if f.pharynx {
      PharynxRead(o, margin, faults, f);
      if ss.structures[PharynxId].highRes {
        st, created := Block102HighRes(ss, margin, faults, created);
        if st.Ok? {
          shown := [WasHighResolution(PharynxId)];
        }
      } else {
        st, created := BlockSingle(ss, margin, faults, created, PharynxOar, Sub(Input(PharynxId), Made(PtvAll)));
      }
    }
  }

  /** Blocks 103 and 104: the planning risk volumes. */
  method DerivePrvs(ss: StructureSet, ghost o: map<string, Structure>, margin: MarginFn,
                    faults: set<GeoCall>, f: Flags, ghost created0: seq<Out>)
    returns (st: Status, ghost created: seq<Out>)
    requires InputsPresent(o, f)
    requires Outcome(Ok, ss.structures, created0) == RunTo(o, margin, faults, f, 11)
    modifies ss
    ensures Outcome(st, ss.structures, created) == RunTo(o, margin, faults, f, 13)
  {
    st, created := Ok, created0;
    // 103: Brainstem 3PRV
    Enter(o, margin, faults, f, 12);
    if f.brainstem {
      st, created := BlockSingle(ss, margin, faults, created, Brainstem3Prv, Margin(Input(BrainstemId), 3.0));
      if st.Threw? {
        Stops(o, margin, faults, f, 12, 13);
        return;
      }
    }
    // 104: Spinal Cord 5PRV
    Enter(o, margin, faults, f, 13);
    if f.cord {
      st, created := BlockSingle(ss, margin, faults, created, Cord5Prv, Margin(Input(CordId), 5.0));
    }
  }

  /** The removal of the five temporaries that outlive their blocks, at the
      end of the try block. After a completed run of every block it leaves
      the expected structure set. */
  method RemoveTemporaries(ss: StructureSet, ghost o: map<string, Structure>, margin: MarginFn,
                           f: Flags, ghost created: seq<Out>)
    requires created == PlannedAdds(f, PharynxHighRes(o)) && InvOk(o, margin, ss.structures, created)
    modifies ss
    ensures ss.structures == old(ss.structures) - FinalTempIds
    ensures ss.structures == Expected(o, margin, f)
  {
    ghost var m := ss.structures;
    FinalTempsPresent(o, margin, f, m);
    CleanupExpected(o, margin, f, m);
    ss.RemoveStructure(Body3mmId);
    ss.RemoveStructure(PtvIntId);
    ss.RemoveStructure(PtvLowId);
    ss.RemoveStructure(PtvHighIntId);
    ss.RemoveStructure(PtvAllId);
    RemovedInTurn(m);
  }

  /** The script's entry point. Without a structure set it stops at once; a
      gate that aborts leaves the structure set unchanged and shows its
      notices. Otherwise the gate's notices are shown and the blocks run: a
      run that completes leaves exactly the original structures and the
      enabled outputs; an exception leaves the originals untouched and a
      prefix of the planned additions, each empty or complete, and ends
      with the exception notice. */
  method Execute(ss: StructureSet?, margin: MarginFn, faults: set<GeoCall>)
    returns (result: Result, notices: seq<Notice>, ghost created: seq<Out>)
    modifies ss
    ensures ss == null ==> result == NoContext && notices == [NoStructureSet]
    ensures ss != null && Validate(old(ss.structures)).Abort? ==>
      && result == Aborted(Validate(old(ss.structures)).reason)
      && notices == AbortNotices(result.reason)
      && ss.structures == old(ss.structures)
    ensures ss != null && Validate(old(ss.structures)).Proceed? ==>
      var o := old(ss.structures);
      var f := FlagsOf(o);
      var r := RunTo(o, margin, faults, f, 13);
      && (r.st.Ok? ==> result == Completed && ss.structures == Expected(o, margin, f))
      && (r.st.Threw? ==> result == Failed(r.st.error) && ss.structures == r.m && created == r.created)
      && notices == GateNotices(o) + Shown(o, margin, faults, f)
                    + (if r.st.Threw? then [ExceptionCaught(r.st.error)] else [])
  {
    created := [];
    if ss == null {
      return NoContext, [NoStructureSet], [];
    }
    var decision;
    decision, notices := Screen(ss);
    if decision.Abort? {
      return Aborted(decision.reason), notices, [];
    }
    var tail;
    result, tail, created := Conclude(ss, ss.structures, margin, faults, decision.flags);
    notices := notices + tail;
  }

  /** The validation at the head of Execute: the four mandatory inputs are
      looked up and every missing one reported before aborting; then an
      existing PTV_HIGH aborts; otherwise the optional inputs are checked,
      setting the enable flags and collecting their notices. */
  method Screen(ss: StructureSet) returns (decision: Decision, notices: seq<Notice>)
    ensures decision == Validate(ss.structures)
    ensures decision.Abort? ==> notices == AbortNotices(decision.reason)
    ensures decision.Proceed? ==> notices == GateNotices(ss.structures)
  {
    var missing: seq<string> := [];
    missing := CheckBaseROI(Lookup(ss.structures, BodyId), BodyId, missing);
    missing := CheckBaseROI(Lookup(ss.structures, PtvHighClinId), PtvHighClinId, missing);
    missing := CheckBaseROI(Lookup(ss.structures, PtvIntClinId), PtvIntClinId, missing);
    missing := CheckBaseROI(Lookup(ss.structures, PtvLowClinId), PtvLowClinId, missing);
    MissingMandatory(ss.structures);
    if |missing| > 0 {
      notices := ReportMissing(missing);
      return Abort(MissingInputs(missing)), notices;
    }
    if Lookup(ss.structures, PtvHighId).Some? {
      return Abort(TargetExists(PtvHighId)), [MustNotExist(PtvHighId)];
    }
    decision := Proceed(FlagsOf(ss.structures));
    notices := GateNotices(ss.structures);
  }

  /** The try block and its catch: the blocks, then on completion the
      removal of the temporaries, and on an exception its notice. */
  method Conclude(ss: StructureSet, ghost o: map<string, Structure>, margin: MarginFn,
                  faults: set<GeoCall>, f: Flags)
    returns (result: Result, notices: seq<Notice>, ghost created: seq<Out>)
    requires ss.structures == o && Validate(o) == Proceed(f)
    modifies ss
    ensures var r := RunTo(o, margin, faults, f, 13);
      && (r.st.Ok? ==> result == Completed && ss.structures == Expected(o, margin, f))
      && (r.st.Threw? ==> result == Failed(r.st.error) && ss.structures == r.m && created == r.created)
      && notices == Shown(o, margin, faults, f) + (if r.st.Threw? then [ExceptionCaught(r.st.error)] else [])
  {
    var st;
    st, created, notices := Derive(ss, o, margin, faults, f);
    InputsOfProceed(o, f);
    RunToKeeps(o, margin, faults, f, 13);
    if st.Ok? {
      RemoveTemporaries(ss, o, margin, f, created);
      result := Completed;
    } else {
      notices := notices + [ExceptionCaught(st.error)];
      result := Failed(st.error);
    }
  }

  /** What an exception leaves: the originals untouched, a prefix of the
      planned additions, every one of them empty or complete, a geometry
      exception only from a faulty call, and a duplicate id only on an
      original id the run meant to add. The exception is raised by one
      block, after the blocks before it completed, and everything that
      block added, its temporaries included, is still present. */
  lemma FailureLeaves(o: map<string, Structure>, margin: MarginFn, faults: set<GeoCall>)
    requires Validate(o).Proceed? && RunTo(o, margin, faults, FlagsOf(o), 13).st.Threw?
    ensures var r := RunTo(o, margin, faults, FlagsOf(o), 13);
      var plan := PlannedAdds(FlagsOf(o), PharynxHighRes(o));
      && IsPrefix(r.created, plan)
      && InvFail(o, margin, r.m, r.created)
      && (r.st.error.GeometryError? ==> r.st.error.call in faults)
      && (r.st.error.DuplicateId? ==> r.st.error.id in o && AddedId(r.st.error.id, plan))
    ensures BlockFailure(o, margin, faults, FlagsOf(o), FailingBlock(o, margin, faults, FlagsOf(o), 13),
                         RunTo(o, margin, faults, FlagsOf(o), 13))
  {
    InputsOfProceed(o, FlagsOf(o));
    RunToKeeps(o, margin, faults, FlagsOf(o), 13);
    ThrowingBlock(o, margin, faults, FlagsOf(o), 13);
  }
}
