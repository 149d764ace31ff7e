/**
 * How the regions a completed run keeps relate to the input regions and to
 * one another, and what the run does to the ids of outputs it skips. The
 * regions are voxel sets: And, Or and Sub are intersection, union and
 * difference, and Margin is left uninterpreted, so no fact here depends on
 * what a margin does.
 */
module Regions {
  import opened Ids
  import opened Store
  import opened Derivation
  import opened Gate
  import opened Plan
  import opened Properties

  /** A kept output's id was free in the original set: PTV_HIGH by the gate,
      every other output by the check that enabled it. */
  lemma KeptFresh(o: map<string, Structure>, d: Out)
    requires Validate(o).Proceed? && d in Terminal(FlagsOf(o))
    ensures Name(d) !in o
  {
  }

  /** The structure a completed run keeps for the enabled output `d`. */
  lemma KeptRegion(o: map<string, Structure>, margin: MarginFn, d: Out)
    requires Validate(o).Proceed? && d in Terminal(FlagsOf(o))
    ensures Name(d) in Expected(o, margin, FlagsOf(o))
    ensures Expected(o, margin, FlagsOf(o))[Name(d)].region == DerivedRegion(o, margin, d)
  {
    KeptFresh(o, d);
    ExpectedOutput(o, margin, FlagsOf(o), d);
  }

  /** PTV_HIGH is PTV_7000 within Body_3mm; PTV_INT_DVH misses PTV_HIGH and
      PTV_LOW_DVH misses PTV_HIGH and PTV_INT; each DVH structure lies in its
      clinical PTV and within Body_3mm. */
  lemma TargetRegions(o: map<string, Structure>, margin: MarginFn)
    requires Validate(o).Proceed?
    ensures var e, f := Expected(o, margin, FlagsOf(o)), FlagsOf(o);
      && PtvHighId in e
      && e[PtvHighId].region == RegionOf(o, PtvHighClinId) * Body3mmRegion(o, margin)
      && (f.ptvIntDvh ==>
            && PtvIntDvhId in e
            && e[PtvIntDvhId].region !! e[PtvHighId].region
            && e[PtvIntDvhId].region <= RegionOf(o, PtvIntClinId) * Body3mmRegion(o, margin))
      && (f.ptvLowDvh ==>
            && PtvLowDvhId in e
            && e[PtvLowDvhId].region !! e[PtvHighId].region + PtvIntRegion(o, margin)
            && e[PtvLowDvhId].region <= RegionOf(o, PtvLowClinId) * Body3mmRegion(o, margin))
  {
    var f := FlagsOf(o);
    KeptRegion(o, margin, PtvHigh);
    if f.ptvIntDvh {
      KeptRegion(o, margin, PtvIntDvh);
    }
    if f.ptvLowDvh {
      KeptRegion(o, margin, PtvLowDvh);
    }
  }

  /** The optimisation PTVs leave out the 3 mm expansion of the higher-dose
      PTVs and lie within Body_3mm. */
  lemma OptimisationRegions(o: map<string, Structure>, margin: MarginFn)
    requires Validate(o).Proceed?
    ensures var e, f := Expected(o, margin, FlagsOf(o)), FlagsOf(o);
      && (f.ptvIntOpt ==>
            && PtvIntOptId in e
            && e[PtvIntOptId].region !! PtvHigh3mmRegion(o, margin)
            && e[PtvIntOptId].region <= RegionOf(o, PtvIntClinId) * Body3mmRegion(o, margin))
      && (f.ptvLowOpt ==>
            && PtvLowOptId in e
            && e[PtvLowOptId].region !! PtvHighInt3mmRegion(o, margin)
            && e[PtvLowOptId].region <= RegionOf(o, PtvLowClinId) * Body3mmRegion(o, margin))
  {
    var f := FlagsOf(o);
    if f.ptvIntOpt {
      KeptRegion(o, margin, PtvIntOpt);
    }
    if f.ptvLowOpt {
      KeptRegion(o, margin, PtvLowOpt);
    }
  }

  /** The ring lies within Body_3mm and within the 10 mm expansion of
      PTV_ALL, outside its 3 mm expansion. */
  lemma RingRegion(o: map<string, Structure>, margin: MarginFn)
    requires Validate(o).Proceed? && FlagsOf(o).ring
    ensures var e := Expected(o, margin, FlagsOf(o));
      && Ring310Id in e
      && e[Ring310Id].region <= Body3mmRegion(o, margin)
      && e[Ring310Id].region <= PtvAll10mmRegion(o, margin)
      && e[Ring310Id].region !! PtvAll3mmRegion(o, margin)
  {
    KeptRegion(o, margin, Ring310);
  }

  /** The organ whose avoidance structure `d` is. */
  function OrganOf(d: Out): string
    requires d.ParotidLOar? || d.ParotidROar? || d.PharynxOar?
  {
    if d.ParotidLOar? then ParotidLId else if d.ParotidROar? then ParotidRId else PharynxId
  }

  /** Each organ's avoidance structure lies in the organ and misses PTV_ALL,
      and so every PTV; for the pharynx whichever branch of block 102 ran. */
  lemma AvoidanceRegion(o: map<string, Structure>, margin: MarginFn, d: Out)
    requires d.ParotidLOar? || d.ParotidROar? || d.PharynxOar?
    requires Validate(o).Proceed? && Kept(d, FlagsOf(o))
    ensures var e := Expected(o, margin, FlagsOf(o));
      && Name(d) in e
      && e[Name(d)].region <= RegionOf(o, OrganOf(d))
      && e[Name(d)].region !! PtvAllRegion(o, margin)
  {
    assert d in Terminal(FlagsOf(o));
    KeptRegion(o, margin, d);
  }

  /** A completed run leaves the id of a skipped output as it found it:
      absent, or holding the same pre-existing structure. */
  lemma SkippedUntouched(o: map<string, Structure>, margin: MarginFn, d: Out)
    requires Validate(o).Proceed? && d in Outputs && !Kept(d, FlagsOf(o))
    ensures var e := Expected(o, margin, FlagsOf(o));
      && (Name(d) in e <==> Name(d) in o)
      && (Name(d) in o ==> e[Name(d)] == o[Name(d)])
  {
    ExpectedKeys(o, margin, FlagsOf(o), Name(d));
    IdOfName(d);
  }

  /** A run ended by an exception has not written the id of a skipped
      output either. */
  lemma SkippedUntouchedOnFailure(o: map<string, Structure>, margin: MarginFn, faults: set<GeoCall>, d: Out)
    requires Validate(o).Proceed? && RunTo(o, margin, faults, FlagsOf(o), 13).st.Threw?
    requires !Enabled(d, FlagsOf(o), PharynxHighRes(o))
    ensures var r := RunTo(o, margin, faults, FlagsOf(o), 13);
      && (Name(d) in r.m <==> Name(d) in o)
      && (Name(d) in o ==> r.m[Name(d)] == o[Name(d)])
  {
    var f, hr := FlagsOf(o), PharynxHighRes(o);
    var r := RunTo(o, margin, faults, f, 13);
    InputsOfProceed(o, f);
    RunToKeeps(o, margin, faults, f, 13);
    PlannedMembers(f, hr, d);
    if d in r.created {
      PrefixMembers(r.created, PlannedAdds(f, hr), d);
    }
    IdOfName(d);
    if Name(d) in r.m {
      assert Original(o, Name(d));
    }
    if Name(d) in o {
      assert Original(o, Name(d));
    }
  }

  /** The outputs the flags `f` enable: PTV_HIGH always, each other output
      when its flag is set. */
  function EnabledOutputs(f: Flags): set<Out> {
    {PtvHigh}
    + (if f.ptvIntDvh then {PtvIntDvh} else {}) + (if f.ptvIntOpt then {PtvIntOpt} else {})
    + (if f.ptvLowDvh then {PtvLowDvh} else {}) + (if f.ptvLowOpt then {PtvLowOpt} else {})
    + (if f.ring then {Ring310} else {})
    + (if f.parotidL then {ParotidLOar} else {}) + (if f.parotidR then {ParotidROar} else {})
    + (if f.pharynx then {PharynxOar} else {})
    + (if f.brainstem then {Brainstem3Prv} else {}) + (if f.cord then {Cord5Prv} else {})
  }

  /** The kept outputs are exactly the enabled ones. */
  lemma TerminalEnabledOutputs(f: Flags)
    ensures Terminal(f) == EnabledOutputs(f)
  {
    forall d
      ensures d in Terminal(f) <==> d in EnabledOutputs(f)
    {
      EnabledOutput(f, d);
    }
  }

  lemma EnabledOutput(f: Flags, d: Out)
    ensures d in Terminal(f) <==> d in EnabledOutputs(f)
  {
    assert d in Terminal(f) <==> d in Outputs && Kept(d, f);
    match d
    case PtvHigh =>
    case PtvIntDvh =>
    case PtvIntOpt =>
    case PtvLowDvh =>
    case PtvLowOpt =>
    case Ring310 =>
    case ParotidLOar =>
    case ParotidROar =>
    case PharynxOar =>
    case Brainstem3Prv =>
    case Cord5Prv =>
    case _ =>
  }

  /** The key set a completed run leaves: the original ids and the ids of
      the enabled outputs (PTV_HIGH among them), and nothing else. */
  lemma CompletedKeys(o: map<string, Structure>, margin: MarginFn)
    requires Validate(o).Proceed?
    ensures Expected(o, margin, FlagsOf(o)).Keys == o.Keys + NamesOf(EnabledOutputs(FlagsOf(o)))
  {
    TerminalEnabledOutputs(FlagsOf(o));
  }

  /** A run that completes has added every temporary of the blocks it ran
      under an id that was free, and has removed it again: none of them is
      left. */
  lemma CompletedWithoutTemporaries(o: map<string, Structure>, margin: MarginFn, faults: set<GeoCall>, d: Out)
    requires Validate(o).Proceed? && RunTo(o, margin, faults, FlagsOf(o), 13).st.Ok?
    requires IsTemporary(d) && Enabled(d, FlagsOf(o), PharynxHighRes(o))
    ensures Name(d) !in o
    ensures Name(d) !in Expected(o, margin, FlagsOf(o))
  {
    var f := FlagsOf(o);
    InputsOfProceed(o, f);
    RunToKeeps(o, margin, faults, f, 13);
    PlannedMembers(f, PharynxHighRes(o), d);
    assert Added(RunTo(o, margin, faults, f, 13).created, d);
    NoTemporaryKept(o, margin, f, d);
  }

  lemma PrefixMembers(a: seq<Out>, b: seq<Out>, d: Out)
    requires IsPrefix(a, b) && d in a
    ensures d in b
  {
    var i :| 0 <= i < |a| && a[i] == d;
    assert b[..|a|][i] == d;
  }
}
