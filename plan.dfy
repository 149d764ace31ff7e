/**
 * The try block as one run of calls: the calls of every enabled block, in
 * block order, and what that run leaves, block by block.
 */
module Plan {
  import opened Ids
  import opened Store
  import opened Derivation
  import opened Steps
  import opened Stages
  import opened Blocks
  import opened Gate

  /** The calls of block `j` (numbered as in Adds) under the flags `f`; `hr`
      is whether the Pharynx input is high resolution. */
  function BlockCalls(j: nat, f: Flags, hr: bool): Calls {
    if j == 1 then Single(Body3mm, Margin(Input(BodyId), -3.0))
    else if j == 2 then PtvsCalls
    else if j == 3 then PtvAllBCalls
    else if j == 4 then (if f.ptvIntDvh then Single(PtvIntDvh, Sub(Made(PtvInt), Made(PtvHigh))) else Done)
    else if j == 5 then (if f.ptvIntOpt then IntOptCalls else Done)
    else if j == 6 then (if f.ptvLowDvh then Single(PtvLowDvh, Sub(Made(PtvLow), Made(PtvHighInt))) else Done)
    else if j == 7 then (if f.ptvLowOpt then LowOptCalls else Done)
    else if j == 8 then (if f.ring then RingCalls else Done)
    else if j == 9 then (if f.parotidL then Single(ParotidLOar, Sub(Input(ParotidLId), Made(PtvAll))) else Done)
    else if j == 10 then (if f.parotidR then Single(ParotidROar, Sub(Input(ParotidRId), Made(PtvAll))) else Done)
    else if j == 11 then
      (if !f.pharynx then Done
       else if hr then PharynxHighResCalls
       else Single(PharynxOar, Sub(Input(PharynxId), Made(PtvAll))))
    else if j == 12 then (if f.brainstem then Single(Brainstem3Prv, Margin(Input(BrainstemId), 3.0)) else Done)
    else if j == 13 then (if f.cord then Single(Cord5Prv, Margin(Input(CordId), 5.0)) else Done)
    else Done
  }

  /** The calls of blocks 1..j, in order. */
  function CallsTo(j: nat, f: Flags, hr: bool): Calls
    decreases j, f
  {
    if j == 0 then Done else Cat(CallsTo(j - 1, f, hr), BlockCalls(j, f, hr))
  }

  /** The state the script starts the try block in. */
  function Start(o: map<string, Structure>): Outcome {
    Outcome(Ok, o, [])
  }

  /** The state after blocks 1..j, or after the exception that ended them. */
  function RunTo(o: map<string, Structure>, margin: MarginFn, faults: set<GeoCall>, f: Flags, j: nat): Outcome {
    Run(margin, faults, Start(o), CallsTo(j, f, PharynxHighRes(o)))
  }

  /** What a run with the planned additions `plan` leaves: on completion
      exactly those additions and the state invariant; on an exception a
      prefix of them, the exception invariant, a geometry exception only
      from a faulty call, and a duplicate id only on an original id that
      the plan adds. */
  ghost predicate RunPost(o: map<string, Structure>, margin: MarginFn, faults: set<GeoCall>, r: Outcome, plan: seq<Out>) {
    && (r.st.Ok? ==> r.created == plan && InvOk(o, margin, r.m, r.created))
    && (r.st.Threw? ==> IsPrefix(r.created, plan) && InvFail(o, margin, r.m, r.created))
    && (r.st.Threw? && r.st.error.GeometryError? ==> r.st.error.call in faults)
    && (r.st.Threw? && r.st.error.DuplicateId? ==> r.st.error.id in o && AddedId(r.st.error.id, plan))
  }

  /** The inputs that the enabled blocks read are present. */
  predicate InputsPresent(o: map<string, Structure>, f: Flags) {
    && BodyId in o && PtvHighClinId in o && PtvIntClinId in o && PtvLowClinId in o
    && (f.parotidL ==> ParotidLId in o)
    && (f.parotidR ==> ParotidRId in o)
    && (f.pharynx ==> PharynxId in o)
    && (f.brainstem ==> BrainstemId in o)
    && (f.cord ==> CordId in o)
  }

  /** A gate that lets the run through has found every input the enabled
      blocks read. */
  lemma InputsOfProceed(o: map<string, Structure>, f: Flags)
    requires Validate(o) == Proceed(f)
    ensures InputsPresent(o, f)
  {
    assert Mandatory[0] in o && Mandatory[1] in o && Mandatory[2] in o && Mandatory[3] in o;
  }

  /** The plan of the first `j` blocks is a prefix of the plan of the first `k`. */
  lemma {:induction false} PlanGrows(j: nat, k: nat, f: Flags, hr: bool)
    requires j <= k
    ensures IsPrefix(PlanTo(j, f, hr), PlanTo(k, f, hr))
    decreases k
  {
    if j < k {
      PlanGrows(j, k - 1, f, hr);
      var a, b := PlanTo(j, f, hr), PlanTo(k - 1, f, hr);
      assert (b + Adds(k, f, hr))[..|a|] == b[..|a|];
    }
  }

  /** A prefix of the plan of the first `j` blocks is a prefix of the plan
      of the first `k`. */
  lemma PlanPrefixOf(x: seq<Out>, j: nat, k: nat, f: Flags, hr: bool)
    requires j <= k && IsPrefix(x, PlanTo(j, f, hr))
    ensures IsPrefix(x, PlanTo(k, f, hr))
  {
    PlanGrows(j, k, f, hr);
    var b, c := PlanTo(j, f, hr), PlanTo(k, f, hr);
    assert c[..|x|] == c[..|b|][..|x|];
  }

  /** What precedes block `j` has added the structures that block `j` reads
      (block 1 reads only originals). */
  predicate ReadyAt(j: nat, created: seq<Out>) {
    && (2 <= j ==> Body3mm in created)
    && (3 <= j ==> PtvHigh in created && PtvInt in created && PtvLow in created)
    && (4 <= j ==> PtvHighInt in created && PtvAll in created)
  }

  /** An addition planned by the first `k` blocks is planned by the first `j`. */
  lemma PlannedBy(x: Out, k: nat, j: nat, f: Flags, hr: bool)
    requires k <= j && x in PlanTo(k, f, hr)
    ensures x in PlanTo(j, f, hr)
  {
    PlanGrows(k, j, f, hr);
    var a, b := PlanTo(k, f, hr), PlanTo(j, f, hr);
    var i :| 0 <= i < |a| && a[i] == x;
    assert b[..|a|][i] == x;
  }

  /** Block 1 always runs: Body_3mm is planned from then on. */
  lemma PlannedBody(k: nat, f: Flags, hr: bool)
    requires 1 <= k
    ensures Body3mm in PlanTo(k, f, hr)
  {
    assert PlanTo(1, f, hr) == [] + [Body3mm];
    PlannedBy(Body3mm, 1, k, f, hr);
  }

  /** Block 2 always runs: the three PTVs are planned from then on. */
  lemma PlannedPtvs(k: nat, f: Flags, hr: bool)
    requires 2 <= k
    ensures PtvHigh in PlanTo(k, f, hr) && PtvInt in PlanTo(k, f, hr) && PtvLow in PlanTo(k, f, hr)
  {
    var p := PlanTo(2, f, hr);
    assert p == PlanTo(1, f, hr) + [PtvHigh, PtvInt, PtvLow];
    assert p[|p| - 3] == PtvHigh && p[|p| - 2] == PtvInt && p[|p| - 1] == PtvLow;
    PlannedBy(PtvHigh, 2, k, f, hr);
    PlannedBy(PtvInt, 2, k, f, hr);
    PlannedBy(PtvLow, 2, k, f, hr);
  }

  /** Block 3 always runs: PTV_HIGH+INT and PTV_ALL are planned from then on. */
  lemma PlannedUnions(k: nat, f: Flags, hr: bool)
    requires 3 <= k
    ensures PtvHighInt in PlanTo(k, f, hr) && PtvAll in PlanTo(k, f, hr)
  {
    var p := PlanTo(3, f, hr);
    assert p == PlanTo(2, f, hr) + [PtvHighInt, PtvAll];
    assert p[|p| - 2] == PtvHighInt && p[|p| - 1] == PtvAll;
    PlannedBy(PtvHighInt, 3, k, f, hr);
    PlannedBy(PtvAll, 3, k, f, hr);
  }

  /** What blocks 1, 2 and 3 add is there for the later blocks. */
  lemma PlanReady(j: nat, f: Flags, hr: bool)
    requires 1 <= j
    ensures ReadyAt(j, PlanTo(j - 1, f, hr))
  {
    var p := PlanTo(j - 1, f, hr);
    if j == 1 {
    } else if j == 2 {
      PlannedBody(j - 1, f, hr);
      assert ReadyAt(j, p);
    } else if j == 3 {
      PlannedBody(j - 1, f, hr);
      PlannedPtvs(j - 1, f, hr);
      assert ReadyAt(j, p);
    } else {
      PlannedBody(j - 1, f, hr);
      PlannedPtvs(j - 1, f, hr);
      PlannedUnions(j - 1, f, hr);
      assert ReadyAt(j, p);
    }
  }

  /** Blocks 1..j add only structures of those blocks. */
  lemma {:induction false} PlanBlocks(j: nat, f: Flags, hr: bool)
    ensures forall d :: d in PlanTo(j, f, hr) ==> BlockOf(d) <= j
    decreases j
  {
    if j > 0 {
      PlanBlocks(j - 1, f, hr);
      AddsBlock(j, f, hr);
    }
  }

  /** No block adds a structure an earlier block added. */
  lemma PlanApart(j: nat, f: Flags, hr: bool)
    requires 1 <= j
    ensures Apart(Adds(j, f, hr), PlanTo(j - 1, f, hr))
  {
    PlanBlocks(j - 1, f, hr);
    AddsBlock(j, f, hr);
  }

  /** Block `j`, run from a state invariant, finds its targets and
      completes into the state invariant with its planned additions, or
      raises into the exception invariant. */
  ghost predicate BlockOk(o: map<string, Structure>, margin: MarginFn, faults: set<GeoCall>, f: Flags,
                          j: nat, m: map<string, Structure>, created: seq<Out>)
  {
    && Runnable(margin, faults, Outcome(Ok, m, created), BlockCalls(j, f, PharynxHighRes(o)))
    && BlockPost(o, margin, faults, created,
                 Run(margin, faults, Outcome(Ok, m, created), BlockCalls(j, f, PharynxHighRes(o))),
                 Adds(j, f, PharynxHighRes(o)))
  }

  lemma DisabledOk(o: map<string, Structure>, margin: MarginFn, faults: set<GeoCall>, f: Flags,
                   j: nat, m: map<string, Structure>, created: seq<Out>)
    requires InvOk(o, margin, m, created)
    requires BlockCalls(j, f, PharynxHighRes(o)) == Done && Adds(j, f, PharynxHighRes(o)) == []
    ensures BlockOk(o, margin, faults, f, j, m, created)
  {
    assert created + [] == created;
  }

  lemma Block1Ok(o: map<string, Structure>, margin: MarginFn, faults: set<GeoCall>, f: Flags,
                 m: map<string, Structure>, created: seq<Out>)
    requires InvOk(o, margin, m, created) && BodyId in o
    requires Apart(Adds(1, f, PharynxHighRes(o)), created)
    ensures BlockOk(o, margin, faults, f, 1, m, created)
  {
    assert BlockCalls(1, f, PharynxHighRes(o)) == Single(Body3mm, Margin(Input(BodyId), -3.0));
    assert Adds(1, f, PharynxHighRes(o)) == [Body3mm];
    SingleKeeps(o, margin, faults, {}, {BodyId}, m, created, Body3mm, Margin(Input(BodyId), -3.0));
  }

  lemma Block2Ok(o: map<string, Structure>, margin: MarginFn, faults: set<GeoCall>, f: Flags,
                 m: map<string, Structure>, created: seq<Out>)
    requires InvOk(o, margin, m, created) && PtvHighClinId in o && PtvIntClinId in o && PtvLowClinId in o
    requires Body3mm in created
    requires Apart(Adds(2, f, PharynxHighRes(o)), created)
    ensures BlockOk(o, margin, faults, f, 2, m, created)
  {
    assert BlockCalls(2, f, PharynxHighRes(o)) == PtvsCalls;
    assert Adds(2, f, PharynxHighRes(o)) == [PtvHigh, PtvInt, PtvLow];
    PtvsKeeps(o, margin, faults, m, created);
  }

  lemma Block3Ok(o: map<string, Structure>, margin: MarginFn, faults: set<GeoCall>, f: Flags,
                 m: map<string, Structure>, created: seq<Out>)
    requires InvOk(o, margin, m, created)
    requires PtvHigh in created && PtvInt in created && PtvLow in created
    requires Apart(Adds(3, f, PharynxHighRes(o)), created)
    ensures BlockOk(o, margin, faults, f, 3, m, created)
  {
    assert BlockCalls(3, f, PharynxHighRes(o)) == PtvAllBCalls;
    assert Adds(3, f, PharynxHighRes(o)) == [PtvHighInt, PtvAll];
    PtvAllBKeeps(o, margin, faults, m, created);
  }

  lemma Block4Ok(o: map<string, Structure>, margin: MarginFn, faults: set<GeoCall>, f: Flags,
                 m: map<string, Structure>, created: seq<Out>)
    requires InvOk(o, margin, m, created)
    requires PtvInt in created && PtvHigh in created
    requires Apart(Adds(4, f, PharynxHighRes(o)), created)
    ensures BlockOk(o, margin, faults, f, 4, m, created)
  {
    if f.ptvIntDvh {
      assert BlockCalls(4, f, PharynxHighRes(o)) == Single(PtvIntDvh, Sub(Made(PtvInt), Made(PtvHigh)));
      assert Adds(4, f, PharynxHighRes(o)) == [PtvIntDvh];
      SingleKeeps(o, margin, faults, {PtvInt, PtvHigh}, {}, m, created, PtvIntDvh, Sub(Made(PtvInt), Made(PtvHigh)));
    } else {
      DisabledOk(o, margin, faults, f, 4, m, created);
    }
  }

  lemma Block5Ok(o: map<string, Structure>, margin: MarginFn, faults: set<GeoCall>, f: Flags,
                 m: map<string, Structure>, created: seq<Out>)
    requires InvOk(o, margin, m, created)
    requires PtvHigh in created && PtvInt in created
    requires Apart(Adds(5, f, PharynxHighRes(o)), created)
    ensures BlockOk(o, margin, faults, f, 5, m, created)
  {
    if f.ptvIntOpt {
      assert BlockCalls(5, f, PharynxHighRes(o)) == IntOptCalls;
      assert Adds(5, f, PharynxHighRes(o)) == [PtvHigh3mm, PtvIntOpt];
      IntOptKeeps(o, margin, faults, m, created);
    } else {
      DisabledOk(o, margin, faults, f, 5, m, created);
    }
  }

  lemma Block6Ok(o: map<string, Structure>, margin: MarginFn, faults: set<GeoCall>, f: Flags,
                 m: map<string, Structure>, created: seq<Out>)
    requires InvOk(o, margin, m, created)
    requires PtvLow in created && PtvHighInt in created
    requires Apart(Adds(6, f, PharynxHighRes(o)), created)
    ensures BlockOk(o, margin, faults, f, 6, m, created)
  {
    if f.ptvLowDvh {
      assert BlockCalls(6, f, PharynxHighRes(o)) == Single(PtvLowDvh, Sub(Made(PtvLow), Made(PtvHighInt)));
      assert Adds(6, f, PharynxHighRes(o)) == [PtvLowDvh];
      SingleKeeps(o, margin, faults, {PtvLow, PtvHighInt}, {}, m, created, PtvLowDvh, Sub(Made(PtvLow), Made(PtvHighInt)));
    } else {
      DisabledOk(o, margin, faults, f, 6, m, created);
    }
  }

  lemma Block7Ok(o: map<string, Structure>, margin: MarginFn, faults: set<GeoCall>, f: Flags,
                 m: map<string, Structure>, created: seq<Out>)
    requires InvOk(o, margin, m, created)
    requires PtvHighInt in created && PtvLow in created
    requires Apart(Adds(7, f, PharynxHighRes(o)), created)
    ensures BlockOk(o, margin, faults, f, 7, m, created)
  {
    if f.ptvLowOpt {
      assert BlockCalls(7, f, PharynxHighRes(o)) == LowOptCalls;
      assert Adds(7, f, PharynxHighRes(o)) == [PtvHighInt3mm, PtvLowOpt];
      LowOptKeeps(o, margin, faults, m, created);
    } else {
      DisabledOk(o, margin, faults, f, 7, m, created);
    }
  }

  lemma Block8Ok(o: map<string, Structure>, margin: MarginFn, faults: set<GeoCall>, f: Flags,
                 m: map<string, Structure>, created: seq<Out>)
    requires InvOk(o, margin, m, created)
    requires PtvAll in created && Body3mm in created
    requires Apart(Adds(8, f, PharynxHighRes(o)), created)
    ensures BlockOk(o, margin, faults, f, 8, m, created)
  {
    if f.ring {
      assert BlockCalls(8, f, PharynxHighRes(o)) == RingCalls;
      assert Adds(8, f, PharynxHighRes(o)) == [PtvAll3mm, PtvAll10mm, Ring310Pre, Ring310];
      RingKeeps(o, margin, faults, m, created);
    } else {
      DisabledOk(o, margin, faults, f, 8, m, created);
    }
  }

  lemma Block101LOk(o: map<string, Structure>, margin: MarginFn, faults: set<GeoCall>, f: Flags,
                 m: map<string, Structure>, created: seq<Out>)
    requires InvOk(o, margin, m, created) && (f.parotidL ==> ParotidLId in o)
    requires PtvAll in created
    requires Apart(Adds(9, f, PharynxHighRes(o)), created)
    ensures BlockOk(o, margin, faults, f, 9, m, created)
  {
    if f.parotidL {
      assert BlockCalls(9, f, PharynxHighRes(o)) == Single(ParotidLOar, Sub(Input(ParotidLId), Made(PtvAll)));
      assert Adds(9, f, PharynxHighRes(o)) == [ParotidLOar];
      SingleKeeps(o, margin, faults, {PtvAll}, {ParotidLId}, m, created, ParotidLOar, Sub(Input(ParotidLId), Made(PtvAll)));
    } else {
      DisabledOk(o, margin, faults, f, 9, m, created);
    }
  }

  lemma Block101ROk(o: map<string, Structure>, margin: MarginFn, faults: set<GeoCall>, f: Flags,
                 m: map<string, Structure>, created: seq<Out>)
    requires InvOk(o, margin, m, created) && (f.parotidR ==> ParotidRId in o)
    requires PtvAll in created
    requires Apart(Adds(10, f, PharynxHighRes(o)), created)
    ensures BlockOk(o, margin, faults, f, 10, m, created)
  {
    if f.parotidR {
      assert BlockCalls(10, f, PharynxHighRes(o)) == Single(ParotidROar, Sub(Input(ParotidRId), Made(PtvAll)));
      assert Adds(10, f, PharynxHighRes(o)) == [ParotidROar];
      SingleKeeps(o, margin, faults, {PtvAll}, {ParotidRId}, m, created, ParotidROar, Sub(Input(ParotidRId), Made(PtvAll)));
    } else {
      DisabledOk(o, margin, faults, f, 10, m, created);
    }
  }

  lemma Block102Ok(o: map<string, Structure>, margin: MarginFn, faults: set<GeoCall>, f: Flags,
                   m: map<string, Structure>, created: seq<Out>)
    requires InvOk(o, margin, m, created) && (f.pharynx ==> PharynxId in o)
    requires PtvAll in created
    requires Apart(Adds(11, f, PharynxHighRes(o)), created)
    ensures BlockOk(o, margin, faults, f, 11, m, created)
  {
    if !f.pharynx {
      DisabledOk(o, margin, faults, f, 11, m, created);
    } else {
      Block102Run(o, margin, faults, f, m, created);
    }
  }

  lemma Block102Run(o: map<string, Structure>, margin: MarginFn, faults: set<GeoCall>, f: Flags,
                    m: map<string, Structure>, created: seq<Out>)
    requires f.pharynx && PharynxId in o && InvOk(o, margin, m, created)
    requires PtvAll in created
    requires Apart(Adds(11, f, PharynxHighRes(o)), created)
    ensures BlockOk(o, margin, faults, f, 11, m, created)
  {
    if PharynxHighRes(o) {
      assert BlockCalls(11, f, PharynxHighRes(o)) == PharynxHighResCalls;
      assert Adds(11, f, PharynxHighRes(o)) == [PharynxOar, PtvAllHighRes];
      PharynxHighResKeeps(o, margin, faults, m, created);
    } else {
      assert BlockCalls(11, f, PharynxHighRes(o)) == Single(PharynxOar, Sub(Input(PharynxId), Made(PtvAll)));
      assert Adds(11, f, PharynxHighRes(o)) == [PharynxOar];
      SingleKeeps(o, margin, faults, {PtvAll}, {PharynxId}, m, created, PharynxOar, Sub(Input(PharynxId), Made(PtvAll)));
    }
  }

  lemma Block103Ok(o: map<string, Structure>, margin: MarginFn, faults: set<GeoCall>, f: Flags,
                 m: map<string, Structure>, created: seq<Out>)
    requires InvOk(o, margin, m, created) && (f.brainstem ==> BrainstemId in o)
    requires Apart(Adds(12, f, PharynxHighRes(o)), created)
    ensures BlockOk(o, margin, faults, f, 12, m, created)
  {
    if f.brainstem {
      assert BlockCalls(12, f, PharynxHighRes(o)) == Single(Brainstem3Prv, Margin(Input(BrainstemId), 3.0));
      assert Adds(12, f, PharynxHighRes(o)) == [Brainstem3Prv];
      SingleKeeps(o, margin, faults, {}, {BrainstemId}, m, created, Brainstem3Prv, Margin(Input(BrainstemId), 3.0));
    } else {
      DisabledOk(o, margin, faults, f, 12, m, created);
    }
  }

  lemma Block104Ok(o: map<string, Structure>, margin: MarginFn, faults: set<GeoCall>, f: Flags,
                 m: map<string, Structure>, created: seq<Out>)
    requires InvOk(o, margin, m, created) && (f.cord ==> CordId in o)
    requires Apart(Adds(13, f, PharynxHighRes(o)), created)
    ensures BlockOk(o, margin, faults, f, 13, m, created)
  {
    if f.cord {
      assert BlockCalls(13, f, PharynxHighRes(o)) == Single(Cord5Prv, Margin(Input(CordId), 5.0));
      assert Adds(13, f, PharynxHighRes(o)) == [Cord5Prv];
      SingleKeeps(o, margin, faults, {}, {CordId}, m, created, Cord5Prv, Margin(Input(CordId), 5.0));
    } else {
      DisabledOk(o, margin, faults, f, 13, m, created);
    }
  }

  /** Block `j`, after blocks 1..j-1 completed, keeps the state invariant. */
  lemma StepOk(o: map<string, Structure>, margin: MarginFn, faults: set<GeoCall>, f: Flags,
               j: nat, m: map<string, Structure>, created: seq<Out>)
    requires InputsPresent(o, f) && 1 <= j <= 13
    requires ReadyAt(j, created) && InvOk(o, margin, m, created)
    requires Apart(Adds(j, f, PharynxHighRes(o)), created)
    ensures BlockOk(o, margin, faults, f, j, m, created)
  {
    if j == 1 { Block1Ok(o, margin, faults, f, m, created); }
    else if j == 2 { Block2Ok(o, margin, faults, f, m, created); }
    else if j == 3 { Block3Ok(o, margin, faults, f, m, created); }
    else if j == 4 { Block4Ok(o, margin, faults, f, m, created); }
    else if j == 5 { Block5Ok(o, margin, faults, f, m, created); }
    else if j == 6 { Block6Ok(o, margin, faults, f, m, created); }
    else if j == 7 { Block7Ok(o, margin, faults, f, m, created); }
    else if j == 8 { Block8Ok(o, margin, faults, f, m, created); }
    else if j == 9 { Block101LOk(o, margin, faults, f, m, created); }
    else if j == 10 { Block101ROk(o, margin, faults, f, m, created); }
    else if j == 11 { Block102Ok(o, margin, faults, f, m, created); }
    else if j == 12 { Block103Ok(o, margin, faults, f, m, created); }
    else { Block104Ok(o, margin, faults, f, m, created); }
  }

  /** Every run of the first `j` blocks whose inputs are present leaves
      either the state invariant with the first `j` blocks' planned
      additions, or the exception invariant with a prefix of them. */
  lemma {:induction false} RunToKeeps(o: map<string, Structure>, margin: MarginFn, faults: set<GeoCall>, f: Flags, j: nat)
    requires InputsPresent(o, f) && j <= 13
    ensures RunPost(o, margin, faults, RunTo(o, margin, faults, f, j), PlanTo(j, f, PharynxHighRes(o)))
    decreases j
  {
    if j == 0 {
      StartKeeps(o, margin, faults, f);
    } else {
      RunToKeeps(o, margin, faults, f, j - 1);
      Step(o, margin, faults, f, j);
    }
  }

  /** Block `j` continues what blocks 1..j-1 left. */
  lemma Step(o: map<string, Structure>, margin: MarginFn, faults: set<GeoCall>, f: Flags, j: nat)
    requires InputsPresent(o, f) && 1 <= j <= 13
    requires RunPost(o, margin, faults, RunTo(o, margin, faults, f, j - 1), PlanTo(j - 1, f, PharynxHighRes(o)))
    ensures RunPost(o, margin, faults, RunTo(o, margin, faults, f, j), PlanTo(j, f, PharynxHighRes(o)))
  {
    if RunTo(o, margin, faults, f, j - 1).st.Threw? {
      StepThrew(o, margin, faults, f, j);
    } else {
      StepRuns(o, margin, faults, f, j);
    }
  }

  /** Before block 1 nothing is added and the originals are all there is. */
  lemma StartKeeps(o: map<string, Structure>, margin: MarginFn, faults: set<GeoCall>, f: Flags)
    ensures RunPost(o, margin, faults, RunTo(o, margin, faults, f, 0), PlanTo(0, f, PharynxHighRes(o)))
  {
    assert RunTo(o, margin, faults, f, 0) == Start(o);
    assert forall k | k in o :: Original(o, k);
  }

  /** An exception before block `j` is where blocks 1..j stop. */
  lemma StepThrew(o: map<string, Structure>, margin: MarginFn, faults: set<GeoCall>, f: Flags, j: nat)
    requires 1 <= j <= 13
    requires RunPost(o, margin, faults, RunTo(o, margin, faults, f, j - 1), PlanTo(j - 1, f, PharynxHighRes(o)))
    requires RunTo(o, margin, faults, f, j - 1).st.Threw?
    ensures RunPost(o, margin, faults, RunTo(o, margin, faults, f, j), PlanTo(j, f, PharynxHighRes(o)))
  {
    var hr := PharynxHighRes(o);
    var r := RunTo(o, margin, faults, f, j - 1);
    RunCat(margin, faults, Start(o), CallsTo(j - 1, f, hr), BlockCalls(j, f, hr));
    PlanPrefixOf(r.created, j - 1, j, f, PharynxHighRes(o));
    if r.st.error.DuplicateId? {
      PlannedBy(IdOf(r.st.error.id).value, j - 1, j, f, hr);
    }
  }

  /** Block `j`, after blocks 1..j-1 completed, continues the run. */
  lemma StepRuns(o: map<string, Structure>, margin: MarginFn, faults: set<GeoCall>, f: Flags, j: nat)
    requires InputsPresent(o, f) && 1 <= j <= 13
    requires RunPost(o, margin, faults, RunTo(o, margin, faults, f, j - 1), PlanTo(j - 1, f, PharynxHighRes(o)))
    requires RunTo(o, margin, faults, f, j - 1).st.Ok?
    ensures RunPost(o, margin, faults, RunTo(o, margin, faults, f, j), PlanTo(j, f, PharynxHighRes(o)))
  {
    var hr := PharynxHighRes(o);
    var r := RunTo(o, margin, faults, f, j - 1);
    RunCat(margin, faults, Start(o), CallsTo(j - 1, f, hr), BlockCalls(j, f, hr));
    assert r == Outcome(Ok, r.m, r.created);
    PlanReady(j, f, hr);
    PlanApart(j, f, hr);
    StepOk(o, margin, faults, f, j, r.m, r.created);
  }

  /** Block `j` continues the run of blocks 1..j-1, and finds its targets
      when that run completed. */
  lemma Enter(o: map<string, Structure>, margin: MarginFn, faults: set<GeoCall>, f: Flags, j: nat)
    requires InputsPresent(o, f) && 1 <= j <= 13
    ensures RunTo(o, margin, faults, f, j) ==
            Run(margin, faults, RunTo(o, margin, faults, f, j - 1), BlockCalls(j, f, PharynxHighRes(o)))
    ensures RunTo(o, margin, faults, f, j - 1).st.Ok? ==>
            Runnable(margin, faults, RunTo(o, margin, faults, f, j - 1), BlockCalls(j, f, PharynxHighRes(o)))
  {
    var hr := PharynxHighRes(o);
    RunCat(margin, faults, Start(o), CallsTo(j - 1, f, hr), BlockCalls(j, f, hr));
    RunToKeeps(o, margin, faults, f, j - 1);
    if RunTo(o, margin, faults, f, j - 1).st.Ok? {
      EnterRuns(o, margin, faults, f, j);
    }
  }

  lemma EnterRuns(o: map<string, Structure>, margin: MarginFn, faults: set<GeoCall>, f: Flags, j: nat)
    requires InputsPresent(o, f) && 1 <= j <= 13
    requires RunPost(o, margin, faults, RunTo(o, margin, faults, f, j - 1), PlanTo(j - 1, f, PharynxHighRes(o)))
    requires RunTo(o, margin, faults, f, j - 1).st.Ok?
    ensures Runnable(margin, faults, RunTo(o, margin, faults, f, j - 1), BlockCalls(j, f, PharynxHighRes(o)))
  {
    var r := RunTo(o, margin, faults, f, j - 1);
    assert r == Outcome(Ok, r.m, r.created);
    PlanReady(j, f, PharynxHighRes(o));
    PlanApart(j, f, PharynxHighRes(o));
    StepOk(o, margin, faults, f, j, r.m, r.created);
  }

  /** An exception in the first `j` blocks ends the run there. */
  lemma {:induction false} Stops(o: map<string, Structure>, margin: MarginFn, faults: set<GeoCall>, f: Flags, j: nat, k: nat)
    requires RunTo(o, margin, faults, f, j).st.Threw? && j <= k
    ensures RunTo(o, margin, faults, f, k) == RunTo(o, margin, faults, f, j)
    decreases k
  {
    if j < k {
      var hr := PharynxHighRes(o);
      Stops(o, margin, faults, f, j, k - 1);
      RunCat(margin, faults, Start(o), CallsTo(k - 1, f, hr), BlockCalls(k, f, hr));
    }
  }

  /** The block whose exception ended the run of blocks 1..k (0 when none did). */
  ghost function FailingBlock(o: map<string, Structure>, margin: MarginFn, faults: set<GeoCall>, f: Flags, k: nat): nat
    decreases k
  {
    if k == 0 || RunTo(o, margin, faults, f, k).st.Ok? then 0
    else if RunTo(o, margin, faults, f, k - 1).st.Threw? then FailingBlock(o, margin, faults, f, k - 1)
    else k
  }

  /** The exception that left `r` was raised by block `j` after blocks
      1..j-1 completed: their additions are a prefix of what was added, and
      every structure block `j` added is still present. */
  ghost predicate BlockFailure(o: map<string, Structure>, margin: MarginFn, faults: set<GeoCall>, f: Flags,
                               j: nat, r: Outcome) {
    && 1 <= j <= 13
    && RunTo(o, margin, faults, f, j - 1).st.Ok?
    && IsPrefix(PlanTo(j - 1, f, PharynxHighRes(o)), r.created)
    && forall d | d in r.created && d !in PlanTo(j - 1, f, PharynxHighRes(o)) :: Name(d) in r.m
  }

  /** An exception in blocks 1..k was raised by one block, after the blocks
      before it completed; it leaves every structure that block added
      present, none of its temporaries being removed yet. */
  lemma {:induction false} ThrowingBlock(o: map<string, Structure>, margin: MarginFn, faults: set<GeoCall>, f: Flags, k: nat)
    requires InputsPresent(o, f) && k <= 13 && RunTo(o, margin, faults, f, k).st.Threw?
    ensures var j := FailingBlock(o, margin, faults, f, k);
      && j <= k
      && BlockFailure(o, margin, faults, f, j, RunTo(o, margin, faults, f, k))
      && RunTo(o, margin, faults, f, j - 1).created == PlanTo(j - 1, f, PharynxHighRes(o))
      && RunTo(o, margin, faults, f, j) == RunTo(o, margin, faults, f, k)
    decreases k, 1
  {
    assert RunTo(o, margin, faults, f, 0) == Start(o);
    if RunTo(o, margin, faults, f, k - 1).st.Threw? {
      ThrownBefore(o, margin, faults, f, k);
    } else {
      assert FailingBlock(o, margin, faults, f, k) == k;
      BlockThrew(o, margin, faults, f, k);
    }
  }

  /** An exception before block `k` is the one that ends blocks 1..k. */
  lemma {:induction false} ThrownBefore(o: map<string, Structure>, margin: MarginFn, faults: set<GeoCall>, f: Flags, k: nat)
    requires InputsPresent(o, f) && 1 <= k <= 13 && RunTo(o, margin, faults, f, k - 1).st.Threw?
    ensures var j := FailingBlock(o, margin, faults, f, k);
      && j <= k
      && BlockFailure(o, margin, faults, f, j, RunTo(o, margin, faults, f, k))
      && RunTo(o, margin, faults, f, j - 1).created == PlanTo(j - 1, f, PharynxHighRes(o))
      && RunTo(o, margin, faults, f, j) == RunTo(o, margin, faults, f, k)
    decreases k, 0
  {
    var j := FailingBlock(o, margin, faults, f, k - 1);
    Stops(o, margin, faults, f, k - 1, k);
    assert FailingBlock(o, margin, faults, f, k) == j;
    ThrowingBlock(o, margin, faults, f, k - 1);
    assert RunTo(o, margin, faults, f, j) == RunTo(o, margin, faults, f, k - 1) == RunTo(o, margin, faults, f, k);
  }

  /** Block `j`, raising after blocks 1..j-1 completed, leaves every
      structure it added present. */
  lemma BlockThrew(o: map<string, Structure>, margin: MarginFn, faults: set<GeoCall>, f: Flags, j: nat)
    requires InputsPresent(o, f) && 1 <= j <= 13
    requires RunTo(o, margin, faults, f, j - 1).st.Ok? && RunTo(o, margin, faults, f, j).st.Threw?
    ensures RunTo(o, margin, faults, f, j - 1).created == PlanTo(j - 1, f, PharynxHighRes(o))
    ensures IsPrefix(PlanTo(j - 1, f, PharynxHighRes(o)), RunTo(o, margin, faults, f, j).created)
    ensures forall d | d in RunTo(o, margin, faults, f, j).created && d !in PlanTo(j - 1, f, PharynxHighRes(o)) ::
              Name(d) in RunTo(o, margin, faults, f, j).m
  {
    RunToKeeps(o, margin, faults, f, j - 1);
    Enter(o, margin, faults, f, j);
    BlockLeaves(o, margin, faults, f, j);
  }

  /** What block `j` leaves when it raises after blocks 1..j-1 completed. */
  lemma BlockLeaves(o: map<string, Structure>, margin: MarginFn, faults: set<GeoCall>, f: Flags, j: nat)
    requires InputsPresent(o, f) && 1 <= j <= 13
    requires RunPost(o, margin, faults, RunTo(o, margin, faults, f, j - 1), PlanTo(j - 1, f, PharynxHighRes(o)))
    requires RunTo(o, margin, faults, f, j - 1).st.Ok?
    ensures var r := RunTo(o, margin, faults, f, j - 1);
      var r' := Run(margin, faults, r, BlockCalls(j, f, PharynxHighRes(o)));
      r'.st.Threw? ==> IsPrefix(r.created, r'.created) && forall d | d in r'.created && d !in r.created :: Name(d) in r'.m
  {
    var r := RunTo(o, margin, faults, f, j - 1);
    assert r == Outcome(Ok, r.m, r.created);
    PlanReady(j, f, PharynxHighRes(o));
    PlanApart(j, f, PharynxHighRes(o));
    StepOk(o, margin, faults, f, j, r.m, r.created);
    var r' := Run(margin, faults, r, BlockCalls(j, f, PharynxHighRes(o)));
    if r'.st.Threw? {
      assert r'.created[..|r.created|] == (r.created + Adds(j, f, PharynxHighRes(o)))[..|r.created|];
    }
  }

  /** A run with no faulty geometry call, none of whose planned additions
      has an id already in use, completes. */
  lemma CleanRunCompletes(o: map<string, Structure>, margin: MarginFn, f: Flags)
    requires InputsPresent(o, f)
    requires forall d | d in PlanTo(13, f, PharynxHighRes(o)) :: Name(d) !in o
    ensures RunTo(o, margin, {}, f, 13).st.Ok?
  {
    var r := RunTo(o, margin, {}, f, 13);
    RunToKeeps(o, margin, {}, f, 13);
    if r.st.Threw? && r.st.error.DuplicateId? {
      NameOfId(r.st.error.id);
      assert false;
    }
  }
}
