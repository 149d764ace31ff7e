/**
 * The derivation blocks of the script (blocks 1-8 and 101-104 of the try
 * block), each as the structure-set calls it makes, proved to fit the
 * stage it runs in, and as a method that makes those calls in order.
 */
module Blocks {
  import opened Ids
  import opened Store
  import opened Derivation
  import opened Steps
  import opened Stages

  /** What a block run leaves: on completion, its additions appended to
      `created` and the state invariant; on an exception, a prefix of them,
      each still present, and the exception invariant, with a geometry
      exception raised only by a faulty call and a duplicate id only on an
      original id the block adds. */
  ghost predicate BlockPost(o: map<string, Structure>, margin: MarginFn, faults: set<GeoCall>,
                            created: seq<Out>, r: Outcome, adds: seq<Out>)
  {
    && (r.st.Ok? ==> r.created == created + adds && InvOk(o, margin, r.m, r.created))
    && (r.st.Threw? ==>
          |created| <= |r.created| && IsPrefix(r.created, created + adds) && InvFail(o, margin, r.m, r.created))
    && (r.st.Threw? ==> forall d | d in r.created && d !in created :: Name(d) in r.m)
    && (r.st.Threw? && r.st.error.GeometryError? ==> r.st.error.call in faults)
    && (r.st.Threw? && r.st.error.DuplicateId? ==> r.st.error.id in o && AddedId(r.st.error.id, adds))
  }

  /** A block whose calls fit their stage and settle it finds every target
      and keeps the state invariant, or raises into the exception invariant. */
  lemma BlockKeeps(o: map<string, Structure>, margin: MarginFn, faults: set<GeoCall>,
                   ready: set<Out>, inputs: set<string>, conv: set<Out>,
                   m: map<string, Structure>, created: seq<Out>, calls: Calls)
    requires InvOk(o, margin, m, created)
    requires (forall e | e in ready :: e in created) && inputs <= o.Keys
    requires Fits(ready, inputs, conv, Fresh, calls) && Settled(AdvAll(conv, Fresh, calls))
    requires ConvAgrees(o, conv, AdvAll(conv, Fresh, calls).adds)
    requires Apart(AdvAll(conv, Fresh, calls).adds, created) && RemovesLast(calls)
    ensures Runnable(margin, faults, Outcome(Ok, m, created), calls)
    ensures BlockPost(o, margin, faults, created, Run(margin, faults, Outcome(Ok, m, created), calls),
                      AdvAll(conv, Fresh, calls).adds)
  {
    StageOfInvOk(o, margin, m, created);
    assert created + Fresh.adds == created;
    RunKeeps(o, margin, faults, ready, inputs, conv, created, Fresh, Outcome(Ok, m, created), calls);
    var r' := Run(margin, faults, Outcome(Ok, m, created), calls);
    if r'.st.Ok? {
      InvOkOfStage(o, margin, r'.m, created, AdvAll(conv, Fresh, calls));
    }
  }

  /** The blocks that add one structure and assign its segment
      (1, 4, 6, 101 L, 101 R, 102 without high resolution, 103, 104). */
  function Single(d: Out, op: Op): Calls {
    Then(Add(CategoryOf(d), d), Then(Segment(d, op), Done))
  }

  /** An operand of a single-structure block: an original among `inputs`, or
      a complete structure of an earlier block. */
  predicate Operand(ready: set<Out>, inputs: set<string>, d: Out, s: Src) {
    match s
    case Input(id) => id in inputs
    case Made(e) => e in ready && !IsBranchTemp(e) && e != d
  }

  lemma SingleFits(ready: set<Out>, inputs: set<string>, conv: set<Out>, d: Out, op: Op)
    requires Recipe(d, op) && !IsBranchTemp(d) && !d.PtvAllHighRes? && d !in conv
    requires Operand(ready, inputs, d, op.a) && (Binary(op) ==> Operand(ready, inputs, d, op.b))
    ensures Fits(ready, inputs, conv, Fresh, Single(d, op))
    ensures AdvAll(conv, Fresh, Single(d, op)) == Progress([d], {}, {}, {})
  {
  }

  /** A single-structure block, run from the state invariant, finds its
      targets and keeps the invariant with its one addition, or raises into
      the exception invariant. */
  lemma SingleKeeps(o: map<string, Structure>, margin: MarginFn, faults: set<GeoCall>,
                    ready: set<Out>, inputs: set<string>, m: map<string, Structure>, created: seq<Out>,
                    d: Out, op: Op)
    requires InvOk(o, margin, m, created) && (forall e | e in ready :: e in created) && inputs <= o.Keys
    requires Recipe(d, op) && !IsBranchTemp(d) && !d.PtvAllHighRes? && (d.PharynxOar? ==> !PharynxHighRes(o))
    requires Apart([d], created)
    requires Operand(ready, inputs, d, op.a) && (Binary(op) ==> Operand(ready, inputs, d, op.b))
    ensures Runnable(margin, faults, Outcome(Ok, m, created), Single(d, op))
    ensures BlockPost(o, margin, faults, created, Run(margin, faults, Outcome(Ok, m, created), Single(d, op)), [d])
  {
    SingleFits(ready, inputs, {}, d, op);
    BlockKeeps(o, margin, faults, ready, inputs, {}, m, created, Single(d, op));
  }

  method BlockSingle(ss: StructureSet, margin: MarginFn, faults: set<GeoCall>, ghost created: seq<Out>,
                     d: Out, op: Op)
    returns (st: Status, ghost created': seq<Out>)
    requires Runnable(margin, faults, Outcome(Ok, ss.structures, created), Single(d, op))
    modifies ss
    ensures Outcome(st, ss.structures, created') == Run(margin, faults, Outcome(Ok, old(ss.structures), created), Single(d, op))
  {
    ghost var r, rest := Outcome(Ok, ss.structures, created), Single(d, op);
    created' := created;
    st := Perform(ss, margin, faults, Add(CategoryOf(d), d), r, rest);
    r, rest := Next(margin, faults, r, rest.call), rest.next;
    created' := r.created;
    if st.Threw? { return; }
    st := Perform(ss, margin, faults, Segment(d, op), r, rest);
    r, rest := Next(margin, faults, r, rest.call), rest.next;
    created' := r.created;
  }

  /** Block 2: PTV_HIGH, PTV_INT and PTV_LOW, each a clinical PTV cropped to Body_3mm. */
  const PtvsCalls: Calls :=
    Then(Add(Ptv, PtvHigh),
    Then(Add(Ptv, PtvInt),
    Then(Add(Ptv, PtvLow),
    Then(Segment(PtvHigh, And(Input(PtvHighClinId), Made(Body3mm))),
    Then(Segment(PtvInt, And(Input(PtvIntClinId), Made(Body3mm))),
    Then(Segment(PtvLow, And(Input(PtvLowClinId), Made(Body3mm))), Done))))))

  lemma PtvsFits1()
    ensures Fits({Body3mm}, {PtvHighClinId, PtvIntClinId, PtvLowClinId}, {}, Fresh,
                 Then(Add(Ptv, PtvHigh), Then(Add(Ptv, PtvInt), Done)))
    ensures AdvAll({}, Fresh, Then(Add(Ptv, PtvHigh), Then(Add(Ptv, PtvInt), Done))) == Progress([PtvHigh, PtvInt], {PtvHigh, PtvInt}, {}, {})
  {
  }

  lemma PtvsFits2()
    ensures Fits({Body3mm}, {PtvHighClinId, PtvIntClinId, PtvLowClinId}, {}, Progress([PtvHigh, PtvInt], {PtvHigh, PtvInt}, {}, {}),
                 Then(Add(Ptv, PtvLow), Then(Segment(PtvHigh, And(Input(PtvHighClinId), Made(Body3mm))), Done)))
    ensures AdvAll({}, Progress([PtvHigh, PtvInt], {PtvHigh, PtvInt}, {}, {}), Then(Add(Ptv, PtvLow), Then(Segment(PtvHigh, And(Input(PtvHighClinId), Made(Body3mm))), Done))) == Progress([PtvHigh, PtvInt, PtvLow], {PtvInt, PtvLow}, {}, {})
  {
  }

  lemma PtvsFits3()
    ensures Fits({Body3mm}, {PtvHighClinId, PtvIntClinId, PtvLowClinId}, {}, Progress([PtvHigh, PtvInt, PtvLow], {PtvInt, PtvLow}, {}, {}),
                 Then(Segment(PtvInt, And(Input(PtvIntClinId), Made(Body3mm))), Then(Segment(PtvLow, And(Input(PtvLowClinId), Made(Body3mm))), Done)))
    ensures AdvAll({}, Progress([PtvHigh, PtvInt, PtvLow], {PtvInt, PtvLow}, {}, {}), Then(Segment(PtvInt, And(Input(PtvIntClinId), Made(Body3mm))), Then(Segment(PtvLow, And(Input(PtvLowClinId), Made(Body3mm))), Done))) == Progress([PtvHigh, PtvInt, PtvLow], {}, {}, {})
  {
  }

  lemma PtvsSplit()
    ensures PtvsCalls == Cat(Then(Add(Ptv, PtvHigh), Then(Add(Ptv, PtvInt), Done)), Cat(Then(Add(Ptv, PtvLow), Then(Segment(PtvHigh, And(Input(PtvHighClinId), Made(Body3mm))), Done)), Then(Segment(PtvInt, And(Input(PtvIntClinId), Made(Body3mm))), Then(Segment(PtvLow, And(Input(PtvLowClinId), Made(Body3mm))), Done))))
  {
  }

  /** The calls of the block fit, and leave nothing outstanding. */
  lemma PtvsFits()
    ensures Fits({Body3mm}, {PtvHighClinId, PtvIntClinId, PtvLowClinId}, {}, Fresh, PtvsCalls)
    ensures AdvAll({}, Fresh, PtvsCalls) == Progress([PtvHigh, PtvInt, PtvLow], {}, {}, {})
  {
    PtvsSplit();
    PtvsFits1();
    PtvsFits2();
    PtvsFits3();
    FitsCat({Body3mm}, {PtvHighClinId, PtvIntClinId, PtvLowClinId}, {}, Fresh, Then(Add(Ptv, PtvHigh), Then(Add(Ptv, PtvInt), Done)), Cat(Then(Add(Ptv, PtvLow), Then(Segment(PtvHigh, And(Input(PtvHighClinId), Made(Body3mm))), Done)), Then(Segment(PtvInt, And(Input(PtvIntClinId), Made(Body3mm))), Then(Segment(PtvLow, And(Input(PtvLowClinId), Made(Body3mm))), Done))));
    FitsCat({Body3mm}, {PtvHighClinId, PtvIntClinId, PtvLowClinId}, {}, Progress([PtvHigh, PtvInt], {PtvHigh, PtvInt}, {}, {}), Then(Add(Ptv, PtvLow), Then(Segment(PtvHigh, And(Input(PtvHighClinId), Made(Body3mm))), Done)), Then(Segment(PtvInt, And(Input(PtvIntClinId), Made(Body3mm))), Then(Segment(PtvLow, And(Input(PtvLowClinId), Made(Body3mm))), Done)));
  }

  /** The block, run from the state invariant, finds its targets and keeps
      the invariant with its additions, or raises into the exception invariant. */
  lemma PtvsKeeps(o: map<string, Structure>, margin: MarginFn, faults: set<GeoCall>,
               m: map<string, Structure>, created: seq<Out>)
    requires InvOk(o, margin, m, created) && Body3mm in created && PtvHighClinId in o && PtvIntClinId in o && PtvLowClinId in o
    requires Apart([PtvHigh, PtvInt, PtvLow], created)
    ensures Runnable(margin, faults, Outcome(Ok, m, created), PtvsCalls)
    ensures BlockPost(o, margin, faults, created, Run(margin, faults, Outcome(Ok, m, created), PtvsCalls), [PtvHigh, PtvInt, PtvLow])
  {
    PtvsFits();
    BlockKeeps(o, margin, faults, {Body3mm}, {PtvHighClinId, PtvIntClinId, PtvLowClinId}, {}, m, created, PtvsCalls);
  }

  method Block2Ptvs(ss: StructureSet, margin: MarginFn, faults: set<GeoCall>, ghost created: seq<Out>)
    returns (st: Status, ghost created': seq<Out>)
    requires Runnable(margin, faults, Outcome(Ok, ss.structures, created), PtvsCalls)
    modifies ss
    ensures Outcome(st, ss.structures, created') == Run(margin, faults, Outcome(Ok, old(ss.structures), created), PtvsCalls)
  {
    ghost var r, rest := Outcome(Ok, ss.structures, created), PtvsCalls;
    created' := created;
    st := Perform(ss, margin, faults, Add(Ptv, PtvHigh), r, rest);
    r, rest := Next(margin, faults, r, rest.call), rest.next;
    created' := r.created;
    if st.Threw? { return; }
    st := Perform(ss, margin, faults, Add(Ptv, PtvInt), r, rest);
    r, rest := Next(margin, faults, r, rest.call), rest.next;
    created' := r.created;
    if st.Threw? { return; }
    st := Perform(ss, margin, faults, Add(Ptv, PtvLow), r, rest);
    r, rest := Next(margin, faults, r, rest.call), rest.next;
    created' := r.created;
    if st.Threw? { return; }
    st := Perform(ss, margin, faults, Segment(PtvHigh, And(Input(PtvHighClinId), Made(Body3mm))), r, rest);
    r, rest := Next(margin, faults, r, rest.call), rest.next;
    created' := r.created;
    if st.Threw? { return; }
    st := Perform(ss, margin, faults, Segment(PtvInt, And(Input(PtvIntClinId), Made(Body3mm))), r, rest);
    r, rest := Next(margin, faults, r, rest.call), rest.next;
    created' := r.created;
    if st.Threw? { return; }
    st := Perform(ss, margin, faults, Segment(PtvLow, And(Input(PtvLowClinId), Made(Body3mm))), r, rest);
    r, rest := Next(margin, faults, r, rest.call), rest.next;
    created' := r.created;
  }

  /** Block 3: PTV_HIGH+INT and PTV_ALL, the unions of the PTVs. */
  const PtvAllBCalls: Calls :=
    Then(Add(Ptv, PtvHighInt),
    Then(Add(Ptv, PtvAll),
    Then(Segment(PtvHighInt, Or(Made(PtvHigh), Made(PtvInt))),
    Then(Segment(PtvAll, Or(Made(PtvHighInt), Made(PtvLow))), Done))))

  lemma PtvAllBFits1()
    ensures Fits({PtvHigh, PtvInt, PtvLow}, {}, {}, Fresh,
                 Then(Add(Ptv, PtvHighInt), Then(Add(Ptv, PtvAll), Done)))
    ensures AdvAll({}, Fresh, Then(Add(Ptv, PtvHighInt), Then(Add(Ptv, PtvAll), Done))) == Progress([PtvHighInt, PtvAll], {PtvAll, PtvHighInt}, {}, {})
  {
  }

  lemma PtvAllBFits2()
    ensures Fits({PtvHigh, PtvInt, PtvLow}, {}, {}, Progress([PtvHighInt, PtvAll], {PtvAll, PtvHighInt}, {}, {}),
                 Then(Segment(PtvHighInt, Or(Made(PtvHigh), Made(PtvInt))), Then(Segment(PtvAll, Or(Made(PtvHighInt), Made(PtvLow))), Done)))
    ensures AdvAll({}, Progress([PtvHighInt, PtvAll], {PtvAll, PtvHighInt}, {}, {}), Then(Segment(PtvHighInt, Or(Made(PtvHigh), Made(PtvInt))), Then(Segment(PtvAll, Or(Made(PtvHighInt), Made(PtvLow))), Done))) == Progress([PtvHighInt, PtvAll], {}, {}, {})
  {
  }

  lemma PtvAllBSplit()
    ensures PtvAllBCalls == Cat(Then(Add(Ptv, PtvHighInt), Then(Add(Ptv, PtvAll), Done)), Then(Segment(PtvHighInt, Or(Made(PtvHigh), Made(PtvInt))), Then(Segment(PtvAll, Or(Made(PtvHighInt), Made(PtvLow))), Done)))
  {
  }

  /** The calls of the block fit, and leave nothing outstanding. */
  lemma PtvAllBFits()
    ensures Fits({PtvHigh, PtvInt, PtvLow}, {}, {}, Fresh, PtvAllBCalls)
    ensures AdvAll({}, Fresh, PtvAllBCalls) == Progress([PtvHighInt, PtvAll], {}, {}, {})
  {
    PtvAllBSplit();
    PtvAllBFits1();
    PtvAllBFits2();
    FitsCat({PtvHigh, PtvInt, PtvLow}, {}, {}, Fresh, Then(Add(Ptv, PtvHighInt), Then(Add(Ptv, PtvAll), Done)), Then(Segment(PtvHighInt, Or(Made(PtvHigh), Made(PtvInt))), Then(Segment(PtvAll, Or(Made(PtvHighInt), Made(PtvLow))), Done)));
  }

  /** The block, run from the state invariant, finds its targets and keeps
      the invariant with its additions, or raises into the exception invariant. */
  lemma PtvAllBKeeps(o: map<string, Structure>, margin: MarginFn, faults: set<GeoCall>,
               m: map<string, Structure>, created: seq<Out>)
    requires InvOk(o, margin, m, created) && PtvHigh in created && PtvInt in created && PtvLow in created
    requires Apart([PtvHighInt, PtvAll], created)
    ensures Runnable(margin, faults, Outcome(Ok, m, created), PtvAllBCalls)
    ensures BlockPost(o, margin, faults, created, Run(margin, faults, Outcome(Ok, m, created), PtvAllBCalls), [PtvHighInt, PtvAll])
  {
    PtvAllBFits();
    BlockKeeps(o, margin, faults, {PtvHigh, PtvInt, PtvLow}, {}, {}, m, created, PtvAllBCalls);
  }

  method Block3PtvAll(ss: StructureSet, margin: MarginFn, faults: set<GeoCall>, ghost created: seq<Out>)
    returns (st: Status, ghost created': seq<Out>)
    requires Runnable(margin, faults, Outcome(Ok, ss.structures, created), PtvAllBCalls)
    modifies ss
    ensures Outcome(st, ss.structures, created') == Run(margin, faults, Outcome(Ok, old(ss.structures), created), PtvAllBCalls)
  {
    ghost var r, rest := Outcome(Ok, ss.structures, created), PtvAllBCalls;
    created' := created;
    st := Perform(ss, margin, faults, Add(Ptv, PtvHighInt), r, rest);
    r, rest := Next(margin, faults, r, rest.call), rest.next;
    created' := r.created;
    if st.Threw? { return; }
    st := Perform(ss, margin, faults, Add(Ptv, PtvAll), r, rest);
    r, rest := Next(margin, faults, r, rest.call), rest.next;
    created' := r.created;
    if st.Threw? { return; }
    st := Perform(ss, margin, faults, Segment(PtvHighInt, Or(Made(PtvHigh), Made(PtvInt))), r, rest);
    r, rest := Next(margin, faults, r, rest.call), rest.next;
    created' := r.created;
    if st.Threw? { return; }
    st := Perform(ss, margin, faults, Segment(PtvAll, Or(Made(PtvHighInt), Made(PtvLow))), r, rest);
    r, rest := Next(margin, faults, r, rest.call), rest.next;
    created' := r.created;
  }

  /** Block 5: PTV_INT_OPT, PTV_INT less PTV_HIGH grown by 3 mm, through the temporary PTV_HIGH+3mm. */
  const IntOptCalls: Calls :=
    Then(Add(Ptv, PtvHigh3mm),
    Then(Add(Ptv, PtvIntOpt),
    Then(Segment(PtvHigh3mm, Margin(Made(PtvHigh), 3.0)),
    Then(Segment(PtvIntOpt, Sub(Made(PtvInt), Made(PtvHigh3mm))),
    Then(Remove(PtvHigh3mm), Done)))))

  lemma IntOptFits1()
    ensures Fits({PtvHigh, PtvInt}, {}, {}, Fresh,
                 Then(Add(Ptv, PtvHigh3mm), Then(Add(Ptv, PtvIntOpt), Done)))
    ensures AdvAll({}, Fresh, Then(Add(Ptv, PtvHigh3mm), Then(Add(Ptv, PtvIntOpt), Done))) == Progress([PtvHigh3mm, PtvIntOpt], {PtvHigh3mm, PtvIntOpt}, {}, {PtvHigh3mm})
  {
  }

  lemma IntOptFits2()
    ensures Fits({PtvHigh, PtvInt}, {}, {}, Progress([PtvHigh3mm, PtvIntOpt], {PtvHigh3mm, PtvIntOpt}, {}, {PtvHigh3mm}),
                 Then(Segment(PtvHigh3mm, Margin(Made(PtvHigh), 3.0)), Then(Segment(PtvIntOpt, Sub(Made(PtvInt), Made(PtvHigh3mm))), Done)))
    ensures AdvAll({}, Progress([PtvHigh3mm, PtvIntOpt], {PtvHigh3mm, PtvIntOpt}, {}, {PtvHigh3mm}), Then(Segment(PtvHigh3mm, Margin(Made(PtvHigh), 3.0)), Then(Segment(PtvIntOpt, Sub(Made(PtvInt), Made(PtvHigh3mm))), Done))) == Progress([PtvHigh3mm, PtvIntOpt], {}, {}, {PtvHigh3mm})
  {
  }

  lemma IntOptFits3()
    ensures Fits({PtvHigh, PtvInt}, {}, {}, Progress([PtvHigh3mm, PtvIntOpt], {}, {}, {PtvHigh3mm}),
                 Then(Remove(PtvHigh3mm), Done))
    ensures AdvAll({}, Progress([PtvHigh3mm, PtvIntOpt], {}, {}, {PtvHigh3mm}), Then(Remove(PtvHigh3mm), Done)) == Progress([PtvHigh3mm, PtvIntOpt], {}, {}, {})
  {
  }

  lemma IntOptSplit()
    ensures IntOptCalls == Cat(Then(Add(Ptv, PtvHigh3mm), Then(Add(Ptv, PtvIntOpt), Done)), Cat(Then(Segment(PtvHigh3mm, Margin(Made(PtvHigh), 3.0)), Then(Segment(PtvIntOpt, Sub(Made(PtvInt), Made(PtvHigh3mm))), Done)), Then(Remove(PtvHigh3mm), Done)))
  {
  }

  /** The calls of the block fit, and leave nothing outstanding. */
  lemma IntOptFits()
    ensures Fits({PtvHigh, PtvInt}, {}, {}, Fresh, IntOptCalls)
    ensures AdvAll({}, Fresh, IntOptCalls) == Progress([PtvHigh3mm, PtvIntOpt], {}, {}, {})
  {
    IntOptSplit();
    IntOptFits1();
    IntOptFits2();
    IntOptFits3();
    FitsCat({PtvHigh, PtvInt}, {}, {}, Fresh, Then(Add(Ptv, PtvHigh3mm), Then(Add(Ptv, PtvIntOpt), Done)), Cat(Then(Segment(PtvHigh3mm, Margin(Made(PtvHigh), 3.0)), Then(Segment(PtvIntOpt, Sub(Made(PtvInt), Made(PtvHigh3mm))), Done)), Then(Remove(PtvHigh3mm), Done)));
    FitsCat({PtvHigh, PtvInt}, {}, {}, Progress([PtvHigh3mm, PtvIntOpt], {PtvHigh3mm, PtvIntOpt}, {}, {PtvHigh3mm}), Then(Segment(PtvHigh3mm, Margin(Made(PtvHigh), 3.0)), Then(Segment(PtvIntOpt, Sub(Made(PtvInt), Made(PtvHigh3mm))), Done)), Then(Remove(PtvHigh3mm), Done));
  }

  /** The block, run from the state invariant, finds its targets and keeps
      the invariant with its additions, or raises into the exception invariant. */
  lemma IntOptKeeps(o: map<string, Structure>, margin: MarginFn, faults: set<GeoCall>,
               m: map<string, Structure>, created: seq<Out>)
    requires InvOk(o, margin, m, created) && PtvHigh in created && PtvInt in created
    requires Apart([PtvHigh3mm, PtvIntOpt], created)
    ensures Runnable(margin, faults, Outcome(Ok, m, created), IntOptCalls)
    ensures BlockPost(o, margin, faults, created, Run(margin, faults, Outcome(Ok, m, created), IntOptCalls), [PtvHigh3mm, PtvIntOpt])
  {
    IntOptFits();
    BlockKeeps(o, margin, faults, {PtvHigh, PtvInt}, {}, {}, m, created, IntOptCalls);
  }

  method Block5IntOpt(ss: StructureSet, margin: MarginFn, faults: set<GeoCall>, ghost created: seq<Out>)
    returns (st: Status, ghost created': seq<Out>)
    requires Runnable(margin, faults, Outcome(Ok, ss.structures, created), IntOptCalls)
    modifies ss
    ensures Outcome(st, ss.structures, created') == Run(margin, faults, Outcome(Ok, old(ss.structures), created), IntOptCalls)
  {
    ghost var r, rest := Outcome(Ok, ss.structures, created), IntOptCalls;
    created' := created;
    st := Perform(ss, margin, faults, Add(Ptv, PtvHigh3mm), r, rest);
    r, rest := Next(margin, faults, r, rest.call), rest.next;
    created' := r.created;
    if st.Threw? { return; }
    st := Perform(ss, margin, faults, Add(Ptv, PtvIntOpt), r, rest);
    r, rest := Next(margin, faults, r, rest.call), rest.next;
    created' := r.created;
    if st.Threw? { return; }
    st := Perform(ss, margin, faults, Segment(PtvHigh3mm, Margin(Made(PtvHigh), 3.0)), r, rest);
    r, rest := Next(margin, faults, r, rest.call), rest.next;
    created' := r.created;
    if st.Threw? { return; }
    st := Perform(ss, margin, faults, Segment(PtvIntOpt, Sub(Made(PtvInt), Made(PtvHigh3mm))), r, rest);
    r, rest := Next(margin, faults, r, rest.call), rest.next;
    created' := r.created;
    if st.Threw? { return; }
    st := Perform(ss, margin, faults, Remove(PtvHigh3mm), r, rest);
    r, rest := Next(margin, faults, r, rest.call), rest.next;
    created' := r.created;
  }

  /** Block 7: PTV_LOW_OPT, PTV_LOW less PTV_HIGH+INT grown by 3 mm, through the temporary PTV_HIGH+INT+3mm. */
  const LowOptCalls: Calls :=
    Then(Add(Ptv, PtvHighInt3mm),
    Then(Add(Ptv, PtvLowOpt),
    Then(Segment(PtvHighInt3mm, Margin(Made(PtvHighInt), 3.0)),
    Then(Segment(PtvLowOpt, Sub(Made(PtvLow), Made(PtvHighInt3mm))),
    Then(Remove(PtvHighInt3mm), Done)))))

  lemma LowOptFits1()
    ensures Fits({PtvHighInt, PtvLow}, {}, {}, Fresh,
                 Then(Add(Ptv, PtvHighInt3mm), Then(Add(Ptv, PtvLowOpt), Done)))
    ensures AdvAll({}, Fresh, Then(Add(Ptv, PtvHighInt3mm), Then(Add(Ptv, PtvLowOpt), Done))) == Progress([PtvHighInt3mm, PtvLowOpt], {PtvHighInt3mm, PtvLowOpt}, {}, {PtvHighInt3mm})
  {
  }

  lemma LowOptFits2()
    ensures Fits({PtvHighInt, PtvLow}, {}, {}, Progress([PtvHighInt3mm, PtvLowOpt], {PtvHighInt3mm, PtvLowOpt}, {}, {PtvHighInt3mm}),
                 Then(Segment(PtvHighInt3mm, Margin(Made(PtvHighInt), 3.0)), Then(Segment(PtvLowOpt, Sub(Made(PtvLow), Made(PtvHighInt3mm))), Done)))
    ensures AdvAll({}, Progress([PtvHighInt3mm, PtvLowOpt], {PtvHighInt3mm, PtvLowOpt}, {}, {PtvHighInt3mm}), Then(Segment(PtvHighInt3mm, Margin(Made(PtvHighInt), 3.0)), Then(Segment(PtvLowOpt, Sub(Made(PtvLow), Made(PtvHighInt3mm))), Done))) == Progress([PtvHighInt3mm, PtvLowOpt], {}, {}, {PtvHighInt3mm})
  {
  }

  lemma LowOptFits3()
    ensures Fits({PtvHighInt, PtvLow}, {}, {}, Progress([PtvHighInt3mm, PtvLowOpt], {}, {}, {PtvHighInt3mm}),
                 Then(Remove(PtvHighInt3mm), Done))
    ensures AdvAll({}, Progress([PtvHighInt3mm, PtvLowOpt], {}, {}, {PtvHighInt3mm}), Then(Remove(PtvHighInt3mm), Done)) == Progress([PtvHighInt3mm, PtvLowOpt], {}, {}, {})
  {
  }

  lemma LowOptSplit()
    ensures LowOptCalls == Cat(Then(Add(Ptv, PtvHighInt3mm), Then(Add(Ptv, PtvLowOpt), Done)), Cat(Then(Segment(PtvHighInt3mm, Margin(Made(PtvHighInt), 3.0)), Then(Segment(PtvLowOpt, Sub(Made(PtvLow), Made(PtvHighInt3mm))), Done)), Then(Remove(PtvHighInt3mm), Done)))
  {
  }

  /** The calls of the block fit, and leave nothing outstanding. */
  lemma LowOptFits()
    ensures Fits({PtvHighInt, PtvLow}, {}, {}, Fresh, LowOptCalls)
    ensures AdvAll({}, Fresh, LowOptCalls) == Progress([PtvHighInt3mm, PtvLowOpt], {}, {}, {})
  {
    LowOptSplit();
    LowOptFits1();
    LowOptFits2();
    LowOptFits3();
    FitsCat({PtvHighInt, PtvLow}, {}, {}, Fresh, Then(Add(Ptv, PtvHighInt3mm), Then(Add(Ptv, PtvLowOpt), Done)), Cat(Then(Segment(PtvHighInt3mm, Margin(Made(PtvHighInt), 3.0)), Then(Segment(PtvLowOpt, Sub(Made(PtvLow), Made(PtvHighInt3mm))), Done)), Then(Remove(PtvHighInt3mm), Done)));
    FitsCat({PtvHighInt, PtvLow}, {}, {}, Progress([PtvHighInt3mm, PtvLowOpt], {PtvHighInt3mm, PtvLowOpt}, {}, {PtvHighInt3mm}), Then(Segment(PtvHighInt3mm, Margin(Made(PtvHighInt), 3.0)), Then(Segment(PtvLowOpt, Sub(Made(PtvLow), Made(PtvHighInt3mm))), Done)), Then(Remove(PtvHighInt3mm), Done));
  }

  /** The block, run from the state invariant, finds its targets and keeps
      the invariant with its additions, or raises into the exception invariant. */
  lemma LowOptKeeps(o: map<string, Structure>, margin: MarginFn, faults: set<GeoCall>,
               m: map<string, Structure>, created: seq<Out>)
    requires InvOk(o, margin, m, created) && PtvHighInt in created && PtvLow in created
    requires Apart([PtvHighInt3mm, PtvLowOpt], created)
    ensures Runnable(margin, faults, Outcome(Ok, m, created), LowOptCalls)
    ensures BlockPost(o, margin, faults, created, Run(margin, faults, Outcome(Ok, m, created), LowOptCalls), [PtvHighInt3mm, PtvLowOpt])
  {
    LowOptFits();
    BlockKeeps(o, margin, faults, {PtvHighInt, PtvLow}, {}, {}, m, created, LowOptCalls);
  }

  method Block7LowOpt(ss: StructureSet, margin: MarginFn, faults: set<GeoCall>, ghost created: seq<Out>)
    returns (st: Status, ghost created': seq<Out>)
    requires Runnable(margin, faults, Outcome(Ok, ss.structures, created), LowOptCalls)
    modifies ss
    ensures Outcome(st, ss.structures, created') == Run(margin, faults, Outcome(Ok, old(ss.structures), created), LowOptCalls)
  {
    ghost var r, rest := Outcome(Ok, ss.structures, created), LowOptCalls;
    created' := created;
    st := Perform(ss, margin, faults, Add(Ptv, PtvHighInt3mm), r, rest);
    r, rest := Next(margin, faults, r, rest.call), rest.next;
    created' := r.created;
    if st.Threw? { return; }
    st := Perform(ss, margin, faults, Add(Ptv, PtvLowOpt), r, rest);
    r, rest := Next(margin, faults, r, rest.call), rest.next;
    created' := r.created;
    if st.Threw? { return; }
    st := Perform(ss, margin, faults, Segment(PtvHighInt3mm, Margin(Made(PtvHighInt), 3.0)), r, rest);
    r, rest := Next(margin, faults, r, rest.call), rest.next;
    created' := r.created;
    if st.Threw? { return; }
    st := Perform(ss, margin, faults, Segment(PtvLowOpt, Sub(Made(PtvLow), Made(PtvHighInt3mm))), r, rest);
    r, rest := Next(margin, faults, r, rest.call), rest.next;
    created' := r.created;
    if st.Threw? { return; }
    st := Perform(ss, margin, faults, Remove(PtvHighInt3mm), r, rest);
    r, rest := Next(margin, faults, r, rest.call), rest.next;
    created' := r.created;
  }

  /** Block 8: the 3-10 mm ring around PTV_ALL inside Body_3mm, through three temporaries. */
  const RingCalls: Calls :=
    Then(Add(Control, PtvAll3mm),
    Then(Add(Control, PtvAll10mm),
    Then(Add(Control, Ring310Pre),
    Then(Add(Control, Ring310),
    Then(Segment(PtvAll3mm, Margin(Made(PtvAll), 3.0)),
    Then(Segment(PtvAll10mm, Margin(Made(PtvAll), 10.0)),
    Then(Segment(Ring310Pre, Sub(Made(PtvAll10mm), Made(PtvAll3mm))),
    Then(Segment(Ring310, And(Made(Ring310Pre), Made(Body3mm))),
    Then(Remove(PtvAll3mm),
    Then(Remove(PtvAll10mm),
    Then(Remove(Ring310Pre), Done)))))))))))

  lemma RingFits1()
    ensures Fits({Body3mm, PtvAll}, {}, {}, Fresh,
                 Then(Add(Control, PtvAll3mm), Then(Add(Control, PtvAll10mm), Done)))
    ensures AdvAll({}, Fresh, Then(Add(Control, PtvAll3mm), Then(Add(Control, PtvAll10mm), Done))) == Progress([PtvAll3mm, PtvAll10mm], {PtvAll10mm, PtvAll3mm}, {}, {PtvAll10mm, PtvAll3mm})
  {
  }

  lemma RingFits2()
    ensures Fits({Body3mm, PtvAll}, {}, {}, Progress([PtvAll3mm, PtvAll10mm], {PtvAll10mm, PtvAll3mm}, {}, {PtvAll10mm, PtvAll3mm}),
                 Then(Add(Control, Ring310Pre), Then(Add(Control, Ring310), Done)))
    ensures AdvAll({}, Progress([PtvAll3mm, PtvAll10mm], {PtvAll10mm, PtvAll3mm}, {}, {PtvAll10mm, PtvAll3mm}), Then(Add(Control, Ring310Pre), Then(Add(Control, Ring310), Done))) == Progress([PtvAll3mm, PtvAll10mm, Ring310Pre, Ring310], {PtvAll10mm, PtvAll3mm, Ring310, Ring310Pre}, {}, {PtvAll10mm, PtvAll3mm, Ring310Pre})
  {
  }

  lemma RingFits3()
    ensures Fits({Body3mm, PtvAll}, {}, {}, Progress([PtvAll3mm, PtvAll10mm, Ring310Pre, Ring310], {PtvAll10mm, PtvAll3mm, Ring310, Ring310Pre}, {}, {PtvAll10mm, PtvAll3mm, Ring310Pre}),
                 Then(Segment(PtvAll3mm, Margin(Made(PtvAll), 3.0)), Then(Segment(PtvAll10mm, Margin(Made(PtvAll), 10.0)), Done)))
    ensures AdvAll({}, Progress([PtvAll3mm, PtvAll10mm, Ring310Pre, Ring310], {PtvAll10mm, PtvAll3mm, Ring310, Ring310Pre}, {}, {PtvAll10mm, PtvAll3mm, Ring310Pre}), Then(Segment(PtvAll3mm, Margin(Made(PtvAll), 3.0)), Then(Segment(PtvAll10mm, Margin(Made(PtvAll), 10.0)), Done))) == Progress([PtvAll3mm, PtvAll10mm, Ring310Pre, Ring310], {Ring310, Ring310Pre}, {}, {PtvAll10mm, PtvAll3mm, Ring310Pre})
  {
  }

  lemma RingFits4()
    ensures Fits({Body3mm, PtvAll}, {}, {}, Progress([PtvAll3mm, PtvAll10mm, Ring310Pre, Ring310], {Ring310, Ring310Pre}, {}, {PtvAll10mm, PtvAll3mm, Ring310Pre}),
                 Then(Segment(Ring310Pre, Sub(Made(PtvAll10mm), Made(PtvAll3mm))), Then(Segment(Ring310, And(Made(Ring310Pre), Made(Body3mm))), Done)))
    ensures AdvAll({}, Progress([PtvAll3mm, PtvAll10mm, Ring310Pre, Ring310], {Ring310, Ring310Pre}, {}, {PtvAll10mm, PtvAll3mm, Ring310Pre}), Then(Segment(Ring310Pre, Sub(Made(PtvAll10mm), Made(PtvAll3mm))), Then(Segment(Ring310, And(Made(Ring310Pre), Made(Body3mm))), Done))) == Progress([PtvAll3mm, PtvAll10mm, Ring310Pre, Ring310], {}, {}, {PtvAll10mm, PtvAll3mm, Ring310Pre})
  {
  }

  lemma RingFits5()
    ensures Fits({Body3mm, PtvAll}, {}, {}, Progress([PtvAll3mm, PtvAll10mm, Ring310Pre, Ring310], {}, {}, {PtvAll10mm, PtvAll3mm, Ring310Pre}),
                 Then(Remove(PtvAll3mm), Then(Remove(PtvAll10mm), Done)))
    ensures AdvAll({}, Progress([PtvAll3mm, PtvAll10mm, Ring310Pre, Ring310], {}, {}, {PtvAll10mm, PtvAll3mm, Ring310Pre}), Then(Remove(PtvAll3mm), Then(Remove(PtvAll10mm), Done))) == Progress([PtvAll3mm, PtvAll10mm, Ring310Pre, Ring310], {}, {}, {Ring310Pre})
  {
  }

  lemma RingFits6()
    ensures Fits({Body3mm, PtvAll}, {}, {}, Progress([PtvAll3mm, PtvAll10mm, Ring310Pre, Ring310], {}, {}, {Ring310Pre}),
                 Then(Remove(Ring310Pre), Done))
    ensures AdvAll({}, Progress([PtvAll3mm, PtvAll10mm, Ring310Pre, Ring310], {}, {}, {Ring310Pre}), Then(Remove(Ring310Pre), Done)) == Progress([PtvAll3mm, PtvAll10mm, Ring310Pre, Ring310], {}, {}, {})
  {
  }

  lemma RingSplit()
    ensures RingCalls == Cat(Then(Add(Control, PtvAll3mm), Then(Add(Control, PtvAll10mm), Done)), Cat(Then(Add(Control, Ring310Pre), Then(Add(Control, Ring310), Done)), Cat(Then(Segment(PtvAll3mm, Margin(Made(PtvAll), 3.0)), Then(Segment(PtvAll10mm, Margin(Made(PtvAll), 10.0)), Done)), Cat(Then(Segment(Ring310Pre, Sub(Made(PtvAll10mm), Made(PtvAll3mm))), Then(Segment(Ring310, And(Made(Ring310Pre), Made(Body3mm))), Done)), Cat(Then(Remove(PtvAll3mm), Then(Remove(PtvAll10mm), Done)), Then(Remove(Ring310Pre), Done))))))
  {
  }

  /** The calls of the block fit, and leave nothing outstanding. */
  lemma RingFits()
    ensures Fits({Body3mm, PtvAll}, {}, {}, Fresh, RingCalls)
    ensures AdvAll({}, Fresh, RingCalls) == Progress([PtvAll3mm, PtvAll10mm, Ring310Pre, Ring310], {}, {}, {})
  {
    RingSplit();
    RingFits1();
    RingFits2();
    RingFits3();
    RingFits4();
    RingFits5();
    RingFits6();
    FitsCat({Body3mm, PtvAll}, {}, {}, Fresh, Then(Add(Control, PtvAll3mm), Then(Add(Control, PtvAll10mm), Done)), Cat(Then(Add(Control, Ring310Pre), Then(Add(Control, Ring310), Done)), Cat(Then(Segment(PtvAll3mm, Margin(Made(PtvAll), 3.0)), Then(Segment(PtvAll10mm, Margin(Made(PtvAll), 10.0)), Done)), Cat(Then(Segment(Ring310Pre, Sub(Made(PtvAll10mm), Made(PtvAll3mm))), Then(Segment(Ring310, And(Made(Ring310Pre), Made(Body3mm))), Done)), Cat(Then(Remove(PtvAll3mm), Then(Remove(PtvAll10mm), Done)), Then(Remove(Ring310Pre), Done))))));
    FitsCat({Body3mm, PtvAll}, {}, {}, Progress([PtvAll3mm, PtvAll10mm], {PtvAll10mm, PtvAll3mm}, {}, {PtvAll10mm, PtvAll3mm}), Then(Add(Control, Ring310Pre), Then(Add(Control, Ring310), Done)), Cat(Then(Segment(PtvAll3mm, Margin(Made(PtvAll), 3.0)), Then(Segment(PtvAll10mm, Margin(Made(PtvAll), 10.0)), Done)), Cat(Then(Segment(Ring310Pre, Sub(Made(PtvAll10mm), Made(PtvAll3mm))), Then(Segment(Ring310, And(Made(Ring310Pre), Made(Body3mm))), Done)), Cat(Then(Remove(PtvAll3mm), Then(Remove(PtvAll10mm), Done)), Then(Remove(Ring310Pre), Done)))));
    FitsCat({Body3mm, PtvAll}, {}, {}, Progress([PtvAll3mm, PtvAll10mm, Ring310Pre, Ring310], {PtvAll10mm, PtvAll3mm, Ring310, Ring310Pre}, {}, {PtvAll10mm, PtvAll3mm, Ring310Pre}), Then(Segment(PtvAll3mm, Margin(Made(PtvAll), 3.0)), Then(Segment(PtvAll10mm, Margin(Made(PtvAll), 10.0)), Done)), Cat(Then(Segment(Ring310Pre, Sub(Made(PtvAll10mm), Made(PtvAll3mm))), Then(Segment(Ring310, And(Made(Ring310Pre), Made(Body3mm))), Done)), Cat(Then(Remove(PtvAll3mm), Then(Remove(PtvAll10mm), Done)), Then(Remove(Ring310Pre), Done))));
    FitsCat({Body3mm, PtvAll}, {}, {}, Progress([PtvAll3mm, PtvAll10mm, Ring310Pre, Ring310], {Ring310, Ring310Pre}, {}, {PtvAll10mm, PtvAll3mm, Ring310Pre}), Then(Segment(Ring310Pre, Sub(Made(PtvAll10mm), Made(PtvAll3mm))), Then(Segment(Ring310, And(Made(Ring310Pre), Made(Body3mm))), Done)), Cat(Then(Remove(PtvAll3mm), Then(Remove(PtvAll10mm), Done)), Then(Remove(Ring310Pre), Done)));
    FitsCat({Body3mm, PtvAll}, {}, {}, Progress([PtvAll3mm, PtvAll10mm, Ring310Pre, Ring310], {}, {}, {PtvAll10mm, PtvAll3mm, Ring310Pre}), Then(Remove(PtvAll3mm), Then(Remove(PtvAll10mm), Done)), Then(Remove(Ring310Pre), Done));
  }

  /** The block, run from the state invariant, finds its targets and keeps
      the invariant with its additions, or raises into the exception invariant. */
  lemma RingKeeps(o: map<string, Structure>, margin: MarginFn, faults: set<GeoCall>,
               m: map<string, Structure>, created: seq<Out>)
    requires InvOk(o, margin, m, created) && Body3mm in created && PtvAll in created
    requires Apart([PtvAll3mm, PtvAll10mm, Ring310Pre, Ring310], created)
    ensures Runnable(margin, faults, Outcome(Ok, m, created), RingCalls)
    ensures BlockPost(o, margin, faults, created, Run(margin, faults, Outcome(Ok, m, created), RingCalls), [PtvAll3mm, PtvAll10mm, Ring310Pre, Ring310])
  {
    RingFits();
    BlockKeeps(o, margin, faults, {Body3mm, PtvAll}, {}, {}, m, created, RingCalls);
  }

  method Block8Ring(ss: StructureSet, margin: MarginFn, faults: set<GeoCall>, ghost created: seq<Out>)
    returns (st: Status, ghost created': seq<Out>)
    requires Runnable(margin, faults, Outcome(Ok, ss.structures, created), RingCalls)
    modifies ss
    ensures Outcome(st, ss.structures, created') == Run(margin, faults, Outcome(Ok, old(ss.structures), created), RingCalls)
  {
    ghost var r, rest := Outcome(Ok, ss.structures, created), RingCalls;
    created' := created;
    st := Perform(ss, margin, faults, Add(Control, PtvAll3mm), r, rest);
    r, rest := Next(margin, faults, r, rest.call), rest.next;
    created' := r.created;
    if st.Threw? { return; }
    st := Perform(ss, margin, faults, Add(Control, PtvAll10mm), r, rest);
    r, rest := Next(margin, faults, r, rest.call), rest.next;
    created' := r.created;
    if st.Threw? { return; }
    st := Perform(ss, margin, faults, Add(Control, Ring310Pre), r, rest);
    r, rest := Next(margin, faults, r, rest.call), rest.next;
    created' := r.created;
    if st.Threw? { return; }
    st := Perform(ss, margin, faults, Add(Control, Ring310), r, rest);
    r, rest := Next(margin, faults, r, rest.call), rest.next;
    created' := r.created;
    if st.Threw? { return; }
    st := Perform(ss, margin, faults, Segment(PtvAll3mm, Margin(Made(PtvAll), 3.0)), r, rest);
    r, rest := Next(margin, faults, r, rest.call), rest.next;
    created' := r.created;
    if st.Threw? { return; }
    st := Perform(ss, margin, faults, Segment(PtvAll10mm, Margin(Made(PtvAll), 10.0)), r, rest);
    r, rest := Next(margin, faults, r, rest.call), rest.next;
    created' := r.created;
    if st.Threw? { return; }
    st := Perform(ss, margin, faults, Segment(Ring310Pre, Sub(Made(PtvAll10mm), Made(PtvAll3mm))), r, rest);
    r, rest := Next(margin, faults, r, rest.call), rest.next;
    created' := r.created;
    if st.Threw? { return; }
    st := Perform(ss, margin, faults, Segment(Ring310, And(Made(Ring310Pre), Made(Body3mm))), r, rest);
    r, rest := Next(margin, faults, r, rest.call), rest.next;
    created' := r.created;
    if st.Threw? { return; }
    st := Perform(ss, margin, faults, Remove(PtvAll3mm), r, rest);
    r, rest := Next(margin, faults, r, rest.call), rest.next;
    created' := r.created;
    if st.Threw? { return; }
    st := Perform(ss, margin, faults, Remove(PtvAll10mm), r, rest);
    r, rest := Next(margin, faults, r, rest.call), rest.next;
    created' := r.created;
    if st.Threw? { return; }
    st := Perform(ss, margin, faults, Remove(Ring310Pre), r, rest);
    r, rest := Next(margin, faults, r, rest.call), rest.next;
    created' := r.created;
  }

  /** Block 102 for a high-resolution Pharynx: the pharynx structure is converted, and PTV_ALL is subtracted through a high-resolution copy. */
  const PharynxHighResCalls: Calls :=
    Then(Add(Avoidance, PharynxOar),
    Then(ToHighRes(PharynxOar),
    Then(Add(Control, PtvAllHighRes),
    Then(Segment(PtvAllHighRes, Copy(Made(PtvAll))),
    Then(ToHighRes(PtvAllHighRes),
    Then(Segment(PharynxOar, Sub(Input(PharynxId), Made(PtvAllHighRes))),
    Then(Remove(PtvAllHighRes), Done)))))))

  lemma PharynxHighResFits1()
    ensures Fits({PtvAll}, {PharynxId}, {PharynxOar, PtvAllHighRes}, Fresh,
                 Then(Add(Avoidance, PharynxOar), Then(ToHighRes(PharynxOar), Done)))
    ensures AdvAll({PharynxOar, PtvAllHighRes}, Fresh, Then(Add(Avoidance, PharynxOar), Then(ToHighRes(PharynxOar), Done))) == Progress([PharynxOar], {PharynxOar}, {}, {})
  {
  }

  lemma PharynxHighResFits2()
    ensures Fits({PtvAll}, {PharynxId}, {PharynxOar, PtvAllHighRes}, Progress([PharynxOar], {PharynxOar}, {}, {}),
                 Then(Add(Control, PtvAllHighRes), Then(Segment(PtvAllHighRes, Copy(Made(PtvAll))), Done)))
    ensures AdvAll({PharynxOar, PtvAllHighRes}, Progress([PharynxOar], {PharynxOar}, {}, {}), Then(Add(Control, PtvAllHighRes), Then(Segment(PtvAllHighRes, Copy(Made(PtvAll))), Done))) == Progress([PharynxOar, PtvAllHighRes], {PharynxOar}, {PtvAllHighRes}, {PtvAllHighRes})
  {
  }

  lemma PharynxHighResFits3()
    ensures Fits({PtvAll}, {PharynxId}, {PharynxOar, PtvAllHighRes}, Progress([PharynxOar, PtvAllHighRes], {PharynxOar}, {PtvAllHighRes}, {PtvAllHighRes}),
                 Then(ToHighRes(PtvAllHighRes), Then(Segment(PharynxOar, Sub(Input(PharynxId), Made(PtvAllHighRes))), Done)))
    ensures AdvAll({PharynxOar, PtvAllHighRes}, Progress([PharynxOar, PtvAllHighRes], {PharynxOar}, {PtvAllHighRes}, {PtvAllHighRes}), Then(ToHighRes(PtvAllHighRes), Then(Segment(PharynxOar, Sub(Input(PharynxId), Made(PtvAllHighRes))), Done))) == Progress([PharynxOar, PtvAllHighRes], {}, {}, {PtvAllHighRes})
  {
  }

  lemma PharynxHighResFits4()
    ensures Fits({PtvAll}, {PharynxId}, {PharynxOar, PtvAllHighRes}, Progress([PharynxOar, PtvAllHighRes], {}, {}, {PtvAllHighRes}),
                 Then(Remove(PtvAllHighRes), Done))
    ensures AdvAll({PharynxOar, PtvAllHighRes}, Progress([PharynxOar, PtvAllHighRes], {}, {}, {PtvAllHighRes}), Then(Remove(PtvAllHighRes), Done)) == Progress([PharynxOar, PtvAllHighRes], {}, {}, {})
  {
  }

  lemma PharynxHighResSplit()
    ensures PharynxHighResCalls == Cat(Then(Add(Avoidance, PharynxOar), Then(ToHighRes(PharynxOar), Done)), Cat(Then(Add(Control, PtvAllHighRes), Then(Segment(PtvAllHighRes, Copy(Made(PtvAll))), Done)), Cat(Then(ToHighRes(PtvAllHighRes), Then(Segment(PharynxOar, Sub(Input(PharynxId), Made(PtvAllHighRes))), Done)), Then(Remove(PtvAllHighRes), Done))))
  {
  }

  /** The calls of the block fit, and leave nothing outstanding. */
  lemma PharynxHighResFits()
    ensures Fits({PtvAll}, {PharynxId}, {PharynxOar, PtvAllHighRes}, Fresh, PharynxHighResCalls)
    ensures AdvAll({PharynxOar, PtvAllHighRes}, Fresh, PharynxHighResCalls) == Progress([PharynxOar, PtvAllHighRes], {}, {}, {})
  {
    PharynxHighResSplit();
    PharynxHighResFits1();
    PharynxHighResFits2();
    PharynxHighResFits3();
    PharynxHighResFits4();
    FitsCat({PtvAll}, {PharynxId}, {PharynxOar, PtvAllHighRes}, Fresh, Then(Add(Avoidance, PharynxOar), Then(ToHighRes(PharynxOar), Done)), Cat(Then(Add(Control, PtvAllHighRes), Then(Segment(PtvAllHighRes, Copy(Made(PtvAll))), Done)), Cat(Then(ToHighRes(PtvAllHighRes), Then(Segment(PharynxOar, Sub(Input(PharynxId), Made(PtvAllHighRes))), Done)), Then(Remove(PtvAllHighRes), Done))));
    FitsCat({PtvAll}, {PharynxId}, {PharynxOar, PtvAllHighRes}, Progress([PharynxOar], {PharynxOar}, {}, {}), Then(Add(Control, PtvAllHighRes), Then(Segment(PtvAllHighRes, Copy(Made(PtvAll))), Done)), Cat(Then(ToHighRes(PtvAllHighRes), Then(Segment(PharynxOar, Sub(Input(PharynxId), Made(PtvAllHighRes))), Done)), Then(Remove(PtvAllHighRes), Done)));
    FitsCat({PtvAll}, {PharynxId}, {PharynxOar, PtvAllHighRes}, Progress([PharynxOar, PtvAllHighRes], {PharynxOar}, {PtvAllHighRes}, {PtvAllHighRes}), Then(ToHighRes(PtvAllHighRes), Then(Segment(PharynxOar, Sub(Input(PharynxId), Made(PtvAllHighRes))), Done)), Then(Remove(PtvAllHighRes), Done));
  }

  /** The block, run from the state invariant, finds its targets and keeps
      the invariant with its additions, or raises into the exception invariant. */
  lemma PharynxHighResKeeps(o: map<string, Structure>, margin: MarginFn, faults: set<GeoCall>,
               m: map<string, Structure>, created: seq<Out>)
    requires InvOk(o, margin, m, created) && PtvAll in created && PharynxId in o && PharynxHighRes(o)
    requires Apart([PharynxOar, PtvAllHighRes], created)
    ensures Runnable(margin, faults, Outcome(Ok, m, created), PharynxHighResCalls)
    ensures BlockPost(o, margin, faults, created, Run(margin, faults, Outcome(Ok, m, created), PharynxHighResCalls), [PharynxOar, PtvAllHighRes])
  {
    PharynxHighResFits();
    BlockKeeps(o, margin, faults, {PtvAll}, {PharynxId}, {PharynxOar, PtvAllHighRes}, m, created, PharynxHighResCalls);
  }

  method Block102HighRes(ss: StructureSet, margin: MarginFn, faults: set<GeoCall>, ghost created: seq<Out>)
    returns (st: Status, ghost created': seq<Out>)
    requires Runnable(margin, faults, Outcome(Ok, ss.structures, created), PharynxHighResCalls)
    modifies ss
    ensures Outcome(st, ss.structures, created') == Run(margin, faults, Outcome(Ok, old(ss.structures), created), PharynxHighResCalls)
  {
    ghost var r, rest := Outcome(Ok, ss.structures, created), PharynxHighResCalls;
    created' := created;
    st := Perform(ss, margin, faults, Add(Avoidance, PharynxOar), r, rest);
    r, rest := Next(margin, faults, r, rest.call), rest.next;
    created' := r.created;
    if st.Threw? { return; }
    st := Perform(ss, margin, faults, ToHighRes(PharynxOar), r, rest);
    r, rest := Next(margin, faults, r, rest.call), rest.next;
    created' := r.created;
    if st.Threw? { return; }
    st := Perform(ss, margin, faults, Add(Control, PtvAllHighRes), r, rest);
    r, rest := Next(margin, faults, r, rest.call), rest.next;
    created' := r.created;
    if st.Threw? { return; }
    st := Perform(ss, margin, faults, Segment(PtvAllHighRes, Copy(Made(PtvAll))), r, rest);
    r, rest := Next(margin, faults, r, rest.call), rest.next;
    created' := r.created;
    if st.Threw? { return; }
    st := Perform(ss, margin, faults, ToHighRes(PtvAllHighRes), r, rest);
    r, rest := Next(margin, faults, r, rest.call), rest.next;
    created' := r.created;
    if st.Threw? { return; }
    st := Perform(ss, margin, faults, Segment(PharynxOar, Sub(Input(PharynxId), Made(PtvAllHighRes))), r, rest);
    r, rest := Next(margin, faults, r, rest.call), rest.next;
    created' := r.created;
    if st.Threw? { return; }
    st := Perform(ss, margin, faults, Remove(PtvAllHighRes), r, rest);
    r, rest := Next(margin, faults, r, rest.call), rest.next;
    created' := r.created;
  }
}
