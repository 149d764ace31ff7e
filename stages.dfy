/**
 * What holds while a block runs. Inside a block the structure set is
 * described by a `Stage`: the derived structures added before the block
 * (`base`), those the block added so far, which of these still lack their
 * segment or their high-resolution conversion, and which block temporaries
 * are still present. Every call of a block keeps a stage, and a run of calls
 * that fits its stage keeps one to the end or stops in the exception
 * invariant.
 */
module Stages {
  import opened Ids
  import opened Store
  import opened Derivation
  import opened Steps

  /** How far a block has got. */
  datatype Progress = Progress(
    adds: seq<Out>,      // the derived structures the block added so far, in order
    unseg: set<Out>,     // added, segment not yet assigned
    unconv: set<Out>,    // added, high-resolution conversion not yet done
    live: set<Out>)      // block temporaries added and not yet removed

  const Fresh := Progress([], {}, {}, {})

  /** An added structure that is currently in the structure set: every
      structure that is not a block temporary, and the live temporaries. */
  predicate Present(d: Out, live: set<Out>) {
    !IsBranchTemp(d) || d in live
  }

  /** The structure `s` under the id of `d` has the category of `d`, its
      region unless the segment is still to come (then it is empty), and its
      resolution unless the conversion is still to come (then it is the
      default one). */
  predicate Holds(o: map<string, Structure>, margin: MarginFn, d: Out, s: Structure, unseg: bool, unconv: bool) {
    && s.category == Derived(o, margin, d).category
    && (s.region == Derived(o, margin, d).region || (unseg && s.region == {}))
    && (s.highRes == Derived(o, margin, d).highRes || (unconv && !s.highRes))
  }

  /** Every id in `m` is an original or that of a present added structure. */
  ghost predicate OnlyAdded(o: map<string, Structure>, m: map<string, Structure>, created: seq<Out>, live: set<Out>) {
    forall k {:trigger IdOf(k)} :: k in m ==> k in o || (IdOf(k).Some? && IdOf(k).value in created && Present(IdOf(k).value, live))
  }

  /** An added structure that is currently present. */
  predicate Tracked(created: seq<Out>, p: Progress, d: Out) {
    Added(created, d) && Present(d, p.live)
  }

  /** Each present added structure is in `m` and holds what it should. */
  ghost predicate Values(o: map<string, Structure>, margin: MarginFn, m: map<string, Structure>,
                         created: seq<Out>, p: Progress) {
    forall d {:trigger Tracked(created, p, d)} :: Tracked(created, p, d) ==>
      Name(d) in m && Holds(o, margin, d, m[Name(d)], d in p.unseg, d in p.unconv)
  }

  /** The state inside a block: the originals are untouched, the new ids are
      exactly those of the present added structures, and each of these is
      as far as `p` says. */
  ghost predicate Stage(o: map<string, Structure>, margin: MarginFn, m: map<string, Structure>,
                        base: seq<Out>, p: Progress) {
    && Untouched(o, m)
    && FreshIds(o, base + p.adds)
    && OnlyAdded(o, m, base + p.adds, p.live)
    && Values(o, margin, m, base + p.adds, p)
  }

  /** A stage with nothing outstanding. */
  predicate Settled(p: Progress) {
    p.unseg == {} && p.unconv == {} && p.live == {}
  }

  /** The state between blocks is a stage with nothing added yet. */
  lemma StageOfInvOk(o: map<string, Structure>, margin: MarginFn, m: map<string, Structure>, created: seq<Out>)
    requires InvOk(o, margin, m, created)
    ensures Stage(o, margin, m, created, Fresh)
  {
    assert created + [] == created;
    assert forall d :: Present(d, {}) <==> !IsBranchTemp(d);
    forall d | Tracked(created, Fresh, d)
      ensures Name(d) in m && Holds(o, margin, d, m[Name(d)], false, false)
    {
    }
  }

  /** A settled stage is the state between blocks. */
  lemma InvOkOfStage(o: map<string, Structure>, margin: MarginFn, m: map<string, Structure>, base: seq<Out>, p: Progress)
    requires Stage(o, margin, m, base, p) && Settled(p)
    ensures InvOk(o, margin, m, base + p.adds)
  {
    var created := base + p.adds;
    assert forall d :: Present(d, {}) <==> !IsBranchTemp(d);
    forall d | Added(created, d) && !IsBranchTemp(d)
      ensures Name(d) in m && m[Name(d)] == Derived(o, margin, d)
    {
      assert Tracked(created, p, d);
    }
  }

  /** A stage satisfies the exception invariant. */
  lemma InvFailOfStage(o: map<string, Structure>, margin: MarginFn, m: map<string, Structure>, base: seq<Out>, p: Progress)
    requires Stage(o, margin, m, base, p)
    ensures InvFail(o, margin, m, base + p.adds)
  {
    var created := base + p.adds;
    forall d | Added(created, d) && Name(d) in m
      ensures Partial(o, margin, d, m[Name(d)])
    {
      IdOfName(d);
      assert Tracked(created, p, d);
    }
    forall d | Added(created, d) && !IsBranchTemp(d)
      ensures Name(d) in m
    {
      assert Tracked(created, p, d);
    }
  }

  /** The progress after the call `c`; `conv` holds the structures the block
      converts to high resolution. */
  function Adv(conv: set<Out>, p: Progress, c: Call): Progress {
    var d := c.d;
    match c
    case Add(_, _) =>
      Progress(p.adds + [d], p.unseg + {d},
               if d in conv then p.unconv + {d} else p.unconv,
               if IsBranchTemp(d) then p.live + {d} else p.live)
    case Segment(_, _) => p.(unseg := p.unseg - {d})
    case ToHighRes(_) => p.(unconv := p.unconv - {d})
    case Remove(_) => Progress(p.adds, p.unseg - {d}, p.unconv - {d}, p.live - {d})
  }

  /** The progress after all of `calls`. */
  function AdvAll(conv: set<Out>, p: Progress, calls: Calls): Progress
    decreases calls
  {
    match calls
    case Done => p
    case Then(c, rest) => AdvAll(conv, Adv(conv, p, c), rest)
  }

  /** The operation the script assigns to the segment of `d`. The pharynx
      structure subtracts PTV_ALL, or its high-resolution copy when the
      Pharynx input is high resolution. */
  predicate Recipe(d: Out, op: Op) {
    match d
    case Body3mm => op == Margin(Input(BodyId), -3.0)
    case PtvHigh => op == And(Input(PtvHighClinId), Made(Body3mm))
    case PtvInt => op == And(Input(PtvIntClinId), Made(Body3mm))
    case PtvLow => op == And(Input(PtvLowClinId), Made(Body3mm))
    case PtvHighInt => op == Or(Made(PtvHigh), Made(PtvInt))
    case PtvAll => op == Or(Made(PtvHighInt), Made(PtvLow))
    case PtvIntDvh => op == Sub(Made(PtvInt), Made(PtvHigh))
    case PtvHigh3mm => op == Margin(Made(PtvHigh), 3.0)
    case PtvIntOpt => op == Sub(Made(PtvInt), Made(PtvHigh3mm))
    case PtvLowDvh => op == Sub(Made(PtvLow), Made(PtvHighInt))
    case PtvHighInt3mm => op == Margin(Made(PtvHighInt), 3.0)
    case PtvLowOpt => op == Sub(Made(PtvLow), Made(PtvHighInt3mm))
    case PtvAll3mm => op == Margin(Made(PtvAll), 3.0)
    case PtvAll10mm => op == Margin(Made(PtvAll), 10.0)
    case Ring310Pre => op == Sub(Made(PtvAll10mm), Made(PtvAll3mm))
    case Ring310 => op == And(Made(Ring310Pre), Made(Body3mm))
    case ParotidLOar => op == Sub(Input(ParotidLId), Made(PtvAll))
    case ParotidROar => op == Sub(Input(ParotidRId), Made(PtvAll))
    case PharynxOar => op == Sub(Input(PharynxId), Made(PtvAll)) || op == Sub(Input(PharynxId), Made(PtvAllHighRes))
    case PtvAllHighRes => op == Copy(Made(PtvAll))
    case Brainstem3Prv => op == Margin(Input(BrainstemId), 3.0)
    case Cord5Prv => op == Margin(Input(CordId), 5.0)
  }

  /** The region of an operand in the reference definition. */
  function SrcRegion(o: map<string, Structure>, margin: MarginFn, s: Src): Region {
    match s
    case Input(id) => RegionOf(o, id)
    case Made(d) => DerivedRegion(o, margin, d)
  }

  /** The region `op` computes from the reference regions of its operands. */
  function RecipeResult(o: map<string, Structure>, margin: MarginFn, op: Op): Region {
    Combine(margin, op, SrcRegion(o, margin, op.a), if Binary(op) then SrcRegion(o, margin, op.b) else {})
  }

  /** The operation the script assigns to `d`, applied to the reference
      regions of its operands, gives the reference region of `d`. */
  lemma RecipeRegion(o: map<string, Structure>, margin: MarginFn, d: Out, op: Op)
    requires Recipe(d, op)
    ensures RecipeResult(o, margin, op) == DerivedRegion(o, margin, d)
  {
    match d
    case Body3mm | PtvHigh | PtvInt | PtvLow | PtvHighInt | PtvAll => RecipeRegionPtv(o, margin, d, op);
    case PtvIntDvh | PtvHigh3mm | PtvIntOpt | PtvLowDvh | PtvHighInt3mm | PtvLowOpt => RecipeRegionOpt(o, margin, d, op);
    case PtvAll3mm | PtvAll10mm | Ring310Pre | Ring310 => RecipeRegionRing(o, margin, d, op);
    case _ => RecipeRegionOar(o, margin, d, op);
  }

  lemma RecipeRegionPtv(o: map<string, Structure>, margin: MarginFn, d: Out, op: Op)
    requires d.Body3mm? || d.PtvHigh? || d.PtvInt? || d.PtvLow? || d.PtvHighInt? || d.PtvAll?
    requires Recipe(d, op)
    ensures RecipeResult(o, margin, op) == DerivedRegion(o, margin, d)
  {
  }

  lemma RecipeRegionOpt(o: map<string, Structure>, margin: MarginFn, d: Out, op: Op)
    requires d.PtvIntDvh? || d.PtvHigh3mm? || d.PtvIntOpt? || d.PtvLowDvh? || d.PtvHighInt3mm? || d.PtvLowOpt?
    requires Recipe(d, op)
    ensures RecipeResult(o, margin, op) == DerivedRegion(o, margin, d)
  {
  }

  lemma RecipeRegionRing(o: map<string, Structure>, margin: MarginFn, d: Out, op: Op)
    requires d.PtvAll3mm? || d.PtvAll10mm? || d.Ring310Pre? || d.Ring310?
    requires Recipe(d, op)
    ensures RecipeResult(o, margin, op) == DerivedRegion(o, margin, d)
  {
  }

  lemma RecipeRegionOar(o: map<string, Structure>, margin: MarginFn, d: Out, op: Op)
    requires d.ParotidLOar? || d.ParotidROar? || d.PharynxOar? || d.PtvAllHighRes? || d.Brainstem3Prv? || d.Cord5Prv?
    requires Recipe(d, op)
    ensures RecipeResult(o, margin, op) == DerivedRegion(o, margin, d)
  {
  }

  /** An operand that may be read: an original among `inputs`, a complete
      structure that was added before the block (one of `ready`), or a
      structure the block added that is present and has nothing outstanding. */
  predicate Avail(ready: set<Out>, inputs: set<string>, p: Progress, s: Src) {
    match s
    case Input(id) => id in inputs
    case Made(e) =>
      ((e in ready && !IsBranchTemp(e)) || (e in p.adds && Present(e, p.live))) && e !in p.unseg && e !in p.unconv
  }

  /** What the call `c` needs of the progress before it: an addition has the
      category of its target, adds it at most once, and is to be converted
      exactly when its target is a high-resolution copy; a segment assignment applies the target's
      operation to available operands; a conversion and a removal find their
      target. */
  predicate Pre(ready: set<Out>, inputs: set<string>, conv: set<Out>, p: Progress, c: Call) {
    var d := c.d;
    match c
    case Add(category, _) => category == CategoryOf(d) && d !in p.adds && (d.PharynxOar? || (d in conv) == d.PtvAllHighRes?)
    case Segment(_, op) =>
      d in p.adds && Present(d, p.live) && Recipe(d, op)
      && Avail(ready, inputs, p, op.a) && (Binary(op) ==> Avail(ready, inputs, p, op.b))
    case ToHighRes(_) => d in p.adds && Present(d, p.live) && d in conv && (d.PtvAllHighRes? || d.PharynxOar?)
    case Remove(_) => IsBranchTemp(d) && d in p.adds && d in p.live
  }

  /** Every call of `calls` finds the progress it needs. */
  predicate Fits(ready: set<Out>, inputs: set<string>, conv: set<Out>, p: Progress, calls: Calls)
    decreases calls
  {
    match calls
    case Done => true
    case Then(c, rest) => Pre(ready, inputs, conv, p, c) && Fits(ready, inputs, conv, Adv(conv, p, c), rest)
  }

  /** No block temporary the block added has been removed yet. */
  predicate Intact(p: Progress) {
    forall d :: d in p.adds && IsBranchTemp(d) ==> d in p.live
  }

  /** Every call of `calls` is a removal. */
  predicate OnlyRemoves(calls: Calls)
    decreases calls
  {
    calls.Done? || (calls.call.Remove? && OnlyRemoves(calls.next))
  }

  /** The removals of `calls` come after all its other calls. */
  predicate RemovesLast(calls: Calls)
    decreases calls
  {
    calls.Done? || (if calls.call.Remove? then OnlyRemoves(calls.next) else RemovesLast(calls.next))
  }

  /** While nothing has been removed, everything the block added is present. */
  lemma IntactPresent(o: map<string, Structure>, margin: MarginFn, m: map<string, Structure>, base: seq<Out>, p: Progress)
    requires Stage(o, margin, m, base, p) && Intact(p)
    ensures forall d | d in p.adds :: Name(d) in m
  {
    forall d | d in p.adds
      ensures Name(d) in m
    {
      assert Tracked(base + p.adds, p, d);
    }
  }

  /** The pharynx structure, when the block adds it, is converted exactly
      when the Pharynx input is high resolution. */
  predicate ConvAgrees(o: map<string, Structure>, conv: set<Out>, adds: seq<Out>) {
    PharynxOar in adds ==> (PharynxOar in conv <==> PharynxHighRes(o))
  }

  /** A present structure with nothing outstanding holds its derived structure. */
  lemma Known(o: map<string, Structure>, margin: MarginFn, m: map<string, Structure>, created: seq<Out>,
              p: Progress, d: Out)
    requires Values(o, margin, m, created, p)
    requires Tracked(created, p, d) && d !in p.unseg && d !in p.unconv
    ensures Name(d) in m && m[Name(d)] == Derived(o, margin, d)
  {
  }

  /** An available operand holds its reference region. */
  lemma ReadSrc(o: map<string, Structure>, margin: MarginFn, m: map<string, Structure>,
                base: seq<Out>, ready: set<Out>, inputs: set<string>, p: Progress, s: Src)
    requires Stage(o, margin, m, base, p)
    requires (forall e | e in ready :: e in base) && inputs <= o.Keys
    requires Avail(ready, inputs, p, s)
    ensures RegionOf(m, SrcId(s)) == SrcRegion(o, margin, s)
  {
    if s.Made? {
      assert Tracked(base + p.adds, p, s.d);
      Known(o, margin, m, base + p.adds, p, s.d);
    } else {
      assert Original(o, s.id);
    }
  }

  /** Adding a fresh `d`, empty and at the default resolution. */
  lemma StageAdd(o: map<string, Structure>, margin: MarginFn, conv: set<Out>, m: map<string, Structure>,
                 base: seq<Out>, p: Progress, category: Category, d: Out)
    requires Stage(o, margin, m, base, p)
    requires Name(d) !in m && category == CategoryOf(d)
    requires (d in conv) == DerivedHighRes(o, d)
    ensures Stage(o, margin, m[Name(d) := Structure(category, {}, false)], base, Adv(conv, p, Add(category, d)))
  {
    var p' := Adv(conv, p, Add(category, d));
    var created, created' := base + p.adds, base + p'.adds;
    assert created' == created + [d];
    IdOfName(d);
    assert Original(o, Name(d)) ==> Name(d) in m;
    forall e | Added(created', e)
      ensures Name(e) !in o
    {
      if e != d {
        assert Added(created, e);
      }
    }
    AddValues(o, margin, conv, m, created, p, category, d);
  }

  lemma AddValues(o: map<string, Structure>, margin: MarginFn, conv: set<Out>, m: map<string, Structure>,
                  created: seq<Out>, p: Progress, category: Category, d: Out)
    requires Values(o, margin, m, created, p)
    requires category == CategoryOf(d) && (d in conv) == DerivedHighRes(o, d)
    ensures Values(o, margin, m[Name(d) := Structure(category, {}, false)], created + [d], Adv(conv, p, Add(category, d)))
  {
    var p' := Adv(conv, p, Add(category, d));
    var s := Structure(category, {}, false);
    forall e | Tracked(created + [d], p', e)
      ensures Name(e) in m[Name(d) := s] && Holds(o, margin, e, m[Name(d) := s][Name(e)], e in p'.unseg, e in p'.unconv)
    {
      if e != d {
        NameInjective(d, e);
        assert Tracked(created, p, e);
      }
    }
  }

  /** Assigning the derived region to a present `d` keeps every other value. */
  lemma StageSegment(o: map<string, Structure>, margin: MarginFn, conv: set<Out>, m: map<string, Structure>,
                     base: seq<Out>, p: Progress, d: Out, op: Op)
    requires Stage(o, margin, m, base, p)
    requires Tracked(base + p.adds, p, d)
    ensures Stage(o, margin, m[Name(d) := m[Name(d)].(region := DerivedRegion(o, margin, d))], base,
                  Adv(conv, p, Segment(d, op)))
  {
    var s := m[Name(d)].(region := DerivedRegion(o, margin, d));
    assert Adv(conv, p, Segment(d, op)) == p.(unseg := p.unseg - {d});
    assert m[Name(d) := s].Keys == m.Keys;
    SegmentValues(o, margin, m, base + p.adds, p, d);
  }

  lemma SegmentValues(o: map<string, Structure>, margin: MarginFn, m: map<string, Structure>,
                      created: seq<Out>, p: Progress, d: Out)
    requires Values(o, margin, m, created, p)
    requires Tracked(created, p, d)
    ensures Values(o, margin, m[Name(d) := m[Name(d)].(region := DerivedRegion(o, margin, d))], created,
                   p.(unseg := p.unseg - {d}))
  {
    var s := m[Name(d)].(region := DerivedRegion(o, margin, d));
    var p' := p.(unseg := p.unseg - {d});
    forall e | Tracked(created, p', e)
      ensures Name(e) in m[Name(d) := s]
      ensures Holds(o, margin, e, m[Name(d) := s][Name(e)], e in p'.unseg, e in p'.unconv)
    {
      if e != d {
        NameInjective(d, e);
        assert Tracked(created, p, e);
      }
    }
  }

  /** Converting a present `d` whose derived form is high resolution keeps
      every other value. */
  lemma StageConvert(o: map<string, Structure>, margin: MarginFn, conv: set<Out>, m: map<string, Structure>,
                     base: seq<Out>, p: Progress, d: Out)
    requires Stage(o, margin, m, base, p)
    requires Tracked(base + p.adds, p, d) && DerivedHighRes(o, d)
    ensures Stage(o, margin, m[Name(d) := m[Name(d)].(highRes := true)], base, Adv(conv, p, ToHighRes(d)))
  {
    var created := base + p.adds;
    var s := m[Name(d)].(highRes := true);
    forall e | Tracked(created, p, e)
      ensures Name(e) in m[Name(d) := s]
      ensures Holds(o, margin, e, m[Name(d) := s][Name(e)], e in p.unseg, e in p.unconv - {d})
    {
      if e != d {
        NameInjective(d, e);
      }
    }
  }

  /** Removing a live block temporary keeps every other value. */
  lemma StageRemove(o: map<string, Structure>, margin: MarginFn, conv: set<Out>, m: map<string, Structure>,
                    base: seq<Out>, p: Progress, d: Out)
    requires Stage(o, margin, m, base, p)
    requires IsBranchTemp(d) && d in p.live && d in p.adds
    ensures Stage(o, margin, m - {Name(d)}, base, Adv(conv, p, Remove(d)))
  {
    var created := base + p.adds;
    var p' := Adv(conv, p, Remove(d));
    assert Added(created, d);
    forall e | Tracked(created, p', e)
      ensures Name(e) in m - {Name(d)}
      ensures Holds(o, margin, e, m[Name(e)], e in p'.unseg, e in p'.unconv)
    {
      NameInjective(d, e);
      assert Tracked(created, p, e);
    }
    forall k | k in m - {Name(d)} && k !in o
      ensures AddedId(k, created) && Present(IdOf(k).value, p'.live)
    {
      NameOfId(k);
    }
  }

  /** One call that fits its stage: it finds its target, and either keeps
      the stage or raises, leaving the exception invariant. An addition
      whose target was not added before raises only on an original id. */
  lemma StepKeeps(o: map<string, Structure>, margin: MarginFn, faults: set<GeoCall>,
                  ready: set<Out>, inputs: set<string>, conv: set<Out>,
                  base: seq<Out>, p: Progress, r: Outcome, c: Call)
    requires Stage(o, margin, r.m, base, p) && r.st.Ok? && r.created == base + p.adds
    requires (forall e | e in ready :: e in base) && inputs <= o.Keys
    requires Pre(ready, inputs, conv, p, c) && ConvAgrees(o, conv, Adv(conv, p, c).adds)
    requires c.Add? ==> c.d !in base
    ensures Ready(r.m, c)
    ensures var r' := Next(margin, faults, r, c);
      && (r'.st.Ok? ==> Stage(o, margin, r'.m, base, Adv(conv, p, c)) && r'.created == base + Adv(conv, p, c).adds)
      && (r'.st.Threw? ==> InvFail(o, margin, r'.m, r'.created))
      && (r'.st.Threw? && r'.st.error.GeometryError? ==> r'.st.error.call in faults)
      && (r'.st.Threw? && r'.st.error.DuplicateId? ==> c.Add? && r'.st.error.id == Name(c.d) && Name(c.d) in o)
  {
    var r' := Next(margin, faults, r, c);
    var created := base + p.adds;
    if !c.Add? {
      assert Tracked(created, p, c.d);
    }
    if r'.st.Threw? {
      InvFailOfStage(o, margin, r.m, base, p);
      if c.Add? {
        IdOfName(c.d);
        assert c.d !in created;
      }
      return;
    }
    match c
    case Add(category, d) =>
      assert base + (p.adds + [d]) == created + [d];
      StageAdd(o, margin, conv, r.m, base, p, category, d);
    case Segment(d, op) =>
      ReadSrc(o, margin, r.m, base, ready, inputs, p, op.a);
      if Binary(op) {
        ReadSrc(o, margin, r.m, base, ready, inputs, p, op.b);
      }
      RecipeRegion(o, margin, d, op);
      StageSegment(o, margin, conv, r.m, base, p, d, op);
    case ToHighRes(d) =>
      StageConvert(o, margin, conv, r.m, base, p, d);
    case Remove(d) =>
      StageRemove(o, margin, conv, r.m, base, p, d);
  }

  /** The additions of a block only grow. */
  lemma {:induction false} AddsGrow(conv: set<Out>, p: Progress, calls: Calls)
    ensures IsPrefix(p.adds, AdvAll(conv, p, calls).adds)
    decreases calls
  {
    if calls.Then? {
      var p1 := Adv(conv, p, calls.call);
      AddsGrow(conv, p1, calls.next);
      var a := AdvAll(conv, p1, calls.next).adds;
      assert a[..|p.adds|] == a[..|p1.adds|][..|p.adds|];
    }
  }

  /** A run of calls that fits its stage finds every target, and either
      keeps the stage to the end or raises, leaving the exception invariant
      with a prefix of the planned additions made. When the calls add
      nothing added before and remove only at the end, a raise leaves every
      structure the run added present, and a duplicate id is an original id
      the run meant to add. */
  lemma {:induction false} RunKeeps(o: map<string, Structure>, margin: MarginFn, faults: set<GeoCall>,
                                    ready: set<Out>, inputs: set<string>, conv: set<Out>,
                                    base: seq<Out>, p: Progress, r: Outcome, calls: Calls)
    requires Stage(o, margin, r.m, base, p) && r.st.Ok? && r.created == base + p.adds
    requires (forall e | e in ready :: e in base) && inputs <= o.Keys
    requires Fits(ready, inputs, conv, p, calls) && ConvAgrees(o, conv, AdvAll(conv, p, calls).adds)
    requires Apart(AdvAll(conv, p, calls).adds, base)
    requires (Intact(p) && RemovesLast(calls)) || OnlyRemoves(calls)
    ensures Runnable(margin, faults, r, calls)
    ensures var r' := Run(margin, faults, r, calls);
      && (r'.st.Ok? ==> Stage(o, margin, r'.m, base, AdvAll(conv, p, calls)) && r'.created == base + AdvAll(conv, p, calls).adds)
      && (r'.st.Threw? ==>
            InvFail(o, margin, r'.m, r'.created)
            && |r.created| <= |r'.created| && IsPrefix(r'.created, base + AdvAll(conv, p, calls).adds))
      && (r'.st.Threw? ==> forall d | d in r'.created && d !in base :: Name(d) in r'.m)
      && (r'.st.Threw? && r'.st.error.GeometryError? ==> r'.st.error.call in faults)
      && (r'.st.Threw? && r'.st.error.DuplicateId? ==>
            r'.st.error.id in o && AddedId(r'.st.error.id, AdvAll(conv, p, calls).adds))
    decreases calls
  {
    if calls.Done? {
      return;
    }
    var c, rest := calls.call, calls.next;
    var p1 := Adv(conv, p, c);
    AddsGrow(conv, p1, rest);
    var a := AdvAll(conv, p1, rest).adds;
    assert PharynxOar in p1.adds ==> PharynxOar in a by {
      if PharynxOar in p1.adds {
        var i :| 0 <= i < |p1.adds| && p1.adds[i] == PharynxOar;
        assert a[i] == PharynxOar;
      }
    }
    if c.Add? {
      assert a[|p.adds|] == p1.adds[|p.adds|] == c.d;
    }
    StepKeeps(o, margin, faults, ready, inputs, conv, base, p, r, c);
    var r1 := Next(margin, faults, r, c);
    if r1.st.Threw? {
      AddsGrow(conv, p, calls);
      assert (base + a)[..|base + p.adds|] == base + a[..|p.adds|];
      // a removal never raises, so nothing was removed before this call
      IntactPresent(o, margin, r.m, base, p);
      if c.Add? {
        IdOfName(c.d);
      }
    } else {
      RunKeeps(o, margin, faults, ready, inputs, conv, base, p1, r1, rest);
    }
  }

  /** A run of calls fits when its two parts fit in turn. */
  lemma {:induction false} FitsCat(ready: set<Out>, inputs: set<string>, conv: set<Out>, p: Progress, a: Calls, b: Calls)
    ensures Fits(ready, inputs, conv, p, Cat(a, b)) <==>
            Fits(ready, inputs, conv, p, a) && Fits(ready, inputs, conv, AdvAll(conv, p, a), b)
    ensures AdvAll(conv, p, Cat(a, b)) == AdvAll(conv, AdvAll(conv, p, a), b)
    decreases a
  {
    if a.Then? {
      FitsCat(ready, inputs, conv, Adv(conv, p, a.call), a.next, b);
    }
  }
}
