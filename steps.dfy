/**
 * The calls a block makes on the structure set (add, assign a segment,
 * convert to high resolution, remove) as values, their effect on the
 * structure set, and the state a block keeps while it runs.
 */
module Steps {
  import opened Ids
  import opened Store
  import opened Derivation

  /** An operand of a geometry operation: an original structure by its id,
      or a derived structure. */
  datatype Src = Input(id: string) | Made(d: Out)

  /** The geometry operations the script assigns to a segment: a margin of
      one structure, the boolean combinations of two, or a copy of one. */
  datatype Op =
    | Margin(a: Src, mm: real)
    | And(a: Src, b: Src)
    | Or(a: Src, b: Src)
    | Sub(a: Src, b: Src)
    | Copy(a: Src)

  predicate Binary(op: Op) {
    op.And? || op.Or? || op.Sub?
  }

  /** One call on the structure set, targeting the derived structure `d`. */
  datatype Call =
    | Add(category: Category, d: Out)   // AddStructure
    | Segment(d: Out, op: Op)           // d.SegmentVolume = op
    | ToHighRes(d: Out)                 // d.ConvertToHighResolution()
    | Remove(d: Out)                    // RemoveStructure(d)

  /** The result of `op` on operand regions `ra` and (when binary) `rb`. */
  function Combine(margin: MarginFn, op: Op, ra: Region, rb: Region): Region {
    match op
    case Margin(_, mm) => margin(ra, mm)
    case And(_, _) => ra * rb
    case Or(_, _) => ra + rb
    case Sub(_, _) => ra - rb
    case Copy(_) => ra
  }

  /** The id under which an operand is found in the structure set. */
  function SrcId(s: Src): string {
    match s
    case Input(id) => id
    case Made(d) => Name(d)
  }

  /** The region `op` computes from the operands as they are in `m`. */
  function Evaluate(margin: MarginFn, op: Op, m: map<string, Structure>): Region {
    Combine(margin, op, RegionOf(m, SrcId(op.a)), if Binary(op) then RegionOf(m, SrcId(op.b)) else {})
  }

  /** The state of a run: the last status, the structure set, and the derived
      structures added so far. */
  datatype Outcome = Outcome(st: Status, m: map<string, Structure>, created: seq<Out>)

  /** A call can be made on `m`: every call but AddStructure needs its target. */
  predicate Ready(m: map<string, Structure>, c: Call) {
    c.Add? || Name(c.d) in m
  }

  /** The effect of one call. AddStructure raises on an id in use; a segment
      assignment and a conversion raise when the geometry call is faulty. */
  function Next(margin: MarginFn, faults: set<GeoCall>, r: Outcome, c: Call): (r': Outcome)
    ensures r'.st.Threw? ==> r'.m == r.m && r'.created == r.created
  {
    var id := Name(c.d);
    match c
    case Add(category, d) =>
      if id in r.m then r.(st := Threw(DuplicateId(id)))
      else Outcome(Ok, r.m[id := Structure(category, {}, false)], r.created + [d])
    case Segment(_, op) =>
      if Compute(id) in faults then r.(st := Threw(GeometryError(Compute(id))))
      else if id in r.m then r.(st := Ok, m := r.m[id := r.m[id].(region := Evaluate(margin, op, r.m))])
      else r.(st := Ok)
    case ToHighRes(_) =>
      if Convert(id) in faults then r.(st := Threw(GeometryError(Convert(id))))
      else if id in r.m then r.(st := Ok, m := r.m[id := r.m[id].(highRes := true)])
      else r.(st := Ok)
    case Remove(_) =>
      r.(st := Ok, m := r.m - {id})
  }

  /** A sequence of calls, in the order a block makes them. */
  datatype Calls = Done | Then(call: Call, next: Calls)

  /** The calls made in order, up to the first that raises. */
  function Run(margin: MarginFn, faults: set<GeoCall>, r: Outcome, calls: Calls): Outcome
    decreases calls, r
  {
    if calls.Done? || r.st.Threw? then r
    else Run(margin, faults, Next(margin, faults, r, calls.call), calls.next)
  }

  /** Every call that the run reaches finds its target. */
  predicate Runnable(margin: MarginFn, faults: set<GeoCall>, r: Outcome, calls: Calls)
    decreases calls, r
  {
    calls.Done? || r.st.Threw? ||
    (Ready(r.m, calls.call) && Runnable(margin, faults, Next(margin, faults, r, calls.call), calls.next))
  }

  /** The calls of `a`, then those of `b`. */
  function Cat(a: Calls, b: Calls): Calls
    decreases a
  {
    match a
    case Done => b
    case Then(c, rest) => Then(c, Cat(rest, b))
  }

  /** Running two parts in turn is running them one after the other, and
      the whole finds its targets when both parts do. */
  lemma {:induction false} RunCat(margin: MarginFn, faults: set<GeoCall>, r: Outcome, a: Calls, b: Calls)
    ensures Run(margin, faults, r, Cat(a, b)) == Run(margin, faults, Run(margin, faults, r, a), b)
    ensures Runnable(margin, faults, r, Cat(a, b)) <==>
            Runnable(margin, faults, r, a) && Runnable(margin, faults, Run(margin, faults, r, a), b)
    decreases a
  {
    if a.Then? && r.st.Ok? {
      RunCat(margin, faults, Next(margin, faults, r, a.call), a.next, b);
    }
  }

  /** Makes the call `c`, the first of the calls `rest` that remain of a
      run that has got as far as `r`. */
  method Perform(ss: StructureSet, margin: MarginFn, faults: set<GeoCall>, c: Call,
                 ghost r: Outcome, ghost rest: Calls)
    returns (st: Status)
    requires rest.Then? && rest.call == c
    requires r.st.Ok? && r.m == ss.structures && Runnable(margin, faults, r, rest)
    modifies ss
    ensures st == Next(margin, faults, r, c).st && ss.structures == Next(margin, faults, r, c).m
    ensures Run(margin, faults, r, rest) == Run(margin, faults, Next(margin, faults, r, c), rest.next)
    ensures st.Ok? ==> Runnable(margin, faults, Next(margin, faults, r, c), rest.next)
  {
    var id := Name(c.d);
    match c
    case Add(category, _) =>
      st := ss.AddStructure(category, id);
    case Segment(_, op) =>
      var region := Evaluate(margin, op, ss.structures);
      st := Attempt(Compute(id), faults);
      if st.Ok? {
        ss.SetSegmentVolume(id, region);
      }
    case ToHighRes(_) =>
      st := Attempt(Convert(id), faults);
      if st.Ok? {
        ss.ConvertToHighResolution(id);
      }
    case Remove(_) =>
      ss.RemoveStructure(id);
      st := Ok;
  }
}
