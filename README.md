# Head-and-neck RapidPlan structure derivation, modelled in Dafny

This project models `Script.Execute` of `CreateRapidPlanHNStructures.cs`, a
script for the Eclipse treatment planning system. The script derives the
structures a head-and-neck RapidPlan model needs from the structures a
clinician has drawn. It has three parts:

- **Validation gate.** The script looks up the four mandatory inputs `Body`,
  `PTV_7000`, `PTV_6125` and `PTV_5600`. It collects every missing one before
  aborting. It then aborts if `PTV_HIGH` already exists. Otherwise it computes
  one enable flag per optional output. An organ branch is enabled when its
  organ is present and its output is absent. A PTV or ring output is enabled
  when its id is absent.
- **Derivation.** Straight-line code adds named structures to the structure
  set and assigns each one a segment. Each segment is computed with `And`,
  `Or`, `Sub` and `Margin` from earlier structures. Blocks 1–8 and 101–104 of
  the script run in order, and a block whose flag is false is skipped.
- **Cleanup.** Some temporaries are removed inside the block that made them.
  Five more (`Body_3mm`, `PTV_INT`, `PTV_LOW`, `PTV_HIGH+INT`, `PTV_ALL`) are
  removed at the end. An exception anywhere in the try block ends the run in
  the catch block. Whatever was added before the exception stays.

How the model is built:

- **Structure set.** A class `Store.StructureSet` holds
  `map<string, Structure>`. A structure has a category (`PTV`, `CONTROL`,
  `AVOIDANCE`), a region and a high-resolution flag.
- **Regions.** A region is a set of voxels. `And`, `Or` and `Sub` are
  intersection, union and difference.
- **Margin.** `Margin` is a function parameter `margin: (Region, real) -> Region`
  that the model leaves uninterpreted.
- **Exceptions.** A set `faults` of geometry calls says which calls raise. A
  call is either computing the segment of a structure or converting it to high
  resolution. `AddStructure` on an id that is already in use also raises.
- **Reference definition.** `Derivation` states in closed form the region of
  each derived structure in terms of the input regions. It also gives the
  order in which the structures are added (`PlannedAdds`) and the structure set
  a completed run leaves (`Expected`).
- **Proof of the blocks.** Each block is a value of type `Calls`, the list of
  its calls on the structure set (`Steps`, `Blocks`). A method makes those
  calls on the object in order. `Plan.RunToKeeps` proves that every run keeps
  the state invariant. On completion that invariant is `InvOk`; after an
  exception it is `InvFail`.
- **Entry point.** `Script.Execute` composes the gate, the blocks and the
  removals. Its postcondition gives the outcome (`Aborted`, `Completed` or
  `Failed`), the final structure set and the list of notices the operator is
  shown.

## Model

| member | source | states |
|---|---|---|
| Store.Lookup | CreateRapidPlanHNStructures.cs:97 | `FirstOrDefault` by id: returns a structure exactly when the id is in the set, and that structure is the one stored under the id |
| Store.StructureSet.AddStructure | CreateRapidPlanHNStructures.cs:185 | adds an empty structure of the given category under a free id and changes nothing else; an id already in use raises and leaves the set unchanged |
| Store.StructureSet.SetSegmentVolume | CreateRapidPlanHNStructures.cs:186 | replaces the region of one structure and nothing else |
| Store.StructureSet.ConvertToHighResolution | CreateRapidPlanHNStructures.cs:343 | sets the high-resolution flag of one structure and nothing else |
| Store.StructureSet.RemoveStructure | CreateRapidPlanHNStructures.cs:252 | removes exactly the given id |
| Store.Attempt | CreateRapidPlanHNStructures.cs:186 | a geometry call raises exactly when it is one of the faulty calls, and the error names that call |
| Gate.CheckBaseROI | CreateRapidPlanHNStructures.cs:412-419 | appends the id to the missing list exactly when the lookup found nothing, and otherwise leaves the list unchanged |
| Gate.CheckOAR | CreateRapidPlanHNStructures.cs:421-443 | the flag is true iff the organ was found and its output id is free; a message is shown iff the flag is false; a missing organ is reported in preference to an existing output |
| Gate.CheckNewROI | CreateRapidPlanHNStructures.cs:445-456 | the flag is true iff the id is free; an "already exists" message is shown exactly when it is false |
| Gate.MissingMembers | CreateRapidPlanHNStructures.cs:95-107 | an id is reported missing iff it is checked and absent |
| Gate.MissingAppend | CreateRapidPlanHNStructures.cs:95-107 | the missing ids of consecutive checks are concatenated in check order |
| Gate.MissingMandatory | CreateRapidPlanHNStructures.cs:95-107 | the missing list is, in order, each of `Body`, `PTV_7000`, `PTV_6125`, `PTV_5600` that is absent |
| Gate.ReportMissing | CreateRapidPlanHNStructures.cs:109-116 | the `foreach` loop shows one "not found" notice per missing id, in list order |
| Gate.Validate | CreateRapidPlanHNStructures.cs:95-175 | proceeds iff all four mandatory inputs are present and `PTV_HIGH` is absent; an abort for missing inputs carries the non-empty list of all missing ids; an abort for `PTV_HIGH` happens only when every mandatory input is present; on proceeding the flags are those of the ten checks |
| Script.Screen | CreateRapidPlanHNStructures.cs:95-175 | the imperative gate computes the decision of `Validate`, and shows the notices of an abort or, when it proceeds, those of the ten checks in order |
| Script.AbortNotices | CreateRapidPlanHNStructures.cs:109-129 | an abort for missing inputs shows one notice per missing id, in order; an abort for `PTV_HIGH` shows exactly one notice |
| Steps.Next | CreateRapidPlanHNStructures.cs:180-407 | a call that raises leaves the structure set and the list of added structures unchanged |
| Steps.RunCat | CreateRapidPlanHNStructures.cs:180-400 | running two parts of the try block in turn equals running their concatenation, and the whole finds its targets iff both parts do |
| Steps.Perform | CreateRapidPlanHNStructures.cs:185-389 | one call on the structure set has the effect that `Next` defines |
| Stages.RecipeRegion | CreateRapidPlanHNStructures.cs:185-389 | the operation the script assigns to each derived structure, applied to the reference regions of its operands, gives that structure's reference region |
| Stages.StepKeeps | CreateRapidPlanHNStructures.cs:185-389 | a call made where the block expects it finds its target, and either keeps the in-block invariant or raises into the exception invariant; an `AddStructure` of a structure not added before raises only on an original id |
| Stages.RunKeeps | CreateRapidPlanHNStructures.cs:185-389 | a block's calls, made in order, find every target, and either keep the in-block invariant to the end or raise, leaving a prefix of the block's additions and the exception invariant; since every block removes its temporaries only after its last call that can raise, a raise leaves everything the block added present, and a duplicate id is an original id the block adds |
| Stages.IntactPresent | CreateRapidPlanHNStructures.cs:239-253 | while a block has removed nothing, every structure it added is in the structure set |
| Stages.FitsCat | CreateRapidPlanHNStructures.cs:185-389 | the calls of a block fit their stage iff both parts of a split of them fit in turn |
| Blocks.SingleKeeps | CreateRapidPlanHNStructures.cs:226-234 | a block that adds one structure and assigns its segment (blocks 1, 4, 6, 101, 102 at default resolution, 103, 104) keeps the state invariant with that one addition, or raises into the exception invariant |
| Blocks.BlockSingle | CreateRapidPlanHNStructures.cs:185-186 | the method makes the add and the segment assignment of a one-structure block, with the effect of running its calls |
| Blocks.PtvsKeeps | CreateRapidPlanHNStructures.cs:196-201 | block 2 adds `PTV_HIGH`, `PTV_INT` and `PTV_LOW`, each a clinical PTV intersected with `Body_3mm`, or raises into the exception invariant |
| Blocks.Block2Ptvs | CreateRapidPlanHNStructures.cs:196-201 | the method makes block 2's calls in order and stops at the first exception |
| Blocks.PtvAllBKeeps | CreateRapidPlanHNStructures.cs:212-215 | block 3 adds `PTV_HIGH+INT` and `PTV_ALL` as unions of the PTVs, or raises into the exception invariant |
| Blocks.Block3PtvAll | CreateRapidPlanHNStructures.cs:212-215 | the method makes block 3's calls in order and stops at the first exception |
| Blocks.IntOptKeeps | CreateRapidPlanHNStructures.cs:239-253 | block 5 keeps `PTV_INT_OPT` and removes its temporary `PTV_HIGH+3mm`, or raises into the exception invariant |
| Blocks.Block5IntOpt | CreateRapidPlanHNStructures.cs:239-253 | the method makes block 5's calls in order, including the removal, and stops at the first exception |
| Blocks.LowOptKeeps | CreateRapidPlanHNStructures.cs:271-285 | block 7 keeps `PTV_LOW_OPT` and removes its temporary `PTV_HIGH+INT+3mm`, or raises into the exception invariant |
| Blocks.Block7LowOpt | CreateRapidPlanHNStructures.cs:271-285 | the method makes block 7's calls in order and stops at the first exception |
| Blocks.RingKeeps | CreateRapidPlanHNStructures.cs:290-308 | block 8 keeps `3_10mm RING` and removes its three temporaries, or raises into the exception invariant |
| Blocks.Block8Ring | CreateRapidPlanHNStructures.cs:290-308 | the method makes block 8's calls in order and stops at the first exception |
| Blocks.PharynxHighResKeeps | CreateRapidPlanHNStructures.cs:341-354 | for a high-resolution Pharynx, block 102 converts `OAR_Pharynx`, subtracts a high-resolution copy of `PTV_ALL` and removes the copy, or raises into the exception invariant |
| Blocks.Block102HighRes | CreateRapidPlanHNStructures.cs:341-350 | the method makes the high-resolution branch's calls in order and stops at the first exception |
| Plan.InputsOfProceed | CreateRapidPlanHNStructures.cs:95-155 | when the gate proceeds, every input that an enabled block reads is present |
| Plan.RunToKeeps | CreateRapidPlanHNStructures.cs:180-389 | blocks 1 to j either complete, having added exactly their planned structures while keeping the state invariant, or raise, having added a prefix of them and leaving the exception invariant; a geometry exception comes only from a faulty call, and a duplicate-id exception only from an original id that a planned addition reuses |
| Plan.PlanApart | CreateRapidPlanHNStructures.cs:185-389 | no block adds a structure that an earlier block added |
| Plan.CleanRunCompletes | CreateRapidPlanHNStructures.cs:180-389 | with no faulty geometry call and no planned id already in the original set, the try block completes |
| Plan.BlockThrew | CreateRapidPlanHNStructures.cs:185-389 | a block that raises after the earlier blocks completed leaves the earlier blocks' additions as a prefix, and every structure it added itself, temporaries included, still present |
| Plan.ThrowingBlock | CreateRapidPlanHNStructures.cs:180-407 | an exception in blocks 1 to k was raised by one block j <= k, after blocks 1 to j-1 completed; the run stops there, and everything block j added is still present |
| Plan.Stops | CreateRapidPlanHNStructures.cs:180-407 | once a block raises, no later block runs: the state after every later block is the state at the exception |
| Plan.Enter | CreateRapidPlanHNStructures.cs:180-389 | block j continues from the state blocks 1 to j-1 left, and finds all its targets when those completed |
| Plan.PlanGrows | CreateRapidPlanHNStructures.cs:185-389 | the additions of the first j blocks are a prefix of those of the first k blocks, for j <= k |
| Properties.PlannedMembers | CreateRapidPlanHNStructures.cs:226-389 | a structure is added by a completed run iff its block's flag is set; blocks 1 to 3 always run, and `PTV_ALL_HighRes` only for a high-resolution Pharynx |
| Properties.PlannedTerminal | CreateRapidPlanHNStructures.cs:185-398 | the added structures that are not temporaries are exactly the kept outputs |
| Properties.TerminalEnabled | CreateRapidPlanHNStructures.cs:226-389 | a derived structure is kept iff it is not a temporary and its block is enabled |
| Properties.FinalTempsPresent | CreateRapidPlanHNStructures.cs:394-398 | after a completed run of every block, the five final temporaries are present, so the five removals find their targets |
| Properties.CleanupExpected | CreateRapidPlanHNStructures.cs:394-398 | removing the five final temporaries from the state a completed run leaves gives exactly the expected structure set |
| Properties.ExpectedKeys | CreateRapidPlanHNStructures.cs:185-398 | an id is in the expected structure set iff it is an original id or names a kept output |
| Properties.NoTemporaryKept | CreateRapidPlanHNStructures.cs:394-398 | the id of a temporary is in the expected structure set iff it was an original id |
| Properties.ExpectedOutput | CreateRapidPlanHNStructures.cs:185-389 | a kept output holds its derived structure: its category, its reference region and its resolution |
| Script.RemoveTemporaries | CreateRapidPlanHNStructures.cs:394-398 | the five removals at the end remove exactly the five final temporary ids, and after a completed run they leave the expected structure set |
| Script.PharynxRead | CreateRapidPlanHNStructures.cs:341 | the Pharynx structure read in block 102 is the original one, with its original resolution |
| Script.DeriveBase | CreateRapidPlanHNStructures.cs:182-221 | blocks 1 to 3 have the effect of running their calls |
| Script.DeriveIntermediate | CreateRapidPlanHNStructures.cs:223-253 | blocks 4 and 5, each under its flag, have the effect of running their calls |
| Script.DeriveLow | CreateRapidPlanHNStructures.cs:255-308 | blocks 6 to 8, each under its flag, have the effect of running their calls |
| Script.DeriveParotids | CreateRapidPlanHNStructures.cs:311-332 | block 101 for each parotid under its flag has the effect of running its calls |
| Script.DerivePharynx | CreateRapidPlanHNStructures.cs:334-363 | block 102 runs the high-resolution branch iff the Pharynx input is high resolution, and shows its notice only when that branch completes |
| Script.DerivePrvs | CreateRapidPlanHNStructures.cs:365-389 | blocks 103 and 104, each under its flag, have the effect of running their calls |
| Script.Derive | CreateRapidPlanHNStructures.cs:180-389 | the try block up to the final removals has the effect of running the calls of every enabled block in order, up to the first exception |
| Script.Conclude | CreateRapidPlanHNStructures.cs:180-407 | a completed try block leaves the expected structure set; an exception skips the final removals, leaves the state at the exception, and adds the exception notice |
| Script.Execute | CreateRapidPlanHNStructures.cs:77-408 | an abort leaves the structure set unchanged and shows the abort notices; a completed run leaves exactly the expected structure set; a failed run leaves the state at the exception |
| Script.FailureLeaves | CreateRapidPlanHNStructures.cs:403-407 | after an exception every original structure is untouched, the added structures are a prefix of the planned ones, each is empty or complete, and every added structure that is not a block temporary is still present; a geometry exception comes from a faulty call and a duplicate id is an original id the run meant to add; the raising block ran after the earlier blocks completed, and everything it added, its temporaries included, is still present |
| Regions.KeptFresh | CreateRapidPlanHNStructures.cs:124-175 | the id of every kept output was free in the original set: `PTV_HIGH` by the gate, every other output by the check that enabled it |
| Regions.KeptRegion | CreateRapidPlanHNStructures.cs:185-389 | a completed run keeps each enabled output with its reference region |
| Regions.TargetRegions | CreateRapidPlanHNStructures.cs:196-261 | `PTV_HIGH` = `PTV_7000` ∩ `Body_3mm`; `PTV_INT_DVH` is disjoint from `PTV_HIGH`; `PTV_LOW_DVH` is disjoint from `PTV_HIGH` ∪ `PTV_INT`; each lies within its clinical PTV and within `Body_3mm` |
| Regions.OptimisationRegions | CreateRapidPlanHNStructures.cs:239-285 | `PTV_INT_OPT` misses `PTV_HIGH+3mm`, `PTV_LOW_OPT` misses `PTV_HIGH+INT+3mm`, and both lie within their clinical PTV and `Body_3mm` |
| Regions.RingRegion | CreateRapidPlanHNStructures.cs:290-308 | `3_10mm RING` ⊆ `Body_3mm`, lies within `PTV_ALL+10mm` and misses `PTV_ALL+3mm` |
| Regions.AvoidanceRegion | CreateRapidPlanHNStructures.cs:314-363 | each parotid OAR and `OAR_Pharynx` lies within its organ and is disjoint from `PTV_ALL`, for the pharynx whichever branch of block 102 ran |
| Regions.SkippedUntouched | CreateRapidPlanHNStructures.cs:226-389 | a completed run does not write the id of a skipped output: it is absent, or holds the same pre-existing structure |
| Regions.SkippedUntouchedOnFailure | CreateRapidPlanHNStructures.cs:180-407 | a run ended by an exception does not write the id of a skipped output either |
| Regions.EnabledOutput | CreateRapidPlanHNStructures.cs:226-389 | an output is kept iff it is `PTV_HIGH` or its flag is set |
| Regions.TerminalEnabledOutputs | CreateRapidPlanHNStructures.cs:226-389 | the set of kept outputs is `PTV_HIGH` plus each output whose flag is set |
| Regions.CompletedKeys | CreateRapidPlanHNStructures.cs:185-398 | the key set of a completed run is the original ids, plus `PTV_HIGH`, plus the id of each enabled output, and nothing else |
| Regions.CompletedWithoutTemporaries | CreateRapidPlanHNStructures.cs:394-398 | a completed run added every temporary of its enabled blocks under a free id, and none of them is left at the end |

## Left out

- Host plumbing is left out: the `ESAPIScript` assembly attribute, the empty `FindStructure` class and `BeginModifications`. A missing patient or structure set is modelled only as a `null` structure set.
- Message boxes are left out as UI. Each finding is modelled as an abstract `Notice` without its text. The informational messages that report volumes after each block are not modelled.
- `Volume` values are left out. They are floating-point display values and never steer control flow.
- The geometry engine is not modelled. `Margin` is an uninterpreted function, so no containment fact about a margin is claimed. `ConvertToHighResolution` only sets a flag and keeps the voxels.
- Only some calls are modelled as raising: a segment assignment, a high-resolution conversion, and `AddStructure` on an id already in use. The library's real behaviour on a duplicate id is not visible to the model. The script never checks its temporary ids (`PTV_ALL`, `PTV_ALL_HighRes`, …) for collisions, so a pre-existing temporary ends the run in the catch block. Other exceptions the library might raise are not modelled. The exception text is only the `Error` value.
- The high-resolution subtraction is applied only where the code applies it: in block 102 (CreateRapidPlanHNStructures.cs:341-354), when the Pharynx input is high resolution. No other subtraction converts its operands, and the script records no per-step history of which calls ran, so the model records none.
- The five removals at CreateRapidPlanHNStructures.cs:394-398 are unconditional `RemoveStructure` calls, and the model makes them unconditionally. On a completed run each of the five temporaries is present when its removal runs (`Properties.FinalTempsPresent`).
