/**
 * What a completed run leaves: which derived structures are planned, which
 * survive the removal of the temporaries, and how the kept regions relate
 * to the inputs and to one another.
 */
module Properties {
  import opened Ids
  import opened Store
  import opened Derivation
  import opened Plan

  /** The ids of the temporaries removed at the end of the try block. */
  const FinalTempIds: set<string> := {Body3mmId, PtvIntId, PtvLowId, PtvHighIntId, PtvAllId}

  lemma FinalTempIdsNamed(k: string)
    ensures k in FinalTempIds <==> IdOf(k).Some? && IsFinalTemp(IdOf(k).value)
  {
  }

  /** Whether the block of `d` adds it under the flags `f`. */
  predicate Enabled(d: Out, f: Flags, hr: bool) {
    match d
    case Body3mm | PtvHigh | PtvInt | PtvLow | PtvHighInt | PtvAll => true
    case PtvIntDvh => f.ptvIntDvh
    case PtvHigh3mm | PtvIntOpt => f.ptvIntOpt
    case PtvLowDvh => f.ptvLowDvh
    case PtvHighInt3mm | PtvLowOpt => f.ptvLowOpt
    case PtvAll3mm | PtvAll10mm | Ring310Pre | Ring310 => f.ring
    case ParotidLOar => f.parotidL
    case ParotidROar => f.parotidR
    case PharynxOar => f.pharynx
    case PtvAllHighRes => f.pharynx && hr
    case Brainstem3Prv => f.brainstem
    case Cord5Prv => f.cord
  }

  /** An enabled structure is added by its block. */
  lemma AddsOwn(f: Flags, hr: bool, d: Out)
    requires Enabled(d, f, hr)
    ensures 1 <= BlockOf(d) <= 13 && d in Adds(BlockOf(d), f, hr)
  {
  }

  /** Every structure a block adds is enabled. */
  lemma AddsEnabled(j: nat, f: Flags, hr: bool)
    ensures forall d :: d in Adds(j, f, hr) ==> Enabled(d, f, hr)
  {
    if j <= 7 {
      AddsEnabledLow(j, f, hr);
    } else {
      AddsEnabledHigh(j, f, hr);
    }
  }

  lemma AddsEnabledLow(j: nat, f: Flags, hr: bool)
    requires j <= 7
    ensures forall d :: d in Adds(j, f, hr) ==> Enabled(d, f, hr)
  {
  }

  lemma AddsEnabledHigh(j: nat, f: Flags, hr: bool)
    requires 7 < j
    ensures forall d :: d in Adds(j, f, hr) ==> Enabled(d, f, hr)
  {
  }

  /** What block `j` adds is planned. */
  lemma AddedBy(j: nat, f: Flags, hr: bool, d: Out)
    requires 1 <= j <= 13 && d in Adds(j, f, hr)
    ensures d in PlannedAdds(f, hr)
  {
    assert d in PlanTo(j, f, hr);
    PlanGrows(j, 13, f, hr);
    var a, b := PlanTo(j, f, hr), PlannedAdds(f, hr);
    var i :| 0 <= i < |a| && a[i] == d;
    assert b[..|a|][i] == d;
  }

  /** Every structure planned by blocks 1..j is enabled. */
  lemma {:induction false} PlanToEnabled(j: nat, f: Flags, hr: bool)
    ensures forall d :: d in PlanTo(j, f, hr) ==> Enabled(d, f, hr)
    decreases j
  {
    if j > 0 {
      PlanToEnabled(j - 1, f, hr);
      AddsEnabled(j, f, hr);
    }
  }

  /** A structure is planned exactly when its block adds it under the flags. */
  lemma PlannedMembers(f: Flags, hr: bool, d: Out)
    ensures d in PlannedAdds(f, hr) <==> Enabled(d, f, hr)
  {
    PlanToEnabled(13, f, hr);
    if Enabled(d, f, hr) {
      AddsOwn(f, hr, d);
      AddedBy(BlockOf(d), f, hr, d);
    }
  }

  /** No temporary is a kept output. */
  lemma TemporaryNotTerminal(f: Flags, d: Out)
    requires IsTemporary(d)
    ensures d !in Terminal(f)
  {
  }

  /** The outputs are kept exactly when enabled. */
  lemma OutputTerminal(f: Flags, hr: bool, d: Out)
    requires !IsTemporary(d)
    ensures d in Terminal(f) <==> Enabled(d, f, hr)
  {
    match d
    case PtvHigh =>
    case PtvIntDvh =>
    case PtvIntOpt =>
    case PtvLowDvh =>
    case PtvLowOpt =>
    case Ring310 =>
    case ParotidLOar =>
    case ParotidROar =>
    case PharynxOar =>
    case Brainstem3Prv =>
    case Cord5Prv =>
  }

  /** The kept outputs are the enabled structures that are not temporaries. */
  lemma TerminalEnabled(f: Flags, hr: bool, d: Out)
    ensures d in Terminal(f) <==> !IsTemporary(d) && Enabled(d, f, hr)
  {
    if IsTemporary(d) {
      TemporaryNotTerminal(f, d);
    } else {
      OutputTerminal(f, hr, d);
    }
  }

  /** The planned structures that are not temporaries are exactly the kept
      outputs: PTV_HIGH always, every other output exactly when its flag is
      set. */
  lemma PlannedTerminal(f: Flags, hr: bool)
    ensures forall d :: d in PlannedAdds(f, hr) && !IsTemporary(d) <==> d in Terminal(f)
  {
    forall d
      ensures d in PlannedAdds(f, hr) && !IsTemporary(d) <==> d in Terminal(f)
    {
      PlannedMembers(f, hr, d);
      TerminalEnabled(f, hr, d);
    }
  }

  /** The five structures removed at the end are always planned: blocks 1 to 3
      run unconditionally. */
  lemma FinalTempsPlanned(f: Flags, hr: bool)
    ensures forall d :: IsFinalTemp(d) ==> d in PlannedAdds(f, hr)
  {
    forall d | IsFinalTemp(d)
      ensures d in PlannedAdds(f, hr)
    {
      PlannedMembers(f, hr, d);
    }
  }

  /** After a completed run the five final temporaries are present. */
  lemma FinalTempsPresent(o: map<string, Structure>, margin: MarginFn, f: Flags, m: map<string, Structure>)
    requires InvOk(o, margin, m, PlannedAdds(f, PharynxHighRes(o)))
    ensures Name(Body3mm) in m && Name(PtvInt) in m && Name(PtvLow) in m && Name(PtvHighInt) in m && Name(PtvAll) in m
  {
    FinalTempPresent(o, margin, f, m, Body3mm);
    FinalTempPresent(o, margin, f, m, PtvInt);
    FinalTempPresent(o, margin, f, m, PtvLow);
    FinalTempPresent(o, margin, f, m, PtvHighInt);
    FinalTempPresent(o, margin, f, m, PtvAll);
  }

  /** After a completed run a final temporary is present. */
  lemma FinalTempPresent(o: map<string, Structure>, margin: MarginFn, f: Flags, m: map<string, Structure>, d: Out)
    requires InvOk(o, margin, m, PlannedAdds(f, PharynxHighRes(o))) && IsFinalTemp(d)
    ensures Name(d) in m
  {
    PlannedMembers(f, PharynxHighRes(o), d);
    assert Added(PlannedAdds(f, PharynxHighRes(o)), d);
  }

  /** Removing the five final temporaries one by one removes `FinalTempIds`. */
  lemma RemovedInTurn(m: map<string, Structure>)
    ensures m - {Body3mmId} - {PtvIntId} - {PtvLowId} - {PtvHighIntId} - {PtvAllId} == m - FinalTempIds
  {
  }

  /** What the removal keeps of the final state is expected. */
  lemma CleanupKeeps(o: map<string, Structure>, margin: MarginFn, f: Flags, m: map<string, Structure>, k: string)
    requires InvOk(o, margin, m, PlannedAdds(f, PharynxHighRes(o)))
    requires k in m && k !in FinalTempIds
    ensures k in Expected(o, margin, f) && Expected(o, margin, f)[k] == m[k]
  {
    var created := PlannedAdds(f, PharynxHighRes(o));
    if Original(o, k) {
      ExpectedKeys(o, margin, f, k);
    } else {
      var d := IdOf(k).value;
      NameOfId(k);
      FinalTempIdsNamed(k);
      PlannedTerminal(f, PharynxHighRes(o));
      assert Added(created, d);
      ExpectedOutput(o, margin, f, d);
    }
  }

  /** Everything expected is in the final state and is not removed. */
  lemma CleanupHas(o: map<string, Structure>, margin: MarginFn, f: Flags, m: map<string, Structure>, k: string)
    requires InvOk(o, margin, m, PlannedAdds(f, PharynxHighRes(o)))
    requires k in Expected(o, margin, f)
    ensures k in m && k !in FinalTempIds
  {
    var created := PlannedAdds(f, PharynxHighRes(o));
    ExpectedKeys(o, margin, f, k);
    FinalTempIdsNamed(k);
    NameOfId(k);
    if Original(o, k) {
      if IdOf(k).Some? && IsFinalTemp(IdOf(k).value) {
        FinalTempsPlanned(f, PharynxHighRes(o));
        assert Added(created, IdOf(k).value);
      }
    } else {
      PlannedTerminal(f, PharynxHighRes(o));
      assert Added(created, IdOf(k).value);
    }
  }

  /** Removing the five final temporaries from the state a completed run
      of every block leaves gives the expected structure set: the originals,
      unchanged, and the kept outputs with their derived structures. */
  lemma CleanupExpected(o: map<string, Structure>, margin: MarginFn, f: Flags, m: map<string, Structure>)
    requires InvOk(o, margin, m, PlannedAdds(f, PharynxHighRes(o)))
    ensures m - FinalTempIds == Expected(o, margin, f)
  {
    var e, r := Expected(o, margin, f), m - FinalTempIds;
    forall k | k in r
      ensures k in e && r[k] == e[k]
    {
      CleanupKeeps(o, margin, f, m, k);
    }
    forall k | k in e
      ensures k in r
    {
      CleanupHas(o, margin, f, m, k);
    }
  }

  /** The kept derived structures of a completed run, and nothing else
      besides the originals. */
  lemma ExpectedKeys(o: map<string, Structure>, margin: MarginFn, f: Flags, k: string)
    ensures k in Expected(o, margin, f) <==> k in o || (IdOf(k).Some? && IdOf(k).value in Terminal(f))
  {
    IdOfNames();
    NameOfId(k);
  }

  /** No temporary survives a completed run: the id of a temporary is in the
      expected structure set only when it was already an original. */
  lemma NoTemporaryKept(o: map<string, Structure>, margin: MarginFn, f: Flags, d: Out)
    requires IsTemporary(d)
    ensures Name(d) in Expected(o, margin, f) <==> Name(d) in o
  {
    ExpectedKeys(o, margin, f, Name(d));
    IdOfName(d);
    TemporaryNotTerminal(f, d);
  }

  /** A kept output holds its derived structure. */
  lemma ExpectedOutput(o: map<string, Structure>, margin: MarginFn, f: Flags, d: Out)
    requires d in Terminal(f) && Name(d) !in o
    ensures Name(d) in Expected(o, margin, f) && Expected(o, margin, f)[Name(d)] == Derived(o, margin, d)
  {
    ExpectedKeys(o, margin, f, Name(d));
    IdOfName(d);
  }
}
