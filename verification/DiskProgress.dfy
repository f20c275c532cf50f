/**
 What the disk tests on record are worth in any run, resets and torn writes included: offsets
 from which a later boot goes on, and write tests that count as done.
 */
module DiskProgress {
  import opened Wrappers
  import opened Config
  import opened RotatingStore
  import opened FindingStore
  import opened TestSession
  import opened Orchestrator
  import opened Invariant
  import opened Theorems
  import D = DestructiveTests
  import S = SurfaceScanning

  /** A byte of a disk, by the disk's identity. */
  type Byte = (string, nat)

  /** The turn reads this byte, or gives it up as unreadable. */
  ghost predicate Passes(m: Machine, t: Turn, b: Byte) {
    && t.Act? && t.action.ScanRead? && t.action.id == b.0
    && m.power.Some? && b.0 in m.power.value.scans
    && var s, length := m.power.value.scans[b.0], if t.action.result.Got? then t.action.result.bytes else S.CHUNK;
       s.offset <= b.1 < s.size && b.1 < s.offset + length
  }

  /** What some scan of some boot of this run has passed. */
  ghost function Passed(w: World, turns: seq<Turn>): iset<Byte>
    requires LegalRun(w, Init(), turns)
  {
    if turns == [] then iset{}
    else
      var before, t := turns[..|turns| - 1], turns[|turns| - 1];
      Passed(w, before) + iset b | Passes(Run(w, Init(), before), t, b)
  }

  /** The write tests that a save of this turn found finished. */
  function Written(t: Turn): set<string> {
    if (t.Act? || t.ActCut?) && t.action.SaveProgress? then t.action.written else {}
  }

  function AllWritten(turns: seq<Turn>): set<string> {
    if turns == [] then {} else AllWritten(turns[..|turns| - 1]) + Written(turns[|turns| - 1])
  }

  ghost predicate PassedUpTo(passed: iset<Byte>, id: string, offset: nat) {
    forall byte: nat | byte < offset :: (id, byte) in passed
  }

  /** Every entry's offset was reached, and the write tests that are done have finished. */
  ghost predicate Earned(entries: map<string, D.Entry>, passed: iset<Byte>, written: set<string>) {
    forall id | id in entries ::
      && PassedUpTo(passed, id, entries[id].offset)
      && (entries[id].mode == D.WriteVerify && entries[id].done ==> id in written)
  }

  /** Threads are of disks to be read, and have passed all up to their offset. */
  ghost predicate ThreadsEarned(scans: map<string, S.Scanner>, entries: map<string, D.Entry>, passed: iset<Byte>) {
    forall id | id in scans ::
      id in entries && entries[id].mode == D.ReadOnly && PassedUpTo(passed, id, scans[id].offset)
  }

  ghost predicate EarnedHere(p: Process, passed: iset<Byte>, written: set<string>) {
    Earned(p.st.scans, passed, written) && ThreadsEarned(p.scans, p.st.scans, passed)
  }

  ghost predicate EarnedBy(m: Machine, passed: iset<Byte>, written: set<string>) {
    match m.power
    case Some(p) => EarnedHere(p, passed, written)
    case None => Saved(m).Some? ==> Earned(Saved(m).value.scans, passed, written)
  }

  lemma {:induction false} MoreIsEarned(p: Process, passed: iset<Byte>, written: set<string>, passed1: iset<Byte>,
          written1: set<string>)
    requires EarnedHere(p, passed, written) && passed <= passed1 && written <= written1
    ensures EarnedHere(p, passed1, written1)
  {
    forall id, offset: nat | PassedUpTo(passed, id, offset) ensures PassedUpTo(passed1, id, offset) {
      forall byte: nat | byte < offset ensures (id, byte) in passed1 {
        assert (id, byte) in passed;
      }
    }
  }

  lemma {:induction false} ReadingEarns(w: World, m: Machine, a: Action, passed: iset<Byte>, written: set<string>)
    requires m.power.Some? && a.ScanRead? && Enabled(m.power.value, a) && EarnedHere(m.power.value, passed, written)
    requires forall b :: Passes(m, Act(a), b) ==> b in passed
    ensures EarnedHere(After(w, m.power.value, a).mem, passed, written)
  {
    var s := m.power.value.scans[a.id];
    var offset := S.ReadOnce(s, a.result).offset;
    forall byte: nat | byte < offset ensures (a.id, byte) in passed {
      if byte >= s.offset {
        assert Passes(m, Act(a), (a.id, byte));
      }
    }
  }

  /** A new entry begins at 0 and is not done; a thread begins where its entry is. */
  lemma {:induction false} StartingEarns(p: Process, id: string, d: D.Device, write: bool, passed: iset<Byte>,
          written: set<string>)
    requires EarnedHere(p, passed, written) && id !in p.scans
    ensures EarnedHere(Starting(p, id, d, write).mem, passed, written)
  {
    var entry := if id in p.st.scans then p.st.scans[id]
                 else D.Entry(d.name, d.size, 0, false, if write then D.WriteVerify else D.ReadOnly);
    EntryIsEarned(p.st.scans, id, entry, passed, written);
    ThreadIsEarned(p.scans, p.st.scans, id, entry, S.Begun(d.size, entry.offset), passed);
  }

  lemma {:induction false} EntryIsEarned(entries: map<string, D.Entry>, id: string, entry: D.Entry, passed: iset<Byte>,
          written: set<string>)
    requires Earned(entries, passed, written)
    requires if id in entries then entry == entries[id] else entry.offset == 0 && !entry.done
    ensures Earned(entries[id := entry], passed, written) && PassedUpTo(passed, id, entry.offset)
  {
  }

  lemma {:induction false} ThreadIsEarned(scans: map<string, S.Scanner>, entries: map<string, D.Entry>, id: string,
          entry: D.Entry, s: S.Scanner, passed: iset<Byte>)
    requires ThreadsEarned(scans, entries, passed) && PassedUpTo(passed, id, s.offset) && id !in scans
    ensures ThreadsEarned(scans, entries[id := entry], passed)
    ensures entry.mode == D.ReadOnly ==> ThreadsEarned(scans[id := s], entries[id := entry], passed)
  {
  }

  lemma {:induction false} SavingEarns(p: Process, passed: iset<Byte>, written: set<string>, now: set<string>)
    requires EarnedHere(p, passed, written) && now <= written
    ensures EarnedHere(p.(st := Progressed(p.st, p.scans, now)), passed, written)
  {
  }

  /** No entry is changed, and no thread moves or begins. */
  predicate SameProgress(p: Process, q: Process) {
    && q.st.scans == p.st.scans && q.scans.Keys == p.scans.Keys
    && forall id | id in q.scans :: q.scans[id].offset == p.scans[id].offset
  }

  lemma {:induction false} SameIsEarned(p: Process, q: Process, passed: iset<Byte>, written: set<string>)
    requires EarnedHere(p, passed, written) && SameProgress(p, q)
    ensures EarnedHere(q, passed, written)
  {
  }

  lemma {:induction false} ThreadsStayPut(w: World, p: Process, a: Action)
    requires Enabled(p, a) && (a.EndScan? || a.OpenFails? || a.ReportScan? || a.MarkPartial?)
    ensures SameProgress(p, After(w, p, a).mem)
  {
  }

  lemma {:induction false} SettersStayPut(w: World, p: Process, a: Action)
    requires Enabled(p, a) && SetsPhase(a) && !a.MarkIncident? && !a.Settle?
    ensures var q := After(w, p, a).mem; q.st.scans == p.st.scans && q.scans == p.scans
  {
  }

  lemma {:induction false} FindingsStayPut(w: World, p: Process, a: Action)
    requires Enabled(p, a) && (a.NoteIncident? || a.MarkIncident? || a.PowerCycleTurn? || a.Observe? || a.SelAdd?)
    ensures var q := After(w, p, a).mem; q.st.scans == p.st.scans && q.scans == p.scans
  {
  }

  lemma {:induction false} OthersStayPut(w: World, p: Process, a: Action)
    requires Enabled(p, a) && !a.ScanRead? && !a.StartScan? && !a.SaveProgress?
    requires !a.EndScan? && !a.OpenFails? && !a.ReportScan? && !a.MarkPartial?
    ensures var q := After(w, p, a).mem; q.st.scans == p.st.scans && q.scans == p.scans
  {
    if a.NoteIncident? || a.MarkIncident? || a.PowerCycleTurn? || a.Observe? || a.SelAdd? {
      FindingsStayPut(w, p, a);
    } else if SetsPhase(a) && !a.Settle? {
      SettersStayPut(w, p, a);
    }
  }

  /** The other steps move no offset and no entry. */
  lemma {:induction false} OthersEarn(w: World, p: Process, a: Action, passed: iset<Byte>, written: set<string>)
    requires EarnedHere(p, passed, written) && Enabled(p, a) && !a.ScanRead? && !a.StartScan? && !a.SaveProgress?
    ensures EarnedHere(After(w, p, a).mem, passed, written)
  {
    if a.EndScan? || a.OpenFails? || a.ReportScan? || a.MarkPartial? {
      ThreadsStayPut(w, p, a);
    } else {
      OthersStayPut(w, p, a);
    }
    SameIsEarned(p, After(w, p, a).mem, passed, written);
  }

  lemma {:induction false} StepEarns(w: World, m: Machine, a: Action, passed: iset<Byte>, written: set<string>)
    requires m.power.Some? && Enabled(m.power.value, a) && EarnedHere(m.power.value, passed, written)
    requires forall b :: Passes(m, Act(a), b) ==> b in passed
    requires Written(Act(a)) <= written
    ensures EarnedHere(After(w, m.power.value, a).mem, passed, written)
  {
    if a.ScanRead? {
      ReadingEarns(w, m, a, passed, written);
    } else if a.StartScan? {
      if a.id in w.disks {
        StartingEarns(m.power.value, a.id, w.disks[a.id], a.write, passed, written);
      }
    } else if a.SaveProgress? {
      SavingEarns(m.power.value, passed, written, a.written);
    } else {
      OthersEarn(w, m.power.value, a, passed, written);
    }
  }

  /** A cut step saves nothing that the completed one would not, and no read is a save. */
  lemma {:induction false} CutEarns(w: World, m: Machine, a: Action, how: Outcome, passed: iset<Byte>, written: set<string>)
    requires Holds(w, m) && Legal(w, m, ActCut(a, how)) && EarnedHere(m.power.value, passed, written)
    requires Written(Act(a)) <= written
    ensures EarnedBy(Take(w, m, ActCut(a, how)), passed, written)
  {
    CutReadsEither(m.disk, After(w, m.power.value, a), how);
    if a.ScanRead? {
      assert After(w, m.power.value, a).mem.st == m.power.value.st;
    } else {
      StepEarns(w, m, a, passed, written);
    }
  }

  lemma {:induction false} BootEarns(w: World, m: Machine, running: Option<PhaseName>, passed: iset<Byte>,
          written: set<string>)
    requires Holds(w, m) && Legal(w, m, Boot(running)) && EarnedBy(m, passed, written)
    ensures EarnedBy(Take(w, m, Boot(running)), passed, written)
  {
  }

  lemma {:induction false} CutBootEarns(w: World, m: Machine, running: Option<PhaseName>, how: Outcome, passed: iset<Byte>,
          written: set<string>)
    requires Holds(w, m) && Legal(w, m, BootCut(running, how)) && EarnedBy(m, passed, written)
    ensures EarnedBy(Take(w, m, BootCut(running, how)), passed, written)
  {
    var (d, f) := Opening(w, m.disk, m.boots, running);
    match Saved(m)
    case None =>
    case Some(st) => CutReadsEither(d, f, how);
  }

  lemma {:induction false} TurnEarns(w: World, m: Machine, t: Turn, passed: iset<Byte>, written: set<string>)
    requires Holds(w, m) && Legal(w, m, t) && EarnedBy(m, passed, written)
    ensures EarnedBy(Take(w, m, t), passed + (iset b | Passes(m, t, b)), written + Written(t))
  {
    var passed1, written1 := passed + (iset b | Passes(m, t, b)), written + Written(t);
    match t
    case Boot(running) =>
      BootEarns(w, m, running, passed, written);
      MoreIsEarned(Take(w, m, t).power.value, passed, written, passed1, written1);
    case BootCut(running, how) =>
      CutBootEarns(w, m, running, how, passed, written);
      assert passed1 == passed;
    case Act(a) =>
      MoreIsEarned(m.power.value, passed, written, passed1, written1);
      StepEarns(w, m, a, passed1, written1);
    case ActCut(a, how) =>
      MoreIsEarned(m.power.value, passed, written, passed1, written1);
      CutEarns(w, m, a, how, passed1, written1);
    case Reset =>
      assert passed1 == passed;
  }

  /**
   In any run the disk tests on record claim no more than was done: every byte below a saved
   offset was read or given up by some scan, and a write test counts as done only if some
   save found it finished.
   */
  lemma {:induction false} RecordIsEarned(w: World, turns: seq<Turn>)
    requires w.setup.Valid() && LegalRun(w, Init(), turns)
    ensures EarnedBy(Run(w, Init(), turns), Passed(w, turns), AllWritten(turns))
    ensures var saved := Saved(Run(w, Init(), turns));
      saved.Some? ==> Earned(saved.value.scans, Passed(w, turns), AllWritten(turns))
    decreases |turns|
  {
    RunKeeps(w, turns);
    if turns == [] {
    } else {
      var before := turns[..|turns| - 1];
      RunKeeps(w, before);
      RecordIsEarned(w, before);
      TurnEarns(w, Run(w, Init(), before), turns[|turns| - 1], Passed(w, before), AllWritten(before));
    }
  }

  /** A PASS means of every disk to be written that a save of this run found its write test finished. */
  lemma {:induction false} PassMeansDisksWereWritten(w: World, turns: seq<Turn>, incomplete: bool, id: string)
    requires w.setup.Valid() && LegalRun(w, Init(), turns)
    requires Theorems.Verdict(Run(w, Init(), turns), incomplete) == Pass
    requires var saved := Saved(Run(w, Init(), turns));
      saved.Some? && id in saved.value.scans && saved.value.scans[id].mode == D.WriteVerify
    ensures exists k | 0 <= k < |turns| :: id in Written(turns[k])
  {
    PassMeansClean(w, turns, incomplete);
    RecordIsEarned(w, turns);
    WrittenAtSomeTurn(turns, id);
  }

  lemma {:induction false} WrittenAtSomeTurn(turns: seq<Turn>, id: string)
    requires id in AllWritten(turns)
    ensures exists k | 0 <= k < |turns| :: id in Written(turns[k])
  {
    var before := turns[..|turns| - 1];
    if id in AllWritten(before) {
      WrittenAtSomeTurn(before, id);
      var k :| 0 <= k < |before| && id in Written(before[k]);
      assert turns[k] == before[k];
    }
  }

  /**
   A scan that a reset interrupts is taken up by the next boot at the offset last saved, if it
   was not done by then.
   */
  lemma {:induction false} InterruptedScanGoesOn(w: World, m: Machine, written: set<string>, running: Option<PhaseName>,
          id: string, write: bool)
    requires w.persistent && Holds(w, m) && m.power.Some? && m.power.value.st.status == Active
    requires var p := m.power.value;
      && id in p.scans && !p.scans[id].done && id in p.st.scans && p.st.scans[id].mode == D.ReadOnly
    requires var off := Take(w, Take(w, m, Act(SaveProgress(written))), Reset); Legal(w, off, Boot(running))
    requires id in w.disks
    ensures var off := Take(w, Take(w, m, Act(SaveProgress(written))), Reset);
      var p := Take(w, off, Boot(running)).power.value;
      var q := Starting(p, id, w.disks[id], write).mem;
      id in q.scans && q.scans[id] == S.Begun(w.disks[id].size, m.power.value.scans[id].offset)
  {
    var p := m.power.value;
    TurnKeeps(w, m, Act(SaveProgress(written)));
    var off := Take(w, Take(w, m, Act(SaveProgress(written))), Reset);
    assert Saved(off) == Some(Progressed(p.st, p.scans, written));
    TakenUpAgain(w, off, running, id, write);
  }

  lemma {:induction false} TakenUpAgain(w: World, off: Machine, running: Option<PhaseName>, id: string, write: bool)
    requires Legal(w, off, Boot(running)) && Saved(off).Some? && id in w.disks
    requires id in Saved(off).value.scans
    requires var entry := Saved(off).value.scans[id]; !entry.done && entry.mode == D.ReadOnly
    ensures var q := Starting(Take(w, off, Boot(running)).power.value, id, w.disks[id], write).mem;
      id in q.scans && q.scans[id] == S.Begun(w.disks[id].size, Saved(off).value.scans[id].offset)
  {
  }
}
