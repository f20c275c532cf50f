/** What holds of every run of a test session, with machine resets anywhere. */
module Theorems {
  import opened Wrappers
  import opened Config
  import opened RotatingStore
  import opened StoreHistory
  import opened FindingStore
  import opened TestSession
  import opened Orchestrator
  import opened Invariant
  import opened Calm
  import opened Report
  import D = DestructiveTests
  import S = SurfaceScanning

  function Verdict(m: Machine, incomplete: bool): FindingStore.Verdict {
    Result(m.disk.session.store, m.disk.findings.store, incomplete)
  }

  function Saved(m: Machine): Option<State> {
    Read(m.disk.session.store).best
  }

  lemma {:induction false} DurableIsSound(w: World, turns: seq<Turn>)
    requires w.setup.Valid() && LegalRun(w, Init(), turns)
    ensures var m := Run(w, Init(), turns);
      Saved(m).Some? ==>
        var st, durable := Saved(m).value, Durable(m.disk.findings.store);
        && Accounts(w, st, m.boots, m.past) && StartsBounded(st, m.past) && Witnessed(st, durable)
        && (st.status != Active ==> ResetsShown(st, m.past, durable, false))
  {
    RunKeeps(w, turns);
  }

  /** A session that is over without a failure had no unannounced reset, so calm held throughout. */
  lemma {:induction false} OverIsCalm(w: World, turns: seq<Turn>)
    requires w.setup.Valid() && LegalRun(w, Init(), turns)
    requires var m := Run(w, Init(), turns);
      Saved(m).Some? && Saved(m).value.status != Active && !AnyAt(Durable(m.disk.findings.store), FAIL)
    ensures var m := Run(w, Init(), turns); var st, durable := Saved(m).value, Durable(m.disk.findings.store);
      && m.past.unplanned == 0 && st.unexpected == 0 && st.disksFinished
      && (forall p | p in st.setup.plan && st.Phase(p) == Warned :: AnyWarning(durable))
      && (st.Phase(PowerCycle) == Done ==> st.cyclesDone == st.setup.Target() || AnyWarning(durable))
      && Recorded(w, st, m.past.scans, durable)
  {
    DurableIsSound(w, turns);
    RunKeeps(w, turns);
    RunKeepsCalm(w, turns);
    var m := Run(w, Init(), turns);
    if m.power.Some? {
      assert m.power.value.st == Saved(m).value && m.power.value.at == Finished;
    }
  }

  /**
   A PASS means: the session is complete, no reset went unannounced, every planned phase is
   done (none merely warned or failed), every planned reboot happened and nothing else
   rebooted, the disk tests were finished and every recorded scan and self-test succeeded.
   */
  lemma {:induction false} PassMeansClean(w: World, turns: seq<Turn>, incomplete: bool)
    requires w.setup.Valid() && LegalRun(w, Init(), turns)
    requires Verdict(Run(w, Init(), turns), incomplete) == Pass
    ensures var m := Run(w, Init(), turns);
      && Saved(m).Some?
      && var st := Saved(m).value;
         && st.status == Complete && !incomplete
         && st.unexpected == 0 && m.past.unplanned == 0
         && (forall p | p in w.setup.plan :: st.Phase(p) == Done)
         && |st.boots| == 1 + w.setup.Target()
         && st.disksFinished && (forall id | id in st.scans :: st.scans[id].done) && (forall t | t in st.selftests :: t.1)
  {
    DurableIsSound(w, turns);
    OverIsCalm(w, turns);
    var m := Run(w, Init(), turns);
    var st, durable := Saved(m).value, Durable(m.disk.findings.store);
    WarningMeansWarnOrFail(durable);
    if PowerCycle !in w.setup.plan {
      assert w.setup.Target() == 0;
    }
    assert forall p | p in w.setup.plan :: Tested(st.Phase(p)) && p in st.phases;
  }

  lemma {:induction false} WarningMeansWarnOrFail(items: Items)
    ensures AnyWarning(items) <==> AnyAt(items, FAIL) || AnyAt(items, WARN)
  {
    if AnyWarning(items) {
      var k :| k in items && items[k].severity != INFO;
      assert items[k].severity == FAIL || items[k].severity == WARN;
    }
  }

  /**
   A PASS means that every disk was tested, and every disk to be read was read completely:
   each of its bytes lies in a region that the session's one scan of it read successfully.
   */
  lemma {:induction false} PassMeansDisksWereRead(w: World, turns: seq<Turn>, incomplete: bool, id: string, byte: nat)
    requires w.setup.Valid() && LegalRun(w, Init(), turns)
    requires Verdict(Run(w, Init(), turns), incomplete) == Pass
    requires id in w.disks && byte < w.disks[id].size
    ensures var m := Run(w, Init(), turns);
      && Saved(m).Some? && id in Saved(m).value.scans && Saved(m).value.scans[id].done
      && (Saved(m).value.scans[id].mode == D.ReadOnly ==>
            && id in m.past.scans && m.past.scans[id].start == 0
            && exists e | e in m.past.scans[id].extents :: e.good && e.start <= byte < e.End())
  {
    PassMeansClean(w, turns, incomplete);
    OverIsCalm(w, turns);
    var m := Run(w, Init(), turns);
    var st := Saved(m).value;
    DurableIsSound(w, turns);
    assert w.setup.plan[0] == Inventory && st.Phase(Inventory) == Done;
    if st.scans[id].mode == D.ReadOnly {
      var s := m.past.scans[id];
      assert ThreadOk(w, id, s) && S.Clean(s);
      S.CleanScanReadEverything(s, byte);
    }
  }

  /** Every reset that no durable marker announced makes any final verdict FAIL, however many resets follow. */
  lemma {:induction false} UnplannedResetForcesFail(w: World, turns: seq<Turn>, incomplete: bool)
    requires w.setup.Valid() && LegalRun(w, Init(), turns)
    requires var m := Run(w, Init(), turns);
      m.past.unplanned > 0 && Saved(m).Some? && Saved(m).value.status != Active
    ensures Verdict(Run(w, Init(), turns), incomplete) == Fail
  {
    DurableIsSound(w, turns);
  }

  /** Accounting of every durable state: nothing is counted twice, and no planned reboot as unexpected. */
  lemma {:induction false} BootsAreAccounted(w: World, turns: seq<Turn>)
    requires w.setup.Valid() && LegalRun(w, Init(), turns) && Saved(Run(w, Init(), turns)).Some?
    ensures var m := Run(w, Init(), turns); var st := Saved(m).value;
      && |st.boots| == 1 + st.unexpected + st.cyclesDone
      && (forall i, j | 0 <= i < j < |st.boots| :: st.boots[i] < st.boots[j])
      && st.cyclesDone <= w.setup.Target()
      && st.unexpected <= m.past.unplanned
      && (!st.disksFinished ==> |st.boots| == 1 + st.unexpected)
  {
    DurableIsSound(w, turns);
  }

  /** Over all boots each stress phase's workload begins at most once. */
  lemma {:induction false} StressPhasesBeginOnce(w: World, turns: seq<Turn>)
    requires w.setup.Valid() && LegalRun(w, Init(), turns)
    ensures var stress := Run(w, Init(), turns).past.stress;
      && NoDuplicates(stress)
      && forall p | p in stress :: p in w.setup.plan && p != Inventory && p != PowerCycle
  {
    RunKeeps(w, turns);
  }

  function StressPhases(plan: seq<PhaseName>): set<PhaseName> {
    (set p | p in plan) - {Inventory, PowerCycle}
  }

  lemma {:induction false} DistinctFit<T>(s: seq<T>, bound: set<T>)
    requires NoDuplicates(s) && forall x | x in s :: x in bound
    ensures |s| <= |bound|
    decreases |s|
  {
    if s == [] {
    } else {
      var last := s[|s| - 1];
      var front := s[..|s| - 1];
      assert forall x | x in front :: x in bound - {last};
      DistinctFit(front, bound - {last});
    }
  }

  /** Work over all boots is bounded, however many resets there are. */
  lemma {:induction false} TotalStartsBounded(w: World, turns: seq<Turn>)
    requires w.setup.Valid() && LegalRun(w, Init(), turns)
    ensures var past := Run(w, Init(), turns).past;
      && past.inventory <= w.setup.maxUnexpected
      && past.powercycle <= w.setup.Target() + 1
      && StartTurns(turns) == past.Starts() <= |StressPhases(w.setup.plan)| + w.setup.maxUnexpected + w.setup.Target() + 1
  {
    StartsAreCounted(w, turns);
    RunKeeps(w, turns);
    StressPhasesBeginOnce(w, turns);
    DistinctFit(Run(w, Init(), turns).past.stress, StressPhases(w.setup.plan));
  }

  // ---------- the same, told of the turns alone

  /** After this prefix of the run the machine is off, and what is on disk is a running session without a marker. */
  ghost predicate DiedUnannounced(w: World, turns: seq<Turn>, k: nat)
    requires LegalRun(w, Init(), turns) && k < |turns|
  {
    PrefixIsLegal(w, turns, k + 1);
    var m := Run(w, Init(), turns[..k + 1]);
    m.power.None? && Saved(m).Some? && Saved(m).value.status == Active && Saved(m).value.planned.None?
  }

  lemma {:induction false} DeathIsCounted(w: World, m: Machine, t: Turn)
    requires Legal(w, m, t) && Take(w, m, t).power.None?
    requires var m' := Take(w, m, t); Saved(m').Some? && Saved(m').value.status == Active && Saved(m').value.planned.None?
    ensures Take(w, m, t).past.unplanned == m.past.unplanned + 1
  {
  }

  lemma {:induction false} CountsOnlyGrow(w: World, m: Machine, t: Turn)
    requires Legal(w, m, t)
    ensures m.past.unplanned <= Take(w, m, t).past.unplanned && m.past.stress <= Take(w, m, t).past.stress
  {
  }

  lemma {:induction false} CountsStay(w: World, turns: seq<Turn>, k: nat)
    requires LegalRun(w, Init(), turns) && k <= |turns| && LegalRun(w, Init(), turns[..k])
    ensures var (early, late) := (Run(w, Init(), turns[..k]).past, Run(w, Init(), turns).past);
      early.unplanned <= late.unplanned && early.stress <= late.stress
    decreases |turns|
  {
    if k == |turns| {
      assert turns[..k] == turns;
    } else {
      var before := turns[..|turns| - 1];
      assert before[..k] == turns[..k];
      CountsStay(w, before, k);
      CountsOnlyGrow(w, Run(w, Init(), before), turns[|turns| - 1]);
    }
  }

  /**
   Whenever in a run the machine goes down, or a boot is cut, and leaves a running session
   without a marker, the session's final verdict is FAIL, whatever happens after.
   */
  lemma {:induction false} UnannouncedResetForcesFail(w: World, turns: seq<Turn>, k: nat, incomplete: bool)
    requires w.setup.Valid() && LegalRun(w, Init(), turns) && k < |turns| && DiedUnannounced(w, turns, k)
    requires var m := Run(w, Init(), turns); Saved(m).Some? && Saved(m).value.status != Active
    ensures Verdict(Run(w, Init(), turns), incomplete) == Fail
  {
    PrefixIsLegal(w, turns, k + 1);
    DeathAtLast(w, turns[..k + 1]);
    CountsStay(w, turns, k + 1);
    UnplannedResetForcesFail(w, turns, incomplete);
  }

  lemma {:induction false} DeathAtLast(w: World, turns: seq<Turn>)
    requires turns != [] && LegalRun(w, Init(), turns)
    requires var m := Run(w, Init(), turns);
      m.power.None? && Saved(m).Some? && Saved(m).value.status == Active && Saved(m).value.planned.None?
    ensures Run(w, Init(), turns).past.unplanned > 0
  {
    DeathIsCounted(w, Run(w, Init(), turns[..|turns| - 1]), turns[|turns| - 1]);
  }

  /** In this turn the main thread begins the workload of a phase. */
  ghost predicate BeginsPhase(w: World, turns: seq<Turn>, k: nat, name: PhaseName)
    requires LegalRun(w, Init(), turns) && k < |turns|
  {
    PrefixIsLegal(w, turns, k);
    var m := Run(w, Init(), turns[..k]);
    && turns[k] == Act(Start) && m.power.Some? && m.power.value.at.Looping?
    && m.power.value.at.i < |m.power.value.st.setup.plan| && m.power.value.st.setup.plan[m.power.value.at.i] == name
  }

  lemma {:induction false} BeginningIsCounted(w: World, turns: seq<Turn>, k: nat, name: PhaseName)
    requires LegalRun(w, Init(), turns) && k < |turns| && BeginsPhase(w, turns, k, name)
    requires name != Inventory && name != PowerCycle
    ensures LegalRun(w, Init(), turns[..k]) && LegalRun(w, Init(), turns[..k + 1])
    ensures Run(w, Init(), turns[..k + 1]).past.stress == Run(w, Init(), turns[..k]).past.stress + [name]
  {
    PrefixIsLegal(w, turns, k + 1);
    PrefixIsLegal(w, turns, k);
    var upTo := turns[..k + 1];
    assert upTo[..|upTo| - 1] == turns[..k] && upTo[|upTo| - 1] == turns[k];
    assert Run(w, Init(), upTo) == Take(w, Run(w, Init(), turns[..k]), turns[k]);
  }

  /** The stress phases begun within the first `k` turns. */
  ghost function Begun(w: World, turns: seq<Turn>, k: nat): seq<PhaseName>
    requires LegalRun(w, Init(), turns) && k <= |turns|
  {
    PrefixIsLegal(w, turns, k);
    Run(w, Init(), turns[..k]).past.stress
  }

  lemma {:induction false} BegunGrows(w: World, turns: seq<Turn>, k: nat, l: nat)
    requires LegalRun(w, Init(), turns) && k <= l <= |turns|
    ensures Begun(w, turns, k) <= Begun(w, turns, l)
  {
    PrefixIsLegal(w, turns, k);
    PrefixIsLegal(w, turns, l);
    assert turns[..l][..k] == turns[..k];
    CountsStay(w, turns[..l], k);
  }

  lemma {:induction false} BegunNext(w: World, turns: seq<Turn>, k: nat, name: PhaseName)
    requires w.setup.Valid() && LegalRun(w, Init(), turns) && k < |turns| && BeginsPhase(w, turns, k, name)
    requires name != Inventory && name != PowerCycle
    ensures Begun(w, turns, k + 1) == Begun(w, turns, k) + [name] && NoDuplicates(Begun(w, turns, k + 1))
  {
    BeginningIsCounted(w, turns, k, name);
    StressPhasesBeginOnce(w, turns[..k + 1]);
  }

  lemma {:induction false} NotTwice<T>(a: seq<T>, b: seq<T>, x: T)
    requires a + [x] <= b
    ensures !NoDuplicates(b + [x])
  {
    assert (b + [x])[|a|] == (a + [x])[|a|] == x && (b + [x])[|b|] == x;
  }

  /** No two turns of a run, in whatever boots, begin the workload of the same stress phase. */
  lemma {:induction false} NoStressPhaseBeginsTwice(w: World, turns: seq<Turn>, k: nat, l: nat, name: PhaseName)
    requires w.setup.Valid() && LegalRun(w, Init(), turns) && k < l < |turns|
    requires BeginsPhase(w, turns, k, name) && BeginsPhase(w, turns, l, name)
    ensures name == Inventory || name == PowerCycle
  {
    if name != Inventory && name != PowerCycle {
      BegunNext(w, turns, k, name);
      BegunNext(w, turns, l, name);
      BegunGrows(w, turns, k + 1, l);
      NotTwice(Begun(w, turns, k), Begun(w, turns, l), name);
    }
  }

  function StartTurns(turns: seq<Turn>): nat {
    if turns == [] then 0 else StartTurns(turns[..|turns| - 1]) + if turns[|turns| - 1] == Act(Start) then 1 else 0
  }

  lemma {:induction false} StartsAreCounted(w: World, turns: seq<Turn>)
    requires LegalRun(w, Init(), turns)
    ensures Run(w, Init(), turns).past.Starts() == StartTurns(turns)
    decreases |turns|
  {
    if turns == [] {
    } else {
      StartsAreCounted(w, turns[..|turns| - 1]);
    }
  }

  // ---------- without persistent storage

  ghost predicate NeverAsks(m: Machine) {
    m.power.Some? ==> !m.power.value.rebooting && !Rebooting(m.power.value.at)
  }

  lemma {:induction false} OthersNeverAsk(w: World, m: Process, a: Action)
    requires Enabled(m, a) && !w.persistent && !m.rebooting && !Rebooting(m.at)
    ensures !After(w, m, a).mem.rebooting && !Rebooting(After(w, m, a).mem.at)
  {
    if TouchesFindingsOnly(w, m, a) {
      FindingsMoveOn(w, m, a);
    } else if Notes(a) {
      NotesShape(w, m, a);
    }
  }

  /** A machine that would lose its memory with the power is never told to reboot: the test would begin anew for ever. */
  lemma {:induction false} NoRebootWithoutStorage(w: World, turns: seq<Turn>)
    requires !w.persistent && LegalRun(w, Init(), turns)
    ensures NeverAsks(Run(w, Init(), turns))
    decreases |turns|
  {
    if turns == [] {
    } else {
      var before, t := turns[..|turns| - 1], turns[|turns| - 1];
      NoRebootWithoutStorage(w, before);
      if t.Act? {
        OthersNeverAsk(w, Run(w, Init(), before).power.value, t.action);
      }
    }
  }

  // ---------- what a phase ends with

  /** The status of a phase whose workload returned tells of its findings, the worst first. */
  lemma {:induction false} EndStatusTells(items: Items, name: PhaseName, abort: bool)
    ensures var s := EndStatus(items, name, abort);
      && (s == Aborted <==> abort)
      && (s == Errored <==> !abort && exists k | k in items :: items[k].phase == Some(name) && items[k].incomplete)
      && (s == Failed || s == Warned || s == Done <==>
            !abort && forall k | k in items && items[k].phase == Some(name) :: !items[k].incomplete)
      && (s == Failed ==> exists k | k in items :: items[k].phase == Some(name) && items[k].severity == FAIL)
      && (s == Warned ==>
            && (exists k | k in items :: items[k].phase == Some(name) && items[k].severity == WARN)
            && forall k | k in items && items[k].phase == Some(name) :: items[k].severity != FAIL)
      && (s == Done ==> forall k | k in items && items[k].phase == Some(name) :: items[k].severity == INFO)
  {
    assert forall k | k in items :: items[k].severity == FAIL || items[k].severity == WARN || items[k].severity == INFO;
  }

  // ---------- the moment of a planned reboot

  /** A slot that resumes as the planned reboot of `st`. */
  predicate Armed(s: Slot<State>, st: State) {
    && s.Copy? && s.data == st.(scans := s.data.scans, selftests := s.data.selftests, selKnown := s.data.selKnown)
    && st.planned == Some(st.cyclesDone + 1) && st.Phase(PowerCycle) == Pending && st.status == Active
  }

  ghost predicate BothArmed(m: Machine) {
    m.power.Some? && m.power.value.at == RebootIssued ==>
      && Armed(m.disk.session.store.even, m.power.value.st)
      && Armed(m.disk.session.store.odd, m.power.value.st)
  }

  /** A save leaves the newest copy where it was and puts the new state beside it. */
  lemma {:induction false} SaveKeepsNewestBeside(d: Disk, m: Process, st: State)
    requires SessionOk(d, m)
    ensures var store := Step(d.session, StoreHistory.Saved(st)).store;
      || (store.even == Copy(m.st, d.session.num) && store.odd == Copy(st, d.session.num + 1))
      || (store.odd == Copy(m.st, d.session.num) && store.even == Copy(st, d.session.num + 1))
  {
  }

  lemma {:induction false} OthersStay(w: World, m: Process, a: Action)
    requires Enabled(m, a) && OffMainThread(a)
    ensures var m1 := After(w, m, a).mem; m1.st == m.st && m1.rebooting == m.rebooting && m1.at == m.at
  {
  }

  lemma {:induction false} FindingsMoveOn(w: World, m: Process, a: Action)
    requires Enabled(m, a) && TouchesFindingsOnly(w, m, a)
    ensures var m1 := After(w, m, a).mem;
      m1.st == m.st && m1.rebooting == m.rebooting && (m1.at == m.at || MovesOn(m, m1))
  {
    if OffMainThread(a) {
      OthersStay(w, m, a);
    }
  }

  /** While the reboot is being issued, only disk progress changes in the state. */
  lemma {:induction false} StateAtReboot(w: World, m: Process, a: Action)
    requires Enabled(m, a) && After(w, m, a).mem.at == RebootIssued
    ensures m.at == RebootIssued || m.at == Place.Synced
    ensures m.at == Place.Synced ==> After(w, m, a).write == SaveState
    ensures var st := After(w, m, a).mem.st; st == m.st.(scans := st.scans, selftests := st.selftests, selKnown := st.selKnown)
    ensures After(w, m, a).write == SaveState || After(w, m, a).mem.st == m.st
  {
    if TouchesFindingsOnly(w, m, a) {
      FindingsMoveOn(w, m, a);
    } else if Notes(a) {
      NotesShape(w, m, a);
    }
  }

  lemma {:induction false} SavingArms(w: World, d: Disk, m: Process, st: State)
    requires SessionOk(d, m) && m.st == st.(scans := m.st.scans, selftests := m.st.selftests, selKnown := m.st.selKnown)
    requires st.planned == Some(st.cyclesDone + 1) && st.Phase(PowerCycle) == Pending && st.status == Active
    ensures var store := Step(d.session, StoreHistory.Saved(st)).store; Armed(store.even, st) && Armed(store.odd, st)
  {
    SaveKeepsNewestBeside(d, m, st);
  }

  lemma {:induction false} ArmingKeeps(w: World, m: Machine, t: Turn)
    requires Holds(w, m) && BothArmed(m) && Legal(w, m, t)
    ensures BothArmed(Take(w, m, t))
  {
    if t.Act? && After(w, m.power.value, t.action).mem.at == RebootIssued {
      var p := m.power.value;
      var f := After(w, p, t.action);
      StateAtReboot(w, p, t.action);
      if f.write == SaveState {
        SavingArms(w, m.disk, p, f.mem.st);
      }
    }
  }

  lemma {:induction false} AlwaysArmed(w: World, turns: seq<Turn>)
    requires w.setup.Valid() && LegalRun(w, Init(), turns)
    ensures BothArmed(Run(w, Init(), turns))
    decreases |turns|
  {
    if turns == [] {
    } else {
      var before := turns[..|turns| - 1];
      RunKeeps(w, before);
      AlwaysArmed(w, before);
      ArmingKeeps(w, Run(w, Init(), before), turns[|turns| - 1]);
    }
  }

  /** Which slot a power cut spoils, if any. */
  datatype Loss = Neither | Even | Odd

  function Spoiled(store: Store<State>, loss: Loss): Store<State> {
    match loss
    case Neither => store
    case Even => store.(even := Unreadable)
    case Odd => store.(odd := Unreadable)
  }

  /**
   Once the machine has been told to reboot, the next boot resumes as planned even if
   either slot is lost: no unexpected reboot is counted, the cycle count advances by one,
   and the power cycle phase is pending.
   */
  lemma {:induction false} PlannedRebootSurvivesLosingASlot(w: World, turns: seq<Turn>, loss: Loss)
    requires w.setup.Valid() && LegalRun(w, Init(), turns)
    requires var m := Run(w, Init(), turns); m.power.Some? && m.power.value.at == RebootIssued
    ensures var m := Run(w, Init(), turns); var was := m.power.value.st;
      var found := Read(Spoiled(m.disk.session.store, loss)).best;
      && found.Some?
      && var r := Resume(found.value, m.boots);
         && r.planned && !r.unexpected && !r.restart
         && r.st.unexpected == was.unexpected && r.st.cyclesDone == was.cyclesDone + 1
         && r.st.boots == was.boots + [m.boots] && r.st.Phase(PowerCycle) == Pending && r.st.planned.None?
  {
    AlwaysArmed(w, turns);
    RunKeeps(w, turns);
    var m := Run(w, Init(), turns);
    var found := Read(Spoiled(m.disk.session.store, loss)).best;
    assert found == Some(m.disk.session.store.even.data) || found == Some(m.disk.session.store.odd.data);
    assert m.power.value.st.boots[|m.power.value.st.boots| - 1] < m.boots;
  }

  // ---------- a failure that was recorded

  /** The session is on disk, and so is a failure. */
  ghost predicate FailedOnDisk(m: Machine) {
    Saved(m).Some? && AnyAt(Durable(m.disk.findings.store), FAIL)
  }

  lemma {:induction false} ActionKeepsFailure(w: World, m: Machine, a: Action)
    requires Holds(w, m) && m.power.Some? && Enabled(m.power.value, a)
    requires AnyAt(Durable(m.disk.findings.store), FAIL)
    ensures var d := Stored(m.disk, After(w, m.power.value, a));
      Read(d.session.store).best.Some? && AnyAt(Durable(d.findings.store), FAIL)
  {
    ActionsKeepUp(w, m.disk, m.power.value, m.boots, m.past, a);
    StoredIsWorse(w, m.disk, m.power.value, m.boots, m.past, a);
    WorseItemsKeepFailure(Durable(m.disk.findings.store), Durable(Stored(m.disk, After(w, m.power.value, a)).findings.store));
  }

  lemma {:induction false} CutKeepsFailure(w: World, m: Machine, f: Effect, how: Outcome)
    requires Holds(w, m) && FailedOnDisk(m)
    requires Fine(m.disk.session)
    requires var d := Stored(m.disk, f); Read(d.session.store).best.Some? && AnyAt(Durable(d.findings.store), FAIL)
    ensures var d := CutShort(m.disk, f, how); Read(d.session.store).best.Some? && AnyAt(Durable(d.findings.store), FAIL)
  {
    CutReadsOldOrEqualsNew(m.disk, f, how);
  }

  lemma {:induction false} BootKeepsFailure(w: World, m: Machine, running: Option<PhaseName>)
    requires Holds(w, m) && m.power.None? && Resumable(m.disk, running) && FailedOnDisk(m)
    ensures var (d, f) := Opening(w, m.disk, m.boots, running);
      d == m.disk && Read(Stored(d, f).session.store).best.Some? && AnyAt(Durable(Stored(d, f).findings.store), FAIL)
  {
    BootIsUp(w, m.disk, m.boots, m.past, running);
  }

  lemma {:induction false} FailureStays(w: World, m: Machine, t: Turn)
    requires Holds(w, m) && FailedOnDisk(m) && Legal(w, m, t)
    ensures FailedOnDisk(Take(w, m, t))
  {
    match t
    case Boot(running) => BootKeepsFailure(w, m, running);
    case BootCut(running, how) =>
      BootKeepsFailure(w, m, running);
      CutKeepsFailure(w, m, Opening(w, m.disk, m.boots, running).1, how);
    case Act(a) => ActionKeepsFailure(w, m, a);
    case ActCut(a, how) =>
      ActionKeepsFailure(w, m, a);
      CutKeepsFailure(w, m, After(w, m.power.value, a), how);
    case Reset =>
  }

  lemma {:induction false} FailureStaysForGood(w: World, turns: seq<Turn>, k: nat)
    requires w.setup.Valid() && k <= |turns| && LegalRun(w, Init(), turns) && LegalRun(w, Init(), turns[..k])
    requires FailedOnDisk(Run(w, Init(), turns[..k]))
    ensures FailedOnDisk(Run(w, Init(), turns))
    decreases |turns|
  {
    if k == |turns| {
      assert turns[..k] == turns;
    } else {
      var before := turns[..|turns| - 1];
      assert before[..k] == turns[..k];
      RunKeeps(w, before);
      FailureStaysForGood(w, before, k);
      FailureStays(w, Run(w, Init(), before), turns[|turns| - 1]);
    }
  }

  /** Adding a failure writes it at once. */
  lemma {:induction false} ObservingFails(w: World, m: Machine, key: Key, e: Event)
    requires Holds(w, m) && Legal(w, m, Act(Observe(key, e))) && e.severity == FAIL
    ensures FailedOnDisk(Take(w, m, Act(Observe(key, e))))
  {
    var p := m.power.value;
    AddingKeepsLedger(m.disk, p, key, e);
  }

  lemma {:induction false} FailsAtTurn(w: World, turns: seq<Turn>, k: nat)
    requires w.setup.Valid() && LegalRun(w, Init(), turns) && k < |turns|
    requires turns[k].Act? && turns[k].action.Observe? && turns[k].action.event.severity == FAIL
    ensures LegalRun(w, Init(), turns[..k + 1]) && FailedOnDisk(Run(w, Init(), turns[..k + 1]))
  {
    PrefixIsLegal(w, turns, k + 1);
    var upTo := turns[..k + 1];
    assert upTo[..|upTo| - 1] == turns[..k] && upTo[|upTo| - 1] == turns[k];
    var m := Run(w, Init(), turns[..k]);
    RunKeeps(w, turns[..k]);
    ObservingFails(w, m, turns[k].action.key, turns[k].action.event);
    assert Run(w, Init(), upTo) == Take(w, m, turns[k]);
  }

  /**
   A failure reported by anyone at any time decides the verdict: whatever resets and
   resumes follow the call, every later verdict is FAIL.
   */
  lemma {:induction false} ReportedFailureForcesFail(w: World, turns: seq<Turn>, k: nat, incomplete: bool)
    requires w.setup.Valid() && LegalRun(w, Init(), turns) && k < |turns|
    requires turns[k].Act? && turns[k].action.Observe? && turns[k].action.event.severity == FAIL
    ensures Verdict(Run(w, Init(), turns), incomplete) == Fail
  {
    FailsAtTurn(w, turns, k);
    FailureStaysForGood(w, turns, k + 1);
  }

  // ---------- when a planned reboot resumes

  /**
   The save that makes the power cycle phase pending again had reached the disk when the
   machine last went down with the marker: the process was past it, or the reset hit inside
   that very save and left the new copy. A boot that was cut before its save changed nothing.
   */
  ghost predicate Rearmed(w: World, turns: seq<Turn>)
    requires LegalRun(w, Init(), turns)
  {
    turns != [] &&
    var before, last := turns[..|turns| - 1], turns[|turns| - 1];
    var m := Run(w, Init(), before);
    match last
    case Reset => Rebooting(m.power.value.at)
    case ActCut(a, how) => Rebooting(m.power.value.at) || (a == Settle && m.power.value.rebooting && how == WroteNew)
    case BootCut(_, how) => how != WroteNew && Rearmed(w, before)
    case _ => false
  }

  /** Of a process that asked for a reboot, the phase is pending exactly past that save. */
  lemma {:induction false} PendingPastSettling(w: World, m: Machine)
    requires Holds(w, m) && m.power.Some? && m.power.value.st.planned.Some?
    ensures var p := m.power.value;
      && Saved(m) == Some(p.st) && p.rebooting
      && p.st.Phase(PowerCycle) == if Rebooting(p.at) then Pending else Running
  {
  }

  lemma {:induction false} CutSaves(w: World, m: Machine, a: Action, how: Outcome)
    requires Holds(w, m) && Legal(w, m, ActCut(a, how))
    ensures var f := After(w, m.power.value, a);
      Saved(Take(w, m, ActCut(a, how))) == if f.write == SaveState && how == WroteNew then Some(f.mem.st) else Saved(m)
  {
    EffectCutSaves(m.disk, After(w, m.power.value, a), how);
  }

  lemma {:induction false} EffectCutSaves(d: Disk, f: Effect, how: Outcome)
    requires Fine(d.session)
    ensures Read(CutShort(d, f, how).session.store).best ==
      if f.write == SaveState && how == WroteNew then Some(f.mem.st) else Read(d.session.store).best
  {
    if f.write == SaveState {
      CutIsOldOrNew(d.session.store, f.mem.st, how);
    }
  }

  lemma {:induction false} SettleSaves(w: World, p: Process)
    requires Enabled(p, Settle)
    ensures After(w, p, Settle).write == SaveState
  {
  }

  lemma {:induction false} CutWhileRebooting(w: World, m: Machine, a: Action, how: Outcome)
    requires Holds(w, m) && Legal(w, m, ActCut(a, how))
    requires var m' := Take(w, m, ActCut(a, how)); Saved(m').Some? && Saved(m').value.planned.Some?
    ensures var p, st := m.power.value, Saved(Take(w, m, ActCut(a, how))).value;
      st.Phase(PowerCycle) ==
        if Rebooting(p.at) || (a == Settle && p.rebooting && how == WroteNew) then Pending else Running
  {
    var p := m.power.value;
    CutSaves(w, m, a, how);
    if a == Settle {
      SettleSaves(w, p);
    }
    if After(w, p, a).write == SaveState && how == WroteNew {
      ActionsKeepUp(w, m.disk, p, m.boots, m.past, a);
      SavedWhileRebooting(w, m.disk, p, m.boots, m.past, a);
    } else {
      PendingPastSettling(w, m);
    }
  }

  lemma {:induction false} FindingsKeepRebooting(w: World, p: Process, a: Action)
    requires Enabled(p, a) && TouchesFindingsOnly(w, p, a)
    ensures Rebooting(After(w, p, a).mem.at) <==> Rebooting(p.at)
  {
    FindingsMoveOn(w, p, a);
  }

  lemma {:induction false} OnlySettlingRearms(w: World, p: Process, a: Action)
    requires Enabled(p, a) && Control(p)
    ensures Rebooting(After(w, p, a).mem.at) <==> Rebooting(p.at) || (a == Settle && p.rebooting)
  {
    if TouchesFindingsOnly(w, p, a) {
      FindingsKeepRebooting(w, p, a);
    } else if Notes(a) {
      NotesShape(w, p, a);
    }
  }

  lemma {:induction false} SavedWhileRebooting(w: World, d: Disk, p: Process, boots: nat, past: Past, a: Action)
    requires Up(w, d, p, boots, past) && Enabled(p, a) && After(w, p, a).mem.st.planned.Some?
    requires Up(w, Stored(d, After(w, p, a)), After(w, p, a).mem, boots, CountStart(past, p, a))
    ensures After(w, p, a).mem.st.Phase(PowerCycle) ==
      if Rebooting(p.at) || (a == Settle && p.rebooting) then Pending else Running
  {
    OnlySettlingRearms(w, p, a);
    ControlMarks(After(w, p, a).mem);
  }

  lemma {:induction false} ControlMarks(p: Process)
    requires Control(p) && p.st.planned.Some?
    ensures p.st.Phase(PowerCycle) == if Rebooting(p.at) then Pending else Running
  {
  }

  /**
   Whenever the machine is off and a marker is on disk, the next boot is taken for the
   planned one; and it finds the power cycle phase pending, so that it goes on with the
   cycles, if and only if the save that made it pending again was durable.
   */
  lemma {:induction false} PlannedRebootResumesIff(w: World, turns: seq<Turn>)
    requires w.setup.Valid() && LegalRun(w, Init(), turns)
    requires var m := Run(w, Init(), turns); m.power.None? && Saved(m).Some? && Saved(m).value.planned.Some?
    ensures var m := Run(w, Init(), turns); var st := Saved(m).value;
      var r := Resume(st, m.boots);
      && r.planned && !r.unexpected && !r.restart && r.st.cyclesDone == st.cyclesDone + 1
      && r.st.Phase(PowerCycle) == if Rearmed(w, turns) then Pending else Running
  {
    var m := Run(w, Init(), turns);
    RunKeeps(w, turns);
    MarkedPhase(w, turns);
    ResumesMarked(w, m, Rearmed(w, turns));
  }

  lemma {:induction false} ResumesMarked(w: World, m: Machine, rearmed: bool)
    requires Holds(w, m) && m.power.None? && Saved(m).Some? && Saved(m).value.planned.Some?
    requires Saved(m).value.Phase(PowerCycle) == if rearmed then Pending else Running
    ensures var st := Saved(m).value; var r := Resume(st, m.boots);
      && r.planned && !r.unexpected && !r.restart && r.st.cyclesDone == st.cyclesDone + 1
      && r.st.Phase(PowerCycle) == if rearmed then Pending else Running
  {
    MarkedAndOff(w, m);
    ResumesAsPlanned(Saved(m).value, m.boots);
  }

  lemma {:induction false} MarkedAndOff(w: World, m: Machine)
    requires Holds(w, m) && m.power.None? && Saved(m).Some? && Saved(m).value.planned.Some?
    ensures var st := Saved(m).value;
      st.planned == Some(st.cyclesDone + 1) && st.boots != [] && st.boots[|st.boots| - 1] < m.boots
  {
  }

  lemma {:induction false} ResumesAsPlanned(st: State, boots: nat)
    requires st.planned == Some(st.cyclesDone + 1) && st.boots != [] && st.boots[|st.boots| - 1] < boots
    ensures var r := Resume(st, boots);
      && r.planned && !r.unexpected && !r.restart && r.st.cyclesDone == st.cyclesDone + 1
      && forall name :: r.st.Phase(name) == st.Phase(name)
  {
  }

  /** What the phase is while the marker is on disk and the machine is off. */
  lemma {:induction false} MarkedPhase(w: World, turns: seq<Turn>)
    requires w.setup.Valid() && LegalRun(w, Init(), turns)
    requires var m := Run(w, Init(), turns); m.power.None? && Saved(m).Some? && Saved(m).value.planned.Some?
    ensures Saved(Run(w, Init(), turns)).value.Phase(PowerCycle) == if Rearmed(w, turns) then Pending else Running
    decreases |turns|
  {
    if turns == [] {
    } else {
      var before, last := turns[..|turns| - 1], turns[|turns| - 1];
      var m0 := Run(w, Init(), before);
      RunKeeps(w, before);
      match last {
        case Reset => PendingPastSettling(w, m0);
        case ActCut(a, how) => CutWhileRebooting(w, m0, a, how);
        case BootCut(running, how) =>
          CutBootKeepsMarker(w, m0, running, how);
          MarkedPhase(w, before);
      }
    }
  }

  /** A cut boot leaves a marker only by leaving the old copy. */
  lemma {:induction false} CutBootKeepsMarker(w: World, m: Machine, running: Option<PhaseName>, how: Outcome)
    requires Holds(w, m) && Legal(w, m, BootCut(running, how))
    requires var m' := Take(w, m, BootCut(running, how)); Saved(m').Some? && Saved(m').value.planned.Some?
    ensures how != WroteNew && Saved(Take(w, m, BootCut(running, how))) == Saved(m)
  {
    match Read(m.disk.session.store).best
    case None =>
    case Some(st) => CutIsOldOrNew(m.disk.session.store, Resume(st, m.boots).st, how);
  }

  // ---------- a reset between the reboot marker and the re-armed phase

  /** The power cycle phase is marked running although nothing will run or settle it. */
  ghost predicate Orphaned(st: State, at: Place) {
    && st.Phase(PowerCycle) == Running && st.planned.None? && !Reporting(at).UnexpectedReset?
    && !((at.InPhase? || at.Erred? || at.Returned?) && at.i < |st.setup.plan| && st.setup.plan[at.i] == PowerCycle)
  }

  /** The session has lost its remaining reboot cycles, or has been reset unannounced since. */
  ghost predicate Lost(m: Machine) {
    || m.past.unplanned > 0
    || match m.power
       case Some(p) => Orphaned(p.st, p.at)
       case None => Saved(m).Some? && Saved(m).value.status != Active && Saved(m).value.Phase(PowerCycle) == Running
  }

  lemma {:induction false} OrphanStaysAtSetters(w: World, m: Process, a: Action)
    requires Enabled(m, a) && Orphaned(m.st, m.at) && SetsPhase(a)
    ensures var m' := After(w, m, a).mem; Orphaned(m'.st, m'.at)
  {
  }

  lemma {:induction false} OrphanStays(w: World, m: Process, a: Action)
    requires Enabled(m, a) && Orphaned(m.st, m.at)
    ensures var m' := After(w, m, a).mem; Orphaned(m'.st, m'.at)
  {
    if TouchesFindingsOnly(w, m, a) {
      FindingsMoveOn(w, m, a);
    } else if Notes(a) {
      NotesShape(w, m, a);
    } else if SetsPhase(a) {
      OrphanStaysAtSetters(w, m, a);
    } else if MovesOnly(a) {
      MoverShape(w, m, a);
    }
  }

  lemma {:induction false} CutReadsEither(d: Disk, f: Effect, how: Outcome)
    requires Fine(d.session) && Fine(d.findings)
    ensures var c := CutShort(d, f, how);
      Read(c.session.store).best == Read(d.session.store).best || Read(c.session.store).best == Some(f.mem.st)
  {
    if f.write == SaveState {
      CutIsOldOrNew(d.session.store, f.mem.st, how);
    }
  }

  lemma {:induction false} LostStays(w: World, m: Machine, t: Turn)
    requires Holds(w, m) && Lost(m) && Legal(w, m, t)
    ensures Lost(Take(w, m, t))
  {
    if m.past.unplanned == 0 {
      if t.Act? || t.ActCut? {
        OrphanStays(w, m.power.value, t.action);
      }
      if t.ActCut? {
        CutReadsEither(m.disk, After(w, m.power.value, t.action), t.how);
      }
    }
  }

  lemma {:induction false} PrefixIsLegal(w: World, turns: seq<Turn>, k: nat)
    requires k <= |turns| && LegalRun(w, Init(), turns)
    ensures LegalRun(w, Init(), turns[..k])
    decreases |turns|
  {
    if k < |turns| {
      PrefixIsLegal(w, turns[..|turns| - 1], k);
      assert turns[..|turns| - 1][..k] == turns[..k];
    } else {
      assert turns[..k] == turns;
    }
  }

  lemma {:induction false} LostForGood(w: World, turns: seq<Turn>, k: nat)
    requires w.setup.Valid() && k <= |turns| && LegalRun(w, Init(), turns) && LegalRun(w, Init(), turns[..k])
    requires Lost(Run(w, Init(), turns[..k]))
    ensures Lost(Run(w, Init(), turns))
    decreases |turns|
  {
    if k == |turns| {
      assert turns[..k] == turns;
    } else {
      var before := turns[..|turns| - 1];
      assert before[..k] == turns[..k];
      RunKeeps(w, before);
      LostForGood(w, before, k);
      LostStays(w, Run(w, Init(), before), turns[|turns| - 1]);
    }
  }

  /**
   The marker is saved before the phase is pending again. A reset between the two saves
   is taken for the planned one, but finds the phase running: it is passed over, the
   remaining cycles are lost, and the session can no longer PASS, whatever follows.
   */
  lemma {:induction false} TornRebootRequestCannotPass(w: World, turns: seq<Turn>, k: nat, incomplete: bool)
    requires w.setup.Valid() && k <= |turns| && LegalRun(w, Init(), turns) && LegalRun(w, Init(), turns[..k])
    requires PowerCycle in w.setup.plan
    requires var m := Run(w, Init(), turns[..k]);
      && m.power.Some? && m.power.value.at == Booted(PlannedReboot)
      && m.power.value.st.Phase(PowerCycle) == Running
    ensures Verdict(Run(w, Init(), turns), incomplete) != Pass
  {
    var m := Run(w, Init(), turns);
    RunKeeps(w, turns[..k]);
    LostForGood(w, turns, k);
    if Verdict(m, incomplete) == Pass {
      PassMeansClean(w, turns, incomplete);
      RunKeeps(w, turns);
    }
  }
}
