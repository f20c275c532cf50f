/** What every step of the multi-boot run keeps, while the machine is up and while it is down. */
module Invariant {
  import opened Wrappers
  import opened Config
  import opened RotatingStore
  import opened StoreHistory
  import opened FindingStore
  import opened TestSession
  import opened Orchestrator
  import S = SurfaceScanning

  ghost predicate Increasing(boots: seq<nat>, bound: nat) {
    && (forall i, j | 0 <= i < j < |boots| :: boots[i] < boots[j])
    && (forall i | 0 <= i < |boots| :: boots[i] < bound)
  }

  /** Reset accounting of a session state. */
  ghost predicate Accounts(w: World, st: State, boots: nat, past: Past) {
    && st.setup == w.setup && w.setup.Valid()
    && |st.boots| == 1 + st.unexpected + st.cyclesDone
    && Increasing(st.boots, boots)
    && st.cyclesDone <= st.setup.Target()
    && (st.planned.Some? ==>
          && st.planned.value == st.cyclesDone + 1 <= st.setup.Target()
          && st.disksFinished && st.status == Active)
    && (st.cyclesDone > 0 || st.status != Active ==> st.disksFinished)
    && (forall p :: p in st.phases <==> p in st.setup.plan)
    && st.unexpected <= past.unplanned
  }

  /** How often workloads have begun, against the statuses that stop them from beginning again. */
  ghost predicate StartsBounded(st: State, past: Past) {
    && NoDuplicates(past.stress)
    && (forall p | p in past.stress ::
          p in st.setup.plan && p != Inventory && p != PowerCycle && st.Phase(p) != Pending)
    && past.inventory <= st.unexpected + (if st.Phase(Inventory) == Pending then 0 else 1)
    && past.inventory <= st.setup.maxUnexpected
    && past.powercycle <= st.cyclesDone + (if st.Phase(PowerCycle) == Pending && st.planned.None? then 0 else 1)
    && past.powercycle <= st.setup.Target() + 1
  }

  /** A phase that failed has left a failure behind on disk. */
  ghost predicate Witnessed(st: State, durable: Items) {
    !AnyAt(durable, FAIL) ==> forall p | p in st.phases :: st.phases[p] != Failed
  }

  /** Resets have left a failure on disk, or the coming incident report will. */
  ghost predicate ResetsShown(st: State, past: Past, durable: Items, reportDue: bool) {
    st.unexpected > 0 || past.unplanned > 0 ==> AnyAt(durable, FAIL) || reportDue
  }

  /** A document whose newest copy is readable and whose counter belongs to it. */
  ghost predicate Fine<T>(v: Writer<T>) {
    Parity(v.store) && v.num == Read(v.store).num
  }

  function LedgerOf(d: Disk, m: Process): Ledger {
    Ledger(m.items, m.dirty, d.findings.num, d.findings.store)
  }

  /** Memory and the findings on disk between actions. */
  ghost predicate LedgerOk(d: Disk, m: Process) {
    FindingStore.Synced(LedgerOf(d, m))
  }

  /** Memory and the session on disk between actions. */
  ghost predicate SessionOk(d: Disk, m: Process) {
    Fine(d.session) && d.session.store.legacy.Unreadable? && Read(d.session.store).best == Some(m.st)
  }

  predicate Rebooting(at: Place) {
    at == Settled || at == Place.Synced || at == RebootIssued
  }

  /** What is known at each place of the program. */
  ghost predicate Control(m: Process) {
    var plan := m.st.setup.plan;
    && (m.at.InPhase? || m.at.Erred? || m.at.Returned? ==> m.at.i < |plan| && m.st.Phase(plan[m.at.i]) == Running)
    && (m.rebooting <==> m.st.planned.Some?)
    && (m.rebooting ==> Rebooting(m.at) || (m.at.Returned? && plan[m.at.i] == PowerCycle))
    && (Rebooting(m.at) ==> m.rebooting && m.st.Phase(PowerCycle) == Pending)
    && (m.st.status == Active <==> m.at != Finished)
    && (m.at.Closed? ==> m.st.disksFinished)
    && (m.at.InPhase? && plan[m.at.i] == PowerCycle ==> m.st.disksFinished)
    && (Reporting(m.at).UnexpectedReset? ==>
          && m.st.unexpected > 0
          && (Reporting(m.at).running.Some? ==> Reporting(m.at).running.value in m.st.phases))
  }

  /** The cause a booted process has yet to deal with. */
  function Reporting(at: Place): Cause {
    match at case Booted(c) => c case Noted(c) => c case _ => NewSession
  }

  /** An unexpected reset is known to this process but not yet among its findings. */
  predicate IncidentDue(at: Place) {
    at.Booted? && at.cause.UnexpectedReset?
  }

  /** While an unexpected boot has not yet dealt with the interrupted phase, inventory may begin again. */
  ghost predicate InventoryMayRestart(m: Process, past: Past) {
    Reporting(m.at).UnexpectedReset? ==> past.inventory <= m.st.unexpected
  }

  /** All that is known besides how the stores relate to memory. */
  ghost predicate Sound(w: World, m: Process, durable: Items, boots: nat, past: Past) {
    && Accounts(w, m.st, boots, past)
    && StartsBounded(m.st, past)
    && Witnessed(m.st, durable)
    && ResetsShown(m.st, past, durable, IncidentDue(m.at))
    && Control(m)
    && InventoryMayRestart(m, past)
  }

  ghost predicate Up(w: World, d: Disk, m: Process, boots: nat, past: Past) {
    SessionOk(d, m) && LedgerOk(d, m) && Sound(w, m, Durable(d.findings.store), boots, past)
  }

  /** The next boot will report an unexpected reset. */
  predicate ReportDue(st: State) {
    st.status == Active && st.planned.None?
  }

  ghost predicate Down(w: World, d: Disk, boots: nat, past: Past) {
    && w.setup.Valid()
    && Parity(d.session.store) && d.session.store.legacy.Unreadable? && Fine(d.findings)
    && match Read(d.session.store).best
       case None => past == Past(0, 0, [], 0, map[])
       case Some(st) =>
         && Fine(d.session)
         && Accounts(w, st, boots, past)
         && StartsBounded(st, past)
         && Witnessed(st, Durable(d.findings.store))
         && ResetsShown(st, past, Durable(d.findings.store), ReportDue(st))
         && (ReportDue(st) ==> st.unexpected < past.unplanned)
  }

  ghost predicate Holds(w: World, m: Machine) {
    match m.power
    case Some(mem) => Up(w, m.disk, mem, m.boots, m.past)
    case None => Down(w, m.disk, m.boots, m.past)
  }

  // ---------- durable findings only get worse

  lemma {:induction false} WorseItemsKeepFailure(before: Items, after: Items)
    requires NoBetter(before, after)
    ensures AnyAt(before, FAIL) ==> AnyAt(after, FAIL)
  {
    if AnyAt(before, FAIL) {
      var k :| k in before && before[k].severity == FAIL;
      assert after[k].severity == FAIL;
    }
  }

  lemma {:induction false} AddingKeepsLedger(d: Disk, m: Process, key: Key, e: Event)
    requires LedgerOk(d, m)
    ensures var f := Adding(m, key, e); var d' := Stored(d, f);
      && LedgerOk(d', f.mem) && d'.session == d.session
      && NoBetter(Durable(d.findings.store), Durable(d'.findings.store))
      && (e.severity == FAIL ==> AnyAt(Durable(d'.findings.store), FAIL))
  {
    var l := LedgerOf(d, m);
    AddingIsAdded(d, m, key, e);
    AddKeepsSynced(l, key, e);
    AddReaches(m.items, key, e);
    if e.severity == FAIL {
      assert Durable(Added(l, key, e).store)[key].severity == FAIL;
    }
  }

  lemma {:induction false} AddingIsAdded(d: Disk, m: Process, key: Key, e: Event)
    ensures var f := Adding(m, key, e);
      LedgerOf(Stored(d, f), f.mem) == Added(LedgerOf(d, m), key, e) && Stored(d, f).session == d.session
  {
  }

  lemma {:induction false} AddReaches(items: Items, key: Key, e: Event)
    ensures Rank(AddItem(items, key, e)[key].severity) >= Rank(e.severity)
  {
  }

  lemma {:induction false} FlushingKeepsLedger(d: Disk, m: Process)
    requires LedgerOk(d, m)
    ensures var d' := Stored(d, Effect(m.(dirty := false), FlushFindings));
      && LedgerOk(d', m.(dirty := false)) && d'.session == d.session
      && NoBetter(Durable(d.findings.store), Durable(d'.findings.store))
  {
    var d' := Stored(d, Effect(m.(dirty := false), FlushFindings));
    assert LedgerOf(d', m.(dirty := false)) == Flushed(LedgerOf(d, m), true);
    FlushKeepsSynced(LedgerOf(d, m), true);
    assert Durable(d'.findings.store) == m.items;
  }

  /** What a flush leaves on disk. */
  lemma {:induction false} FlushStores(d: Disk, f: Effect)
    requires Fine(d.findings)
    ensures Durable(Stored(d, f).findings.store) == if f.write == FlushFindings then f.mem.items else Durable(d.findings.store)
  {
    if f.write == FlushFindings {
      WriteIsRead(d.findings.store, f.mem.items, d.findings.num + 1);
    }
  }

  lemma {:induction false} SavingKeepsSession(d: Disk, m: Process, m': Process)
    requires SessionOk(d, m)
    ensures var d' := Stored(d, Effect(m', SaveState));
      SessionOk(d', m') && d'.findings == d.findings
  {
    WriteIsRead(d.session.store, m'.st, d.session.num + 1);
  }

  // ---------- actions that only touch findings

  /** Steps of other threads that may add a finding and leave the main thread where it is. */
  predicate OffMainThread(a: Action) {
    || a.Observe? || a.Escalate? || a.SelAdd? || a.OpenFails? || a.ReportScan? || a.MarkPartial?
  }

  predicate TouchesFindingsOnly(w: World, m: Process, a: Action) {
    || OffMainThread(a) || a.NoteIncident? || a.BodyRaises? || a.FlushForReboot? || a.FlushFinal?
    || (a.PowerCycleTurn? && (!w.persistent || m.st.cyclesDone >= m.st.setup.Target()))
  }

  /** Everything that matters here is alike in these two processes. */
  predicate SameTask(m: Process, m': Process) {
    m'.st == m.st && m'.items == m.items && m'.dirty == m.dirty && m'.rebooting == m.rebooting && m'.at == m.at
  }

  lemma {:induction false} SameTaskIsUp(w: World, d: Disk, m: Process, m': Process, boots: nat, past: Past)
    requires Up(w, d, m, boots, past) && SameTask(m, m')
    ensures Up(w, d, m', boots, past)
  {
    assert LedgerOf(d, m') == LedgerOf(d, m);
  }

  /** Findings got worse by one of severity `s`, and the program went where nothing new is asked. */
  lemma {:induction false} FoundAndGone(w: World, m: Process, durable: Items, boots: nat, past: Past,
          m': Process, durable': Items, s: Severity)
    requires Sound(w, m, durable, boots, past) && NoBetter(durable, durable')
    requires m'.st == m.st && m'.rebooting == m.rebooting
    requires s == FAIL ==> AnyAt(durable', FAIL)
    requires Control(m') && InventoryMayRestart(m', past)
    requires m'.at == m.at || (IncidentDue(m.at) ==> s == FAIL)
    ensures Sound(w, m', durable', boots, past)
  {
    WorseItemsKeepFailure(durable, durable');
  }

  /** Adding a finding and going to `at`. */
  lemma {:induction false} AddAndGoKeepsUp(w: World, d: Disk, m: Process, boots: nat, past: Past,
          key: Key, e: Event, at: Place)
    requires Up(w, d, m, boots, past)
    requires Control(m.(at := at)) && InventoryMayRestart(m.(at := at), past)
    requires at == m.at || (IncidentDue(m.at) ==> e.severity == FAIL)
    ensures var f := Going(Adding(m, key, e), at); Up(w, Stored(d, f), f.mem, boots, past)
  {
    AddingKeepsLedger(d, m, key, e);
    var f := Going(Adding(m, key, e), at);
    var d' := Stored(d, f);
    assert d' == Stored(d, Adding(m, key, e)) && LedgerOf(d', f.mem) == LedgerOf(d', Adding(m, key, e).mem);
    FoundAndGone(w, m, Durable(d.findings.store), boots, past, f.mem, Durable(d'.findings.store), e.severity);
  }

  /** A forced flush that moves on. */
  lemma {:induction false} FlushAndGoKeepsUp(w: World, d: Disk, m: Process, boots: nat, past: Past, at: Place)
    requires Up(w, d, m, boots, past) && !IncidentDue(m.at)
    requires Control(m.(at := at)) && InventoryMayRestart(m.(at := at), past)
    ensures var f := Effect(m.(at := at, dirty := false), FlushFindings); Up(w, Stored(d, f), f.mem, boots, past)
  {
    FlushingKeepsLedger(d, m);
    var f := Effect(m.(at := at, dirty := false), FlushFindings);
    var d' := Stored(d, f);
    assert LedgerOf(d', f.mem) == LedgerOf(d', m.(dirty := false));
    FoundAndGone(w, m, Durable(d.findings.store), boots, past, f.mem, Durable(d'.findings.store), INFO);
  }

  lemma {:induction false} EscalateKeepsUp(w: World, d: Disk, m: Process, boots: nat, past: Past, key: Key)
    requires Up(w, d, m, boots, past)
    ensures var f := Escalating(m, key); Up(w, Stored(d, f), f.mem, boots, past)
  {
    var f := Escalating(m, key);
    EscalateKeepsSynced(LedgerOf(d, m), key, FAIL);
    assert LedgerOf(Stored(d, f), f.mem) == Escalated(LedgerOf(d, m), key, FAIL);
    FoundAndGone(w, m, Durable(d.findings.store), boots, past, f.mem, Durable(Stored(d, f).findings.store), INFO);
  }

  lemma {:induction false} ReportKeepsUp(w: World, d: Disk, m: Process, boots: nat, past: Past, cause: Cause)
    requires Up(w, d, m, boots, past) && m.at == Booted(cause)
    ensures var f := Incident(m, cause); Up(w, Stored(d, f), f.mem, boots, past)
  {
    match cause
    case UnexpectedReset(running) =>
      AddAndGoKeepsUp(w, d, m, boots, past, UnexpectedReboot(m.st.unexpected), Note(FAIL, running, false), Noted(cause));
    case PlannedReboot =>
      AddAndGoKeepsUp(w, d, m, boots, past, PowerCycleProgress, Note(INFO, None, false), Noted(cause));
    case NewSession =>
  }

  lemma {:induction false} PowerCycleStopKeepsUp(w: World, d: Disk, m: Process, boots: nat, past: Past, i: nat)
    requires Up(w, d, m, boots, past) && m.at == InPhase(i) && i < |m.st.setup.plan| && m.st.setup.plan[i] == PowerCycle
    requires !w.persistent || m.st.cyclesDone >= m.st.setup.Target()
    ensures var f := PowerCycling(w, m, i); Up(w, Stored(d, f), f.mem, boots, past)
  {
    if !w.persistent {
      AddAndGoKeepsUp(w, d, m, boots, past, PowerCycleSkipped, Note(WARN, Some(PowerCycle), false), Returned(i));
    } else {
      AddAndGoKeepsUp(w, d, m, boots, past, PowerCycleOk, Note(INFO, Some(PowerCycle), false), Returned(i));
    }
  }

  lemma {:induction false} RaisingKeepsUp(w: World, d: Disk, m: Process, boots: nat, past: Past)
    requires Up(w, d, m, boots, past) && Enabled(m, BodyRaises)
    ensures var f := After(w, m, BodyRaises); Up(w, Stored(d, f), f.mem, boots, past)
  {
    var name := m.st.setup.plan[m.at.i];
    AddAndGoKeepsUp(w, d, m, boots, past, PhaseError(name), Note(WARN, Some(name), true), Erred(m.at.i));
  }

  lemma {:induction false} NoteKeepsUp(w: World, d: Disk, m: Process, boots: nat, past: Past)
    requires Up(w, d, m, boots, past) && Enabled(m, NoteIncident)
    ensures var f := After(w, m, NoteIncident); Up(w, Stored(d, f), f.mem, boots, past)
  {
    ReportKeepsUp(w, d, m, boots, past, m.at.cause);
  }

  lemma {:induction false} CycleStopKeepsUp(w: World, d: Disk, m: Process, boots: nat, past: Past)
    requires Up(w, d, m, boots, past) && Enabled(m, PowerCycleTurn) && TouchesFindingsOnly(w, m, PowerCycleTurn)
    ensures var f := After(w, m, PowerCycleTurn); Up(w, Stored(d, f), f.mem, boots, past)
  {
    PowerCycleStopKeepsUp(w, d, m, boots, past, m.at.i);
  }

  lemma {:induction false} FlushForRebootKeepsUp(w: World, d: Disk, m: Process, boots: nat, past: Past)
    requires Up(w, d, m, boots, past) && Enabled(m, FlushForReboot)
    ensures var f := After(w, m, FlushForReboot); Up(w, Stored(d, f), f.mem, boots, past)
  {
    FlushAndGoKeepsUp(w, d, m, boots, past, Place.Synced);
  }

  lemma {:induction false} FlushFinalKeepsUp(w: World, d: Disk, m: Process, boots: nat, past: Past)
    requires Up(w, d, m, boots, past) && Enabled(m, FlushFinal)
    ensures var f := After(w, m, FlushFinal); Up(w, Stored(d, f), f.mem, boots, past)
  {
    FlushAndGoKeepsUp(w, d, m, boots, past, Closed(m.abort));
  }

  lemma {:induction false} MainThreadFindingsKeepUp(w: World, d: Disk, m: Process, boots: nat, past: Past, a: Action)
    requires Up(w, d, m, boots, past) && Enabled(m, a) && TouchesFindingsOnly(w, m, a) && !OffMainThread(a)
    ensures var f := After(w, m, a); Up(w, Stored(d, f), f.mem, boots, past)
  {
    match a {
      case NoteIncident => NoteKeepsUp(w, d, m, boots, past);
      case PowerCycleTurn => CycleStopKeepsUp(w, d, m, boots, past);
      case BodyRaises => RaisingKeepsUp(w, d, m, boots, past);
      case FlushForReboot => FlushForRebootKeepsUp(w, d, m, boots, past);
      case FlushFinal => FlushFinalKeepsUp(w, d, m, boots, past);
    }
  }

  /** An add by another thread, which also notes something about its own task. */
  lemma {:induction false} AddingKeepsUp(w: World, d: Disk, m: Process, boots: nat, past: Past,
          m': Process, key: Key, e: Event)
    requires Up(w, d, m, boots, past) && SameTask(m, m')
    ensures var f := Adding(m', key, e); Up(w, Stored(d, f), f.mem, boots, past)
  {
    SameTaskIsUp(w, d, m, m', boots, past);
    assert m'.(at := m'.at) == m' && Going(Adding(m', key, e), m'.at) == Adding(m', key, e);
    AddAndGoKeepsUp(w, d, m', boots, past, key, e, m'.at);
  }

  lemma {:induction false} ReportingKeepsUp(w: World, d: Disk, m: Process, boots: nat, past: Past,
          id: string, phase: Option<PhaseName>)
    requires Up(w, d, m, boots, past) && id in m.scans
    ensures var f := ReportingScan(m, id, phase); Up(w, Stored(d, f), f.mem, boots, past)
  {
    var m' := Scanning(m, id, m.scans[id].(stage := S.Reported));
    if m.scans[id].errors > 0 {
      AddingKeepsUp(w, d, m, boots, past, m', ScanErrors(id), Note(FAIL, phase, false));
    } else {
      SameTaskIsUp(w, d, m, m', boots, past);
    }
  }

  lemma {:induction false} OtherThreadsKeepUp(w: World, d: Disk, m: Process, boots: nat, past: Past, a: Action)
    requires Up(w, d, m, boots, past) && Enabled(m, a) && OffMainThread(a)
    ensures var f := After(w, m, a); Up(w, Stored(d, f), f.mem, boots, past)
  {
    match a {
      case Observe(key, e) => AddingKeepsUp(w, d, m, boots, past, m, key, e);
      case Escalate(key) => EscalateKeepsUp(w, d, m, boots, past, key);
      case SelAdd(s, phase) =>
        AddingKeepsUp(w, d, m, boots, past, SelNoted(m), SelHistoric, Note(s, phase, false));
      case OpenFails(id, phase) =>
        AddingKeepsUp(w, d, m, boots, past, Scanning(m, id, m.scans[id].(done := true, stage := S.Unopened)),
                      ScanOpen(id), Note(FAIL, phase, false));
      case ReportScan(id, phase) => ReportingKeepsUp(w, d, m, boots, past, id, phase);
      case MarkPartial(id, phase) =>
        AddingKeepsUp(w, d, m, boots, past, Scanning(m, id, m.scans[id].(partial := true)),
                      ScanPartial(id), Note(WARN, phase, true));
    }
  }

  lemma {:induction false} FindingsActionsKeepUp(w: World, d: Disk, m: Process, boots: nat, past: Past, a: Action)
    requires Up(w, d, m, boots, past) && Enabled(m, a) && TouchesFindingsOnly(w, m, a)
    ensures var f := After(w, m, a); Up(w, Stored(d, f), f.mem, boots, past)
  {
    if OffMainThread(a) {
      OtherThreadsKeepUp(w, d, m, boots, past, a);
    } else {
      MainThreadFindingsKeepUp(w, d, m, boots, past, a);
    }
  }

  // ---------- actions that save the state or move on

  /** The status a phase ends with is final, and durable findings bear it out. */
  lemma {:induction false} EndStatusIsWitnessed(d: Disk, m: Process, name: PhaseName)
    requires LedgerOk(d, m)
    ensures var s := EndStatus(m.items, name, m.abort);
      s != Pending && s != Running && (s == Failed ==> AnyAt(Durable(d.findings.store), FAIL))
  {
    var durable := Durable(d.findings.store);
    if EndStatus(m.items, name, m.abort) == Failed {
      var k :| k in m.items && m.items[k].severity == FAIL;
      assert durable[k].severity == FAIL;
    }
  }

  /** Giving a phase a status other than pending keeps the accounts and the bounds on starts. */
  lemma {:induction false} SettingKeepsBounds(w: World, st: State, boots: nat, past: Past, name: PhaseName, s: Status)
    requires Accounts(w, st, boots, past) && StartsBounded(st, past)
    requires name in st.setup.plan && s != Pending
    ensures Accounts(w, st.WithPhase(name, s), boots, past) && StartsBounded(st.WithPhase(name, s), past)
  {
  }

  /** The process may stand at `at` with the given phase set to `s`, which findings on disk bear out. */
  ghost predicate MaySet(w: World, m: Process, durable: Items, name: PhaseName, s: Status, at: Place) {
    && name in m.st.setup.plan && s != Pending
    && (s == Failed ==> AnyAt(durable, FAIL))
    && !IncidentDue(m.at) && !Rebooting(at) && !at.Returned? && !at.Erred? && !at.Closed? && at != Finished && m.st.status == Active
    && Reporting(at) == NewSession && m.st.planned.None?
    && (at.InPhase? ==>
          && s == Running && at.i < |m.st.setup.plan| && m.st.setup.plan[at.i] == name
          && (name == PowerCycle ==> m.st.disksFinished))
  }

  lemma {:induction false} SettingKeepsSound(w: World, m: Process, durable: Items, boots: nat, past: Past,
          name: PhaseName, s: Status, at: Place)
    requires Sound(w, m, durable, boots, past) && MaySet(w, m, durable, name, s, at)
    ensures Sound(w, Setting(m, name, s, at).mem, durable, boots, past)
  {
    SettingKeepsBounds(w, m.st, boots, past, name, s);
  }

  /** Counting the start of a phase that has just become running, and was pending before. */
  lemma {:induction false} CountingKeepsSound(w: World, m: Process, durable: Items, boots: nat, past: Past,
          name: PhaseName, i: nat)
    requires Sound(w, m, durable, boots, past) && MayRun(m) && m.at.i == i && m.st.setup.plan[i] == name
    requires Sound(w, Setting(m, name, Running, InPhase(i)).mem, durable, boots, past)
    ensures Sound(w, Setting(m, name, Running, InPhase(i)).mem, durable, boots, CountStart(past, m, Start))
  {
    assert name !in past.stress;
  }

  lemma {:induction false} CollectingAgainKeepsBounds(w: World, st: State, boots: nat, past: Past)
    requires Accounts(w, st, boots, past) && StartsBounded(st, past)
    requires Inventory in st.phases && past.inventory <= st.unexpected
    ensures Accounts(w, st.WithPhase(Inventory, Pending), boots, past)
    ensures StartsBounded(st.WithPhase(Inventory, Pending), past)
  {
  }

  lemma {:induction false} CollectingAgainKeepsSound(w: World, m: Process, durable: Items, boots: nat, past: Past)
    requires Sound(w, m, durable, boots, past) && m.at.Noted? && m.at.cause == UnexpectedReset(Some(Inventory))
    ensures Sound(w, Setting(m, Inventory, Pending, Looping(0)).mem, durable, boots, past)
  {
    CollectingAgainKeepsBounds(w, m.st, boots, past);
  }

  lemma {:induction false} MarkingKeepsSound(w: World, m: Process, durable: Items, boots: nat, past: Past, cause: Cause)
    requires Sound(w, m, durable, boots, past) && m.at == Noted(cause)
    ensures Sound(w, Marked(m, cause).mem, durable, boots, past)
  {
    if cause.UnexpectedReset? && cause.running.Some? {
      if cause.running.value == Inventory {
        CollectingAgainKeepsSound(w, m, durable, boots, past);
      } else {
        SettingKeepsSound(w, m, durable, boots, past, cause.running.value, Interrupted, Looping(0));
      }
    }
  }

  /** The phase that asked for a reboot is pending again. */
  lemma {:induction false} RearmingKeepsSound(w: World, m: Process, durable: Items, boots: nat, past: Past,
          name: PhaseName)
    requires Sound(w, m, durable, boots, past) && m.rebooting && m.at.Returned? && m.st.setup.plan[m.at.i] == name
    ensures Sound(w, Setting(m, name, Pending, Settled).mem, durable, boots, past)
  {
    var st := m.st.WithPhase(PowerCycle, Pending);
    assert Accounts(w, st, boots, past) && StartsBounded(st, past);
  }

  lemma {:induction false} RequestKeepsSound(w: World, m: Process, durable: Items, boots: nat, past: Past, i: nat)
    requires Sound(w, m, durable, boots, past) && m.at == InPhase(i) && i < |m.st.setup.plan|
    requires m.st.setup.plan[i] == PowerCycle
    requires w.persistent && m.st.cyclesDone < m.st.setup.Target()
    ensures Sound(w, PowerCycling(w, m, i).mem, durable, boots, past)
  {
  }

  /** Moving to a place that asks for nothing new. */
  lemma {:induction false} MovingKeepsSound(w: World, m: Process, durable: Items, boots: nat, past: Past, m': Process)
    requires Sound(w, m, durable, boots, past) && m'.st == m.st && m'.rebooting == m.rebooting
    requires m'.at == m.at || (Control(m') && !m'.at.Booted? && !IncidentDue(m.at) && Reporting(m'.at) == NewSession)
    ensures Sound(w, m', durable, boots, past)
  {
  }

  /** Changing only what is recorded about disk tests and the BMC log. */
  predicate NotesOnly(m: Process, m': Process) {
    var st := m'.st;
    && st == m.st.(disksFinished := st.disksFinished, scans := st.scans, selftests := st.selftests, selKnown := st.selKnown)
    && m' == m.(st := st, scans := m'.scans, sel := m'.sel)
    && (m.st.disksFinished ==> st.disksFinished)
  }

  lemma {:induction false} NotingKeepsSound(w: World, m: Process, durable: Items, boots: nat, past: Past, m': Process)
    requires Sound(w, m, durable, boots, past) && NotesOnly(m, m')
    ensures Sound(w, m', durable, boots, past)
  {
  }

  lemma {:induction false} FinishKeepsSound(w: World, m: Process, durable: Items, boots: nat, past: Past,
          s: SessionStatus)
    requires Sound(w, m, durable, boots, past) && m.at.Closed? && s != Active
    ensures Sound(w, m.(st := m.st.(status := s), at := Finished), durable, boots, past)
  {
  }

  predicate SetsPhase(a: Action) {
    a.Start? || a.MarkIncident? || a.Settle? || a.SkipExhausted? || a.MarkError?
  }

  lemma {:induction false} StartKeepsSound(w: World, m: Process, durable: Items, boots: nat, past: Past)
    requires Sound(w, m, durable, boots, past) && Enabled(m, Start)
    ensures Sound(w, After(w, m, Start).mem, durable, boots, CountStart(past, m, Start))
  {
    var i := m.at.i;
    var name := m.st.setup.plan[i];
    SettingKeepsSound(w, m, durable, boots, past, name, Running, InPhase(i));
    CountingKeepsSound(w, m, durable, boots, past, name, i);
  }

  lemma {:induction false} SettleKeepsSound(w: World, d: Disk, m: Process, boots: nat, past: Past)
    requires LedgerOk(d, m) && Sound(w, m, Durable(d.findings.store), boots, past) && Enabled(m, Settle)
    ensures Sound(w, After(w, m, Settle).mem, Durable(d.findings.store), boots, past)
  {
    var i, durable := m.at.i, Durable(d.findings.store);
    var name := m.st.setup.plan[i];
    if m.rebooting {
      RearmingKeepsSound(w, m, durable, boots, past, name);
    } else {
      EndStatusIsWitnessed(d, m, name);
      SettingKeepsSound(w, m, durable, boots, past, name, EndStatus(m.items, name, m.abort), Looping(i + 1));
    }
  }

  lemma {:induction false} GivingUpKeepsSound(w: World, m: Process, durable: Items, boots: nat, past: Past, i: nat,
          s: Status)
    requires Sound(w, m, durable, boots, past) && m.st.status == Active && !m.rebooting && (m.at == Looping(i) || m.at == Erred(i))
    requires i < |m.st.setup.plan| && (s == Skipped || s == Errored)
    ensures Sound(w, Setting(m, m.st.setup.plan[i], s, Looping(i + 1)).mem, durable, boots, past)
  {
    SettingKeepsSound(w, m, durable, boots, past, m.st.setup.plan[i], s, Looping(i + 1));
  }

  lemma {:induction false} SkipKeepsSound(w: World, m: Process, durable: Items, boots: nat, past: Past)
    requires Sound(w, m, durable, boots, past) && Enabled(m, SkipExhausted)
    ensures Sound(w, After(w, m, SkipExhausted).mem, durable, boots, past)
  {
    GivingUpKeepsSound(w, m, durable, boots, past, m.at.i, Skipped);
  }

  lemma {:induction false} MarkErrorKeepsSound(w: World, m: Process, durable: Items, boots: nat, past: Past)
    requires Sound(w, m, durable, boots, past) && Enabled(m, MarkError)
    ensures Sound(w, After(w, m, MarkError).mem, durable, boots, past)
  {
    GivingUpKeepsSound(w, m, durable, boots, past, m.at.i, Errored);
  }

  lemma {:induction false} MarkIncidentKeepsSound(w: World, m: Process, durable: Items, boots: nat, past: Past)
    requires Sound(w, m, durable, boots, past) && Enabled(m, MarkIncident)
    ensures Sound(w, After(w, m, MarkIncident).mem, durable, boots, past)
  {
    MarkingKeepsSound(w, m, durable, boots, past, m.at.cause);
  }

  lemma {:induction false} SettersKeepSound(w: World, d: Disk, m: Process, boots: nat, past: Past, a: Action)
    requires LedgerOk(d, m) && Sound(w, m, Durable(d.findings.store), boots, past)
    requires Enabled(m, a) && SetsPhase(a)
    ensures Sound(w, After(w, m, a).mem, Durable(d.findings.store), boots, CountStart(past, m, a))
  {
    var durable := Durable(d.findings.store);
    match a {
      case MarkIncident => MarkIncidentKeepsSound(w, m, durable, boots, past);
      case Start => StartKeepsSound(w, m, durable, boots, past);
      case Settle => SettleKeepsSound(w, d, m, boots, past);
      case SkipExhausted => SkipKeepsSound(w, m, durable, boots, past);
      case MarkError => MarkErrorKeepsSound(w, m, durable, boots, past);
    }
  }

  /** Steps about disk tests and the BMC log that save something or nothing. */
  predicate Notes(a: Action) {
    || a.SaveTests? || a.SelSave? || a.StartScan? || a.ScanRead? || a.EndScan? || a.SaveProgress? || a.FinishDisks?
  }

  predicate MovesOnly(a: Action) {
    a.PassOver? || a.Leave? || a.EndPlan? || a.BodyReturns?
  }

  predicate SavesOrStays(m: Process, f: Effect) {
    f.write == SaveState || (f.write == Nothing && f.mem.st == m.st)
  }

  lemma {:induction false} NotesShape(w: World, m: Process, a: Action)
    requires Enabled(m, a) && Notes(a)
    ensures NotesOnly(m, After(w, m, a).mem) && SavesOrStays(m, After(w, m, a))
  {
  }

  lemma {:induction false} LoopMovesKeepSound(w: World, m: Process, durable: Items, boots: nat, past: Past, a: Action)
    requires Sound(w, m, durable, boots, past) && Enabled(m, a) && MovesOnly(a)
    ensures Sound(w, After(w, m, a).mem, durable, boots, past)
  {
    MovingKeepsSound(w, m, durable, boots, past, After(w, m, a).mem);
  }

  lemma {:induction false} AbortKeepsSound(w: World, m: Process, durable: Items, boots: nat, past: Past)
    requires Sound(w, m, durable, boots, past)
    ensures Sound(w, m.(abort := true), durable, boots, past)
  {
  }

  lemma {:induction false} IssuingKeepsSound(w: World, m: Process, durable: Items, boots: nat, past: Past)
    requires Sound(w, m, durable, boots, past) && m.at == Place.Synced
    ensures Sound(w, m.(at := RebootIssued), durable, boots, past)
  {
  }

  lemma {:induction false} OthersKeepSound(w: World, m: Process, durable: Items, boots: nat, past: Past, a: Action)
    requires Sound(w, m, durable, boots, past)
    requires Enabled(m, a) && !TouchesFindingsOnly(w, m, a) && !SetsPhase(a)
    ensures Sound(w, After(w, m, a).mem, durable, boots, past)
  {
    if Notes(a) {
      NotesShape(w, m, a);
      NotingKeepsSound(w, m, durable, boots, past, After(w, m, a).mem);
    } else if MovesOnly(a) {
      LoopMovesKeepSound(w, m, durable, boots, past, a);
    } else {
      match a {
        case PowerCycleTurn => RequestKeepsSound(w, m, durable, boots, past, m.at.i);
        case FinishSession =>
          FinishKeepsSound(w, m, durable, boots, past, if m.at.aborted then Cancelled else Complete);
        case RequestAbort => AbortKeepsSound(w, m, durable, boots, past);
        case SaveForReboot => IssuingKeepsSound(w, m, durable, boots, past);
      }
    }
  }

  lemma {:induction false} SettersShape(w: World, m: Process, a: Action)
    requires Enabled(m, a) && SetsPhase(a)
    ensures var f := After(w, m, a); f.mem.items == m.items && f.mem.dirty == m.dirty && SavesOrStays(m, f)
  {
  }

  lemma {:induction false} StateActionShape(w: World, m: Process, a: Action)
    requires Enabled(m, a) && !TouchesFindingsOnly(w, m, a)
    ensures var f := After(w, m, a); f.mem.items == m.items && f.mem.dirty == m.dirty && SavesOrStays(m, f)
  {
    if Notes(a) {
      NotesShape(w, m, a);
    } else if SetsPhase(a) {
      SettersShape(w, m, a);
    }
  }

  lemma {:induction false} StateActionsKeepUp(w: World, d: Disk, m: Process, boots: nat, past: Past, a: Action)
    requires Up(w, d, m, boots, past) && Enabled(m, a) && !TouchesFindingsOnly(w, m, a)
    ensures var f := After(w, m, a); Up(w, Stored(d, f), f.mem, boots, CountStart(past, m, a))
  {
    if SetsPhase(a) {
      SettersKeepSound(w, d, m, boots, past, a);
    } else {
      OthersKeepSound(w, m, Durable(d.findings.store), boots, past, a);
    }
    StateActionShape(w, m, a);
    SavedOrMovedIsUp(w, d, m, After(w, m, a), boots, CountStart(past, m, a));
  }

  lemma {:induction false} SavedOrMovedIsUp(w: World, d: Disk, m: Process, f: Effect, boots: nat, past: Past)
    requires SessionOk(d, m) && LedgerOk(d, m)
    requires Sound(w, f.mem, Durable(d.findings.store), boots, past)
    requires f.mem.items == m.items && f.mem.dirty == m.dirty
    requires SavesOrStays(m, f)
    ensures Up(w, Stored(d, f), f.mem, boots, past)
  {
    SavingKeepsSession(d, m, f.mem);
    assert LedgerOf(Stored(d, f), f.mem) == LedgerOf(d, m);
  }

  /** Every action of the test process keeps the invariant. */
  lemma {:induction false} ActionsKeepUp(w: World, d: Disk, m: Process, boots: nat, past: Past, a: Action)
    requires Up(w, d, m, boots, past) && Enabled(m, a)
    ensures var f := After(w, m, a); Up(w, Stored(d, f), f.mem, boots, CountStart(past, m, a))
  {
    if TouchesFindingsOnly(w, m, a) {
      FindingsActionsKeepUp(w, d, m, boots, past, a);
    } else {
      StateActionsKeepUp(w, d, m, boots, past, a);
    }
  }

  // ---------- resets

  lemma {:induction false} UpIsDown(w: World, d: Disk, m: Process, boots: nat, past: Past)
    requires Up(w, d, m, boots, past)
    ensures Down(w, d, boots, CountReset(past, d))
  {
  }

  /** While a machine is down, only what its stores read as matters. */
  lemma {:induction false} DownDependsOnReading(w: World, d: Disk, d': Disk, boots: nat, past: Past)
    requires Down(w, d, boots, past)
    requires Read(d'.session.store).best == Read(d.session.store).best
    requires Fine(d'.session) && d'.session.store.legacy.Unreadable?
    requires Fine(d'.findings) && Read(d'.findings.store) == Read(d.findings.store)
    ensures Down(w, d', boots, past)
  {
  }

  lemma {:induction false} CutWriterReadsEither<T>(v: Writer<T>, data: T, how: Outcome)
    requires Fine(v)
    ensures var c := Step(v, SaveCut(data, how));
      || c == Step(v, Saved(data))
      || (Read(c.store) == Read(v.store) && Fine(c) && c.store.legacy == v.store.legacy)
  {
    CutIsOldOrNew(v.store, data, how);
  }

  /** A cut write reads as the old document, or leaves the disk as the completed write does. */
  lemma {:induction false} CutReadsOldOrEqualsNew(d: Disk, f: Effect, how: Outcome)
    requires Fine(d.session) && Fine(d.findings)
    ensures var c := CutShort(d, f, how);
      || c == Stored(d, f)
      || (&& Read(c.session.store) == Read(d.session.store) && Fine(c.session)
          && Read(c.findings.store) == Read(d.findings.store) && Fine(c.findings)
          && c.session.store.legacy == d.session.store.legacy)
  {
    match f.write
    case Nothing =>
    case SaveState => CutWriterReadsEither(d.session, f.mem.st, how);
    case FlushFindings => CutWriterReadsEither(d.findings, f.mem.items, how);
  }

  /** A workload that a reset kept from beginning is not counted. */
  lemma {:induction false} UncountedStartIsUp(w: World, d: Disk, m: Process, boots: nat, past: Past, before: Process,
          a: Action)
    requires Enabled(before, a) && Up(w, d, m, boots, CountStart(past, before, a))
    ensures Up(w, d, m, boots, past)
  {
    assert forall p | p in past.stress :: p in CountStart(past, before, a).stress;
    assert forall i | 0 <= i < |past.stress| :: CountStart(past, before, a).stress[i] == past.stress[i];
  }

  lemma {:induction false} CutActionIsDown(w: World, d: Disk, m: Process, boots: nat, past: Past, a: Action,
          how: Outcome)
    requires Up(w, d, m, boots, past) && Enabled(m, a)
    ensures var c := CutShort(d, After(w, m, a), how); Down(w, c, boots, CountReset(past, c))
  {
    var f := After(w, m, a);
    var c := CutShort(d, f, how);
    ActionsKeepUp(w, d, m, boots, past, a);
    UncountedStartIsUp(w, Stored(d, f), f.mem, boots, past, m, a);
    CutReadsOldOrEqualsNew(d, f, how);
    if c == Stored(d, f) {
      UpIsDown(w, c, f.mem, boots, past);
    } else {
      UpIsDown(w, d, m, boots, past);
      DownDependsOnReading(w, d, c, boots, CountReset(past, d));
    }
  }

  // ---------- boots

  lemma {:induction false} BeginningIsUp(w: World, boot: nat)
    requires w.setup.Valid()
    ensures Up(w, Stored(NewDirectory(), Effect(Beginning(w, boot), SaveState)), Beginning(w, boot), boot + 1, Past(0, 0, [], 0, map[]))
  {
    var m := Beginning(w, boot);
    var d := Stored(NewDirectory(), Effect(m, SaveState));
    assert Read(d.session.store) == Reading(Some(m.st), 1);
    assert Durable(d.findings.store) == map[];
    assert !AnyAt(map[], FAIL);
    assert Sound(w, m, map[], boot + 1, Past(0, 0, [], 0, map[]));
  }

  lemma {:induction false} ResumedAccounts(w: World, st: State, durable: Items, boot: nat, past: Past,
          running: Option<PhaseName>)
    requires Accounts(w, st, boot, past) && StartsBounded(st, past) && Witnessed(st, durable)
    requires ResetsShown(st, past, durable, ReportDue(st))
    requires ReportDue(st) ==> st.unexpected < past.unplanned
    requires st.status == Active && IsRunningPhase(st, running)
    ensures var r := Resume(st, boot);
      && !r.restart && r.planned == st.planned.Some?
      && Accounts(w, r.st, boot + 1, past) && StartsBounded(r.st, past) && Witnessed(r.st, durable)
      && (r.unexpected ==> past.inventory <= r.st.unexpected)
      && ResetsShown(r.st, past, durable, r.unexpected)
  {
    assert st.boots != [] && st.boots[|st.boots| - 1] < boot;
  }

  lemma {:induction false} ResumedIsSound(w: World, d: Disk, st: State, boot: nat, past: Past,
          running: Option<PhaseName>)
    requires Down(w, d, boot, past) && Read(d.session.store).best == Some(st)
    requires st.status == Active && IsRunningPhase(st, running)
    ensures Sound(w, Resuming(d, st, boot, running), Durable(d.findings.store), boot + 1, past)
  {
    ResumedAccounts(w, st, Durable(d.findings.store), boot, past, running);
  }

  lemma {:induction false} ResumingIsUp(w: World, d: Disk, st: State, boot: nat, past: Past, running: Option<PhaseName>)
    requires Down(w, d, boot, past) && Read(d.session.store).best == Some(st)
    requires st.status == Active && IsRunningPhase(st, running)
    ensures var m := Resuming(d, st, boot, running); Up(w, Stored(d, Effect(m, SaveState)), m, boot + 1, past)
  {
    var m := Resuming(d, st, boot, running);
    ResumedIsSound(w, d, st, boot, past, running);
    WriteIsRead(d.session.store, m.st, d.session.num + 1);
  }

  lemma {:induction false} BootIsUp(w: World, d: Disk, boot: nat, past: Past, running: Option<PhaseName>)
    requires Down(w, d, boot, past) && Resumable(d, running)
    ensures var (d', f) := Opening(w, d, boot, running); Up(w, Stored(d', f), f.mem, boot + 1, past)
  {
    match Read(d.session.store).best
    case None => BeginningIsUp(w, boot);
    case Some(st) => ResumingIsUp(w, d, st, boot, past, running);
  }

  lemma {:induction false} LaterIsDown(w: World, d: Disk, boots: nat, past: Past)
    requires Down(w, d, boots, past)
    ensures Down(w, d, boots + 1, CountReset(past, d))
  {
  }

  lemma {:induction false} CutBootIsDown(w: World, d: Disk, boot: nat, past: Past, running: Option<PhaseName>,
          how: Outcome)
    requires Down(w, d, boot, past) && Resumable(d, running)
    ensures var (d', f) := Opening(w, d, boot, running); var c := CutShort(d', f, how);
      Down(w, c, boot + 1, CountReset(past, c))
  {
    var (d', f) := Opening(w, d, boot, running);
    var c := CutShort(d', f, how);
    BootIsUp(w, d, boot, past, running);
    match Read(d.session.store).best
    case None =>
      if how == WroteNew {
        assert c == Stored(d', f);
        UpIsDown(w, c, f.mem, boot + 1, past);
      }
    case Some(st) =>
      CutReadsOldOrEqualsNew(d, f, how);
      if c == Stored(d, f) {
        UpIsDown(w, c, f.mem, boot + 1, past);
      } else {
        LaterIsDown(w, d, boot, past);
        DownDependsOnReading(w, d, c, boot + 1, CountReset(past, d));
      }
  }

  // ---------- whole runs

  lemma {:induction false} InitHolds(w: World)
    requires w.setup.Valid()
    ensures Holds(w, Init())
  {
  }

  /** What is remembered of scans plays no part here. */
  lemma {:induction false} RememberingKeepsUp(w: World, d: Disk, m: Process, boots: nat, past: Past)
    requires Up(w, d, m, boots, past)
    ensures Up(w, d, m, boots, Remember(past, m))
  {
  }

  lemma {:induction false} TurnKeeps(w: World, m: Machine, t: Turn)
    requires Holds(w, m) && Legal(w, m, t)
    ensures Holds(w, Take(w, m, t))
  {
    match t
    case Boot(running) => BootIsUp(w, m.disk, m.boots, m.past, running);
    case BootCut(running, how) => CutBootIsDown(w, m.disk, m.boots, m.past, running, how);
    case Act(a) =>
      var p := m.power.value;
      ActionsKeepUp(w, m.disk, p, m.boots, m.past, a);
      RememberingKeepsUp(w, Stored(m.disk, After(w, p, a)), After(w, p, a).mem, m.boots, CountStart(m.past, p, a));
    case ActCut(a, how) => CutActionIsDown(w, m.disk, m.power.value, m.boots, m.past, a, how);
    case Reset => UpIsDown(w, m.disk, m.power.value, m.boots, m.past);
  }

  /** The invariant holds after any run of any length with resets anywhere. */
  lemma {:induction false} RunKeeps(w: World, turns: seq<Turn>)
    requires w.setup.Valid() && LegalRun(w, Init(), turns)
    ensures Holds(w, Run(w, Init(), turns))
    decreases |turns|
  {
    if turns == [] {
      InitHolds(w);
    } else {
      RunKeeps(w, turns[..|turns| - 1]);
      TurnKeeps(w, Run(w, Init(), turns[..|turns| - 1]), turns[|turns| - 1]);
    }
  }
}
