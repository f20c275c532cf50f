/**
 What holds of a run as long as every reset was announced. Then findings on disk tell
 warnings from information as memory does, phases are settled in the order of the plan,
 and every disk scan began at the start of its disk in the boot that finishes it.
 */
module Calm {
  import opened Wrappers
  import opened Config
  import opened RotatingStore
  import opened FindingStore
  import opened FindingKeys
  import opened TestSession
  import opened Orchestrator
  import opened Invariant
  import Report
  import D = DestructiveTests
  import S = SurfaceScanning

  // ---------- findings

  predicate MayInform(key: Key) {
    Informs(key) || key == SelHistoric
  }

  /** Only informational keys inform, and a partial scan is incomplete. */
  ghost predicate Disciplined(items: Items) {
    forall k | k in items :: (items[k].severity == INFO ==> MayInform(k)) && (k.ScanPartial? ==> items[k].incomplete)
  }

  /** Some planned reboot has happened. */
  predicate Late(st: State) {
    st.cyclesDone > 0
  }

  /** Disk and memory agree on what is only information, except perhaps for the historic BMC log in a later boot. */
  ghost predicate Agreed(items: Items, durable: Items, late: bool) {
    && Disciplined(items) && Disciplined(durable) && items.Keys == durable.Keys
    && forall k | k in items :: (k == SelHistoric && late) || (items[k].severity == INFO <==> durable[k].severity == INFO)
  }

  /** The first boot adds the historic BMC log once. */
  ghost predicate SelAddedOnce(m: Process) {
    !Late(m.st) && SelUnread(m) ==> SelHistoric !in m.items
  }

  predicate AnyWarning(items: Items) {
    exists k | k in items :: items[k].severity != INFO
  }

  ghost predicate Spoiled(durable: Items) {
    AnyAt(durable, FAIL) || AnyIncomplete(durable)
  }

  // ---------- phases

  predicate IsSettled(s: Status) {
    s != Pending && s != Running
  }

  ghost predicate StressSettled(st: State) {
    forall p | p in st.setup.plan && p != PowerCycle :: IsSettled(st.Phase(p))
  }

  predicate AtEntry(at: Place) {
    at.Looping? || at.InPhase? || at.Erred? || at.Returned?
  }

  predicate AtEnd(at: Place) {
    at == Closing || at.Closed? || at == Finished
  }

  /** No stress phase is running but the one the main thread is at. */
  ghost predicate OneRuns(st: State, at: Place) {
    forall p | p in st.setup.plan && p != PowerCycle && st.Phase(p) == Running ::
      (at.InPhase? || at.Erred? || at.Returned?) && at.i < |st.setup.plan| && st.setup.plan[at.i] == p
  }

  ghost predicate EarlierSettled(st: State, at: Place) {
    AtEntry(at) ==>
      forall j | 0 <= j < at.i && j < |st.setup.plan| && st.setup.plan[j] != PowerCycle :: IsSettled(st.Phase(st.setup.plan[j]))
  }

  ghost predicate InOrder(m: Process) {
    && (Late(m.st) || m.st.planned.Some? ==> StressSettled(m.st))
    && OneRuns(m.st, m.at) && EarlierSettled(m.st, m.at)
    && (m.st.disksFinished ==> IsSettled(m.st.Phase(Inventory)) || AtEnd(m.at))
  }

  /** What phases ended with is borne out by findings. */
  ghost predicate Shown(m: Process, durable: Items) {
    var st := m.st;
    && (forall p | p in st.setup.plan && p != PowerCycle && st.Phase(p) == Warned :: AnyWarning(durable))
    && (st.Phase(PowerCycle) == Warned ==> AnyWarning(if m.at.Closed? || m.at == Finished then durable else m.items))
    && (st.Phase(PowerCycle) == Done || TurnedDown(m) ==> st.cyclesDone == st.setup.Target() || AnyWarning(durable))
  }

  /** A power cycle turn has returned without asking for a reboot. */
  predicate TurnedDown(m: Process) {
    m.at.Returned? && m.at.i < |m.st.setup.plan| && m.st.setup.plan[m.at.i] == PowerCycle && !m.rebooting
  }

  // ---------- scans

  ghost predicate ThreadOk(w: World, id: string, s: S.Scanner) {
    S.Sound(s) && s.start == 0 && id in w.disks && s.size == w.disks[id].size
  }

  /** What a scan thread reported is on disk. */
  ghost predicate Reported(s: S.Scanner, durable: Items) {
    && ((s.stage == S.Reported && s.errors > 0) || s.stage == S.Unopened ==> AnyAt(durable, FAIL))
    && (s.partial ==> AnyIncomplete(durable))
  }

  ghost predicate Threads(w: World, scans: map<string, S.Scanner>, durable: Items) {
    forall id | id in scans :: ThreadOk(w, id, scans[id]) && Reported(scans[id], durable)
  }

  /** The tests on record have been run as the history of scans tells. */
  ghost predicate Recorded(w: World, st: State, history: map<string, S.Scanner>, durable: Items) {
    && (forall id | id in history :: ThreadOk(w, id, history[id]))
    && (forall id | id in st.scans && st.scans[id].mode == D.ReadOnly :: id in history)
    && (st.disksFinished ==> forall id | id in history :: S.Clean(history[id]) || Spoiled(durable))
    && (Report.Tested(st.Phase(Inventory)) ==> forall id | id in w.disks :: id in st.scans)
  }

  ghost predicate ScansShown(w: World, m: Process, durable: Items, history: map<string, S.Scanner>) {
    && Threads(w, m.scans, durable) && Recorded(w, m.st, history, durable)
    && (forall id | id in m.scans :: id in history && history[id] == m.scans[id])
    && (!m.st.disksFinished ==> history.Keys == m.scans.Keys)
    && (Late(m.st) ==> m.scans == map[])
    && (m.at.Returned? && m.at.i < |m.st.setup.plan| && m.st.setup.plan[m.at.i] == Inventory ==>
          forall id | id in w.disks :: id in m.st.scans)
  }

  // ---------- the invariant

  ghost predicate CalmUp(w: World, m: Process, durable: Items, history: map<string, S.Scanner>) {
    && Agreed(m.items, durable, Late(m.st)) && SelAddedOnce(m)
    && InOrder(m) && Shown(m, durable) && ScansShown(w, m, durable, history)
  }

  ghost predicate CalmDown(w: World, d: Disk, history: map<string, S.Scanner>) {
    match Read(d.session.store).best
    case None => history == map[]
    case Some(st) =>
      var durable := Durable(d.findings.store);
      && Disciplined(durable)
      && (st.planned.Some? ==> StressSettled(st))
      && (forall p | p in st.setup.plan && st.Phase(p) == Warned :: AnyWarning(durable))
      && (st.Phase(PowerCycle) == Done ==> st.cyclesDone == st.setup.Target() || AnyWarning(durable))
      && Recorded(w, st, history, durable)
  }

  ghost predicate CalmHolds(w: World, m: Machine) {
    m.past.unplanned == 0 ==>
      match m.power
      case Some(p) => CalmUp(w, p, Durable(m.disk.findings.store), m.past.scans)
      case None => CalmDown(w, m.disk, m.past.scans)
  }

  // ---------- findings only get worse

  lemma {:induction false} WorseKeeps(before: Items, after: Items)
    requires NoBetter(before, after)
    ensures AnyAt(before, FAIL) ==> AnyAt(after, FAIL)
    ensures AnyIncomplete(before) ==> AnyIncomplete(after)
    ensures AnyWarning(before) ==> AnyWarning(after)
    ensures Spoiled(before) ==> Spoiled(after)
  {
    if AnyAt(before, FAIL) {
      var k :| k in before && before[k].severity == FAIL;
      assert after[k].severity == FAIL;
    }
    if AnyIncomplete(before) {
      var k :| k in before && before[k].incomplete;
      assert after[k].incomplete;
    }
    if AnyWarning(before) {
      var k :| k in before && before[k].severity != INFO;
      assert after[k].severity != INFO;
    }
  }

  lemma {:induction false} WorseKeepsRecorded(w: World, st: State, history: map<string, S.Scanner>, before: Items,
          after: Items)
    requires Recorded(w, st, history, before) && NoBetter(before, after)
    ensures Recorded(w, st, history, after)
  {
    WorseKeeps(before, after);
  }

  lemma {:induction false} WorseKeepsThreads(w: World, scans: map<string, S.Scanner>, before: Items, after: Items)
    requires Threads(w, scans, before) && NoBetter(before, after)
    ensures Threads(w, scans, after)
  {
    WorseKeeps(before, after);
    forall id | id in scans ensures ThreadOk(w, id, scans[id]) && Reported(scans[id], after) {
      assert Reported(scans[id], before);
    }
  }

  /** The event keeps to what its key is for; only the historic BMC log may raise a known finding, in a later boot. */
  predicate AddFits(items: Items, late: bool, key: Key, e: Event) {
    && (e.severity == INFO ==> MayInform(key))
    && (RaisesQuietly(items, key, e) ==> key == SelHistoric && late)
    && (key.ScanPartial? ==> e.incomplete)
  }

  lemma {:induction false} AddKeepsDiscipline(items: Items, late: bool, key: Key, e: Event)
    requires Disciplined(items) && AddFits(items, late, key, e)
    ensures Disciplined(AddItem(items, key, e))
  {
    var after := AddItem(items, key, e);
    assert after[key].severity == INFO ==> e.severity == INFO;
    assert key in items ==> (items[key].incomplete ==> after[key].incomplete);
  }

  lemma {:induction false} AddKeepsAgreed(items: Items, durable: Items, late: bool, key: Key, e: Event)
    requires Agreed(items, durable, late) && AddFits(items, late, key, e)
    ensures Agreed(AddItem(items, key, e), if Urgent(items, key, e) then AddItem(items, key, e) else durable, late)
  {
    AddKeepsDiscipline(items, late, key, e);
    if !Urgent(items, key, e) {
      var after := AddItem(items, key, e);
      assert after[key].severity == INFO <==> items[key].severity == INFO && e.severity == INFO;
      assert after.Keys == items.Keys;
    }
  }

  /** An event of the table never raises information to a warning. */
  lemma {:induction false} FittingEventsFit(items: Items, late: bool, key: Key, e: Event)
    requires Disciplined(items) && (e.severity == INFO <==> Informs(key)) && key != SelHistoric
    requires key.ScanPartial? ==> e.incomplete
    ensures AddFits(items, late, key, e)
  {
  }

  lemma {:induction false} AddedIsNoBetter(items: Items, key: Key, e: Event)
    ensures NoBetter(items, AddItem(items, key, e))
  {
  }

  /** A machine that is up, sound and calm. */
  ghost predicate CalmMachine(w: World, d: Disk, m: Process, boots: nat, past: Past) {
    Up(w, d, m, boots, past) && past.unplanned == 0 && CalmUp(w, m, Durable(d.findings.store), past.scans)
  }

  // ---------- steps that add or flush findings

  /** What an add makes of memory and disk. */
  lemma {:induction false} AddStep(d: Disk, m: Process, late: bool, key: Key, e: Event)
    requires LedgerOk(d, m) && Agreed(m.items, Durable(d.findings.store), late) && AddFits(m.items, late, key, e)
    ensures var f, durable := Adding(m, key, e), Durable(d.findings.store);
      var durable' := Durable(Stored(d, f).findings.store);
      && Agreed(f.mem.items, durable', late) && NoBetter(m.items, f.mem.items) && NoBetter(durable, durable')
      && (key !in m.items || e.severity == FAIL ==> durable' == f.mem.items)
  {
    AddKeepsAgreed(m.items, Durable(d.findings.store), late, key, e);
    AddedIsNoBetter(m.items, key, e);
    AddingKeepsLedger(d, m, key, e);
    FlushStores(d, Adding(m, key, e));
  }

  /** Findings got worse while the session and the main thread's place stayed the same. */
  lemma {:induction false} FoundKeepsCalm(w: World, m: Process, durable: Items, history: map<string, S.Scanner>,
          m1: Process, durable1: Items)
    requires CalmUp(w, m, durable, history)
    requires Agreed(m1.items, durable1, Late(m.st)) && NoBetter(m.items, m1.items) && NoBetter(durable, durable1)
    requires m1 == m.(items := m1.items, dirty := m1.dirty, sel := m1.sel) && SelAddedOnce(m1)
    ensures CalmUp(w, m1, durable1, history)
  {
    WorseKeeps(m.items, m1.items);
    WorseKeeps(durable, durable1);
    WorseKeepsRecorded(w, m.st, history, durable, durable1);
    WorseKeepsThreads(w, m.scans, durable, durable1);
  }

  /** The main thread goes on while nothing else changes. */
  lemma {:induction false} GoingKeepsCalm(w: World, m: Process, durable: Items, history: map<string, S.Scanner>,
          at: Place)
    requires CalmUp(w, m, durable, history) && MovesOn(m, m.(at := at))
    requires TurnedDown(m.(at := at)) ==> m.st.cyclesDone == m.st.setup.Target() || AnyWarning(durable)
    requires at.Closed? ==> durable == m.items
    ensures CalmUp(w, m.(at := at), durable, history)
  {
  }

  /** The places findings are added on the way to. */
  predicate MovesOn(m: Process, m1: Process) {
    || (m.at.Booted? && m1.at == Noted(m.at.cause))
    || (m.at.InPhase? && m1.at == Erred(m.at.i))
    || (m.at.InPhase? && m1.at == Returned(m.at.i) && m.at.i < |m.st.setup.plan| && m.st.setup.plan[m.at.i] == PowerCycle)
    || (m.at == Settled && m1.at == Place.Synced)
    || (m.at == Closing && m1.at.Closed?)
  }

  /** The invariant after a step that touches no scan. */
  ghost predicate CalmStored(w: World, d: Disk, f: Effect, history: map<string, S.Scanner>) {
    CalmUp(w, f.mem, Durable(Stored(d, f).findings.store), history)
  }

  /** The same after any step, which is remembered. */
  ghost predicate CalmAfter(w: World, d: Disk, f: Effect, history: map<string, S.Scanner>) {
    CalmUp(w, f.mem, Durable(Stored(d, f).findings.store), history + f.mem.scans)
  }

  lemma {:induction false} NothingToRemember(history: map<string, S.Scanner>, scans: map<string, S.Scanner>)
    requires forall id | id in scans :: id in history && history[id] == scans[id]
    ensures history + scans == history
  {
  }

  lemma {:induction false} OneMoreToRemember(history: map<string, S.Scanner>, scans: map<string, S.Scanner>,
          id: string, now: S.Scanner)
    requires forall i | i in scans :: i in history && history[i] == scans[i]
    ensures history + scans[id := now] == history[id := now]
  {
  }

  lemma {:induction false} StoredIsAfter(w: World, d: Disk, f: Effect, history: map<string, S.Scanner>)
    requires CalmStored(w, d, f, history)
    ensures CalmAfter(w, d, f, history)
  {
    NothingToRemember(history, f.mem.scans);
  }

  /** The set holds every effect that keeps calm. */
  ghost predicate Covers(w: World, d: Disk, history: map<string, S.Scanner>, calm: iset<Effect>) {
    forall f | CalmAfter(w, d, f, history) :: f in calm
  }

  lemma {:induction false} SavedIsCalm(w: World, d: Disk, f: Effect, history: map<string, S.Scanner>,
          calm: iset<Effect>)
    requires CalmUp(w, f.mem, Durable(d.findings.store), history + f.mem.scans) && f.write != FlushFindings
    requires Covers(w, d, history, calm)
    ensures f in calm
  {
    assert CalmAfter(w, d, f, history);
  }

  lemma {:induction false} KeptIsCalm(w: World, d: Disk, f: Effect, history: map<string, S.Scanner>, calm: iset<Effect>)
    requires CalmUp(w, f.mem, Durable(d.findings.store), history) && f.write != FlushFindings
    requires Covers(w, d, history, calm)
    ensures f in calm
  {
    NothingToRemember(history, f.mem.scans);
    SavedIsCalm(w, d, f, history, calm);
  }

  lemma {:induction false} AddedWarns(d: Disk, m: Process, late: bool, key: Key, e: Event)
    requires LedgerOk(d, m) && Agreed(m.items, Durable(d.findings.store), late) && AddFits(m.items, late, key, e)
    requires e.severity != INFO && key != SelHistoric
    ensures AnyWarning(Durable(Stored(d, Adding(m, key, e)).findings.store))
  {
    AddStep(d, m, late, key, e);
    AddReaches(m.items, key, e);
    var durable' := Durable(Stored(d, Adding(m, key, e)).findings.store);
    assert key in AddItem(m.items, key, e) && durable'[key].severity != INFO;
  }

  /** An add that is not about scans, by any thread. */
  lemma {:induction false} AddKeepsCalm(w: World, d: Disk, m: Process, history: map<string, S.Scanner>,
          m0: Process, key: Key, e: Event)
    requires LedgerOk(d, m) && CalmUp(w, m, Durable(d.findings.store), history)
    requires m0 == m.(sel := m0.sel) && AddFits(m.items, Late(m.st), key, e)
    requires SelAddedOnce(Adding(m0, key, e).mem)
    ensures CalmStored(w, d, Adding(m0, key, e), history)
  {
    var f := Adding(m0, key, e);
    assert LedgerOf(d, m0) == LedgerOf(d, m);
    AddStep(d, m0, Late(m.st), key, e);
    FoundKeepsCalm(w, m, Durable(d.findings.store), history, f.mem, Durable(Stored(d, f).findings.store));
  }

  lemma {:induction false} OtherAddKeepsCalm(w: World, d: Disk, m: Process, history: map<string, S.Scanner>,
          key: Key, e: Event)
    requires LedgerOk(d, m) && CalmUp(w, m, Durable(d.findings.store), history)
    requires AddFits(m.items, Late(m.st), key, e) && key != SelHistoric
    ensures CalmStored(w, d, Adding(m, key, e), history)
  {
    assert SelAddedOnce(Adding(m, key, e).mem);
    AddKeepsCalm(w, d, m, history, m, key, e);
  }

  /** An add on the main thread's way to another place. */
  lemma {:induction false} AddAndGoKeepsCalm(w: World, d: Disk, m: Process, history: map<string, S.Scanner>,
          key: Key, e: Event, at: Place)
    requires LedgerOk(d, m) && CalmUp(w, m, Durable(d.findings.store), history)
    requires AddFits(m.items, Late(m.st), key, e) && key != SelHistoric
    requires MovesOn(m, m.(at := at)) && !at.Closed?
    requires TurnedDown(m.(at := at)) ==> m.st.cyclesDone == m.st.setup.Target() || e.severity != INFO
    ensures CalmStored(w, d, Going(Adding(m, key, e), at), history)
  {
    OtherAddKeepsCalm(w, d, m, history, key, e);
    if e.severity != INFO {
      AddedWarns(d, m, Late(m.st), key, e);
    }
    StoredAndGoneIsCalm(w, d, Adding(m, key, e), history, at);
  }

  lemma {:induction false} StoredAndGoneIsCalm(w: World, d: Disk, f: Effect, history: map<string, S.Scanner>, at: Place)
    requires CalmStored(w, d, f, history) && f.write != SaveState
    requires MovesOn(f.mem, f.mem.(at := at)) && !at.Closed?
    requires TurnedDown(f.mem.(at := at)) ==>
      f.mem.st.cyclesDone == f.mem.st.setup.Target() || AnyWarning(Durable(Stored(d, f).findings.store))
    ensures CalmStored(w, d, Going(f, at), history)
  {
    GoingStores(d, f, at);
    GoingKeepsCalm(w, f.mem, Durable(Stored(d, f).findings.store), history, at);
  }

  lemma {:induction false} GoingStores(d: Disk, f: Effect, at: Place)
    requires f.write != SaveState
    ensures Stored(d, Going(f, at)) == Stored(d, f) && Going(f, at).mem == f.mem.(at := at)
  {
  }

  lemma {:induction false} FlushKeepsCalm(w: World, d: Disk, m: Process, history: map<string, S.Scanner>, at: Place,
          calm: iset<Effect>)
    requires LedgerOk(d, m) && CalmUp(w, m, Durable(d.findings.store), history)
    requires MovesOn(m, m.(at := at)) && !at.Returned?
    requires Covers(w, d, history, calm)
    ensures Effect(m.(at := at, dirty := false), FlushFindings) in calm
  {
    var f, m1 := Effect(m.(at := at, dirty := false), FlushFindings), m.(dirty := false);
    FlushStores(d, f);
    FlushedKeepsCalm(w, m, Durable(d.findings.store), history);
    GoingKeepsCalm(w, m1, m.items, history, at);
    assert f.mem == m1.(at := at);
    StoredIsAfter(w, d, Effect(m.(at := at, dirty := false), FlushFindings), history);
  }

  lemma {:induction false} FlushedKeepsCalm(w: World, m: Process, durable: Items, history: map<string, S.Scanner>)
    requires CalmUp(w, m, durable, history) && NoBetter(durable, m.items)
    ensures CalmUp(w, m.(dirty := false), m.items, history)
  {
    FoundKeepsCalm(w, m, durable, history, m.(dirty := false), m.items);
  }

  lemma {:induction false} EscalateStep(d: Disk, m: Process, late: bool, key: Key)
    requires LedgerOk(d, m) && Agreed(m.items, Durable(d.findings.store), late)
    ensures var f, durable := Escalating(m, key), Durable(d.findings.store);
      var durable' := Durable(Stored(d, f).findings.store);
      durable' == f.mem.items && Agreed(f.mem.items, durable', late) && NoBetter(m.items, durable') && NoBetter(durable, durable')
  {
    var f := Escalating(m, key);
    EscalateKeepsSynced(LedgerOf(d, m), key, FAIL);
    assert LedgerOf(Stored(d, f), f.mem) == Escalated(LedgerOf(d, m), key, FAIL);
    EscalateKeepsDiscipline(m.items, key);
  }

  lemma {:induction false} EscalateKeepsDiscipline(items: Items, key: Key)
    requires Disciplined(items)
    ensures Disciplined(EscalateItem(items, key, FAIL)) && NoBetter(items, EscalateItem(items, key, FAIL))
  {
  }

  lemma {:induction false} EscalateKeepsCalm(w: World, d: Disk, m: Process, history: map<string, S.Scanner>,
          key: Key, calm: iset<Effect>)
    requires LedgerOk(d, m) && CalmUp(w, m, Durable(d.findings.store), history)
    requires Covers(w, d, history, calm)
    ensures Escalating(m, key) in calm
  {
    var f := Escalating(m, key);
    EscalateStep(d, m, Late(m.st), key);
    assert f.mem.items.Keys == m.items.Keys;
    FoundKeepsCalm(w, m, Durable(d.findings.store), history, f.mem, f.mem.items);
    StoredIsAfter(w, d, Escalating(m, key), history);
  }

  lemma {:induction false} SelAddKeepsCalm(w: World, d: Disk, m: Process, history: map<string, S.Scanner>,
          s: Severity, phase: Option<PhaseName>, calm: iset<Effect>)
    requires LedgerOk(d, m) && CalmUp(w, m, Durable(d.findings.store), history)
    requires Enabled(m, SelAdd(s, phase))
    requires Covers(w, d, history, calm)
    ensures SelAdding(m, s, phase) in calm
  {
    var m0, e := SelNoted(m), Note(s, phase, false);
    AddKeepsCalm(w, d, m, history, m0, SelHistoric, e);
    StoredIsAfter(w, d, SelAdding(m, s, phase), history);
  }

  lemma {:induction false} ObserveKeepsCalm(w: World, d: Disk, m: Process, history: map<string, S.Scanner>, key: Key,
          e: Event, calm: iset<Effect>)
    requires LedgerOk(d, m) && CalmUp(w, m, Durable(d.findings.store), history) && FitsKey(key, e)
    requires Covers(w, d, history, calm)
    ensures Adding(m, key, e) in calm
  {
    FittingEventsFit(m.items, Late(m.st), key, e);
    OtherAddKeepsCalm(w, d, m, history, key, e);
    StoredIsAfter(w, d, Adding(m, key, e), history);
  }

  /** An unannounced reset is the only cause that would report one. */
  lemma {:induction false} CalmCause(w: World, m: Process, durable: Items, boots: nat, past: Past)
    requires Invariant.Sound(w, m, durable, boots, past) && past.unplanned == 0
    ensures !Invariant.Reporting(m.at).UnexpectedReset? && m.st.unexpected == 0
  {
  }

  lemma {:induction false} RaisingKeepsCalm(w: World, d: Disk, m: Process, history: map<string, S.Scanner>,
          name: PhaseName, calm: iset<Effect>)
    requires LedgerOk(d, m) && CalmUp(w, m, Durable(d.findings.store), history) && m.at.InPhase?
    requires Covers(w, d, history, calm)
    ensures Going(Adding(m, PhaseError(name), Note(WARN, Some(name), true)), Erred(m.at.i)) in calm
  {
    FittingEventsFit(m.items, Late(m.st), PhaseError(name), Note(WARN, Some(name), true));
    AddAndGoKeepsCalm(w, d, m, history, PhaseError(name), Note(WARN, Some(name), true), Erred(m.at.i));
    StoredIsAfter(w, d, Going(Adding(m, PhaseError(name), Note(WARN, Some(name), true)), Erred(m.at.i)), history);
  }

  lemma {:induction false} MainFindingsKeepCalm(w: World, d: Disk, m: Process, boots: nat, past: Past, a: Action,
          calm: iset<Effect>)
    requires CalmMachine(w, d, m, boots, past) && Covers(w, d, past.scans, calm)
    requires Enabled(m, a) && TouchesFindingsOnly(w, m, a) && !OffMainThread(a)
    ensures After(w, m, a) in calm
  {
    CalmCause(w, m, Durable(d.findings.store), boots, past);
    match a {
      case NoteIncident => IncidentKeepsCalm(w, d, m, past.scans, m.at.cause, calm);
      case PowerCycleTurn => CycleTurnKeepsCalm(w, d, m, boots, past, m.at.i, calm);
      case BodyRaises => RaisingKeepsCalm(w, d, m, past.scans, m.st.setup.plan[m.at.i], calm);
      case FlushForReboot => FlushKeepsCalm(w, d, m, past.scans, Place.Synced, calm);
      case FlushFinal => FlushKeepsCalm(w, d, m, past.scans, Closed(m.abort), calm);
    }
  }

  lemma {:induction false} IncidentKeepsCalm(w: World, d: Disk, m: Process, history: map<string, S.Scanner>,
          cause: Cause, calm: iset<Effect>)
    requires LedgerOk(d, m) && CalmUp(w, m, Durable(d.findings.store), history)
    requires m.at == Booted(cause) && !cause.UnexpectedReset?
    requires Covers(w, d, history, calm)
    ensures Incident(m, cause) in calm
  {
    if cause.PlannedReboot? {
      FittingEventsFit(m.items, Late(m.st), PowerCycleProgress, Note(INFO, None, false));
      AddAndGoKeepsCalm(w, d, m, history, PowerCycleProgress, Note(INFO, None, false), Noted(cause));
    } else {
      GoingKeepsCalm(w, m, Durable(d.findings.store), history, Noted(cause));
    }
    StoredIsAfter(w, d, Incident(m, cause), history);
  }

  lemma {:induction false} CycleTurnKeepsCalm(w: World, d: Disk, m: Process, boots: nat, past: Past, i: nat,
          calm: iset<Effect>)
    requires Up(w, d, m, boots, past) && CalmUp(w, m, Durable(d.findings.store), past.scans)
    requires m.at == InPhase(i) && i < |m.st.setup.plan| && m.st.setup.plan[i] == PowerCycle
    requires !w.persistent || m.st.cyclesDone >= m.st.setup.Target()
    requires Covers(w, d, past.scans, calm)
    ensures PowerCycling(w, m, i) in calm
  {
    var late := Late(m.st);
    if !w.persistent {
      FittingEventsFit(m.items, late, PowerCycleSkipped, Note(WARN, Some(PowerCycle), false));
      AddAndGoKeepsCalm(w, d, m, past.scans, PowerCycleSkipped, Note(WARN, Some(PowerCycle), false), Returned(i));
    } else {
      FittingEventsFit(m.items, late, PowerCycleOk, Note(INFO, Some(PowerCycle), false));
      AddAndGoKeepsCalm(w, d, m, past.scans, PowerCycleOk, Note(INFO, Some(PowerCycle), false), Returned(i));
    }
    StoredIsAfter(w, d, PowerCycling(w, m, i), past.scans);
  }

  // ---------- steps of scan threads

  /** A scan moves from `was` to `now`; one that was clean stays as it is. */
  lemma {:induction false} ThreadKeepsScans(w: World, m: Process, durable: Items, history: map<string, S.Scanner>,
          id: string, now: S.Scanner, durable1: Items)
    requires ScansShown(w, m, durable, history) && NoBetter(durable, durable1)
    requires id in m.scans && ThreadOk(w, id, now) && Reported(now, durable1)
    requires !S.Clean(m.scans[id])
    ensures var m1 := Scanning(m, id, now); ScansShown(w, m1, durable1, history + m1.scans)
  {
    WorseKeepsRecorded(w, m.st, history, durable, durable1);
    WorseKeepsThreads(w, m.scans, durable, durable1);
    OneMoreToRemember(history, m.scans, id, now);
    assert history[id] == m.scans[id];
  }

  lemma {:induction false} CalmScanning(w: World, m: Process, durable: Items, history: map<string, S.Scanner>,
          id: string, now: S.Scanner)
    requires CalmUp(w, m, durable, history)
    requires id in m.scans && ThreadOk(w, id, now) && Reported(now, durable) && !S.Clean(m.scans[id])
    ensures var m1 := Scanning(m, id, now); CalmUp(w, m1, durable, history + m1.scans)
  {
    ThreadKeepsScans(w, m, durable, history, id, now, durable);
  }

  lemma {:induction false} ScanReadKeepsCalm(w: World, m: Process, durable: Items, history: map<string, S.Scanner>,
          id: string, r: S.ReadResult)
    requires CalmUp(w, m, durable, history) && Enabled(m, ScanRead(id, r))
    ensures var m1 := Scanning(m, id, S.ReadOnce(m.scans[id], r)); CalmUp(w, m1, durable, history + m1.scans)
  {
    var s := m.scans[id];
    assert ThreadOk(w, id, s) && Reported(s, durable);
    S.ReadKeepsSound(s, r);
    CalmScanning(w, m, durable, history, id, S.ReadOnce(s, r));
  }

  lemma {:induction false} ScanEndKeepsCalm(w: World, m: Process, durable: Items, history: map<string, S.Scanner>,
          id: string)
    requires CalmUp(w, m, durable, history) && Enabled(m, EndScan(id))
    ensures var m1 := Scanning(m, id, S.Left(m.scans[id])); CalmUp(w, m1, durable, history + m1.scans)
  {
    var s := m.scans[id];
    assert ThreadOk(w, id, s) && Reported(s, durable);
    S.LeavingKeepsSound(s);
    CalmScanning(w, m, durable, history, id, S.Left(s));
  }

  /** What the scan reports is on disk already, or is what the event says. */
  ghost predicate Says(now: S.Scanner, durable: Items, key: Key, e: Event) {
    && ((now.stage == S.Reported && now.errors > 0) || now.stage == S.Unopened ==> AnyAt(durable, FAIL) || e.severity == FAIL)
    && (now.partial ==> AnyIncomplete(durable) || key.ScanPartial?)
    && (e.severity == FAIL || (key.ScanPartial? && e.incomplete))
  }

  /** A scan thread's finding is on disk at once, as it fails or is new. */
  lemma {:induction false} SaidIsReported(d: Disk, m: Process, now: S.Scanner, key: Key, e: Event)
    requires LedgerOk(d, m) && Agreed(m.items, Durable(d.findings.store), Late(m.st))
    requires AddFits(m.items, Late(m.st), key, e)
    requires Says(now, Durable(d.findings.store), key, e)
    ensures Reported(now, Durable(Stored(d, Adding(m, key, e)).findings.store))
  {
    var durable' := Durable(Stored(d, Adding(m, key, e)).findings.store);
    AddStep(d, m, Late(m.st), key, e);
    AddReaches(m.items, key, e);
    WorseKeeps(Durable(d.findings.store), durable');
    assert key in durable' && (e.severity == FAIL ==> durable'[key].severity == FAIL);
    assert key.ScanPartial? ==> durable'[key].incomplete;
  }

  lemma {:induction false} AddingWhileScanning(d: Disk, m: Process, id: string, now: S.Scanner, key: Key, e: Event)
    ensures var f, g := Adding(m, key, e), Adding(Scanning(m, id, now), key, e);
      g.mem == Scanning(f.mem, id, now) && Stored(d, g) == Stored(d, f) && f.mem.scans == m.scans
  {
  }

  lemma {:induction false} ScanningKeepsCalm(w: World, d: Disk, f: Effect, g: Effect, history: map<string, S.Scanner>,
          id: string, now: S.Scanner)
    requires CalmStored(w, d, f, history) && id in f.mem.scans && !S.Clean(f.mem.scans[id])
    requires ThreadOk(w, id, now) && Reported(now, Durable(Stored(d, f).findings.store))
    requires g.mem == Scanning(f.mem, id, now) && Stored(d, g) == Stored(d, f)
    ensures CalmAfter(w, d, g, history)
  {
    CalmScanning(w, f.mem, Durable(Stored(d, f).findings.store), history, id, now);
  }

  lemma {:induction false} ScanAddKeepsCalm(w: World, d: Disk, m: Process, history: map<string, S.Scanner>,
          id: string, now: S.Scanner, key: Key, e: Event)
    requires LedgerOk(d, m) && CalmUp(w, m, Durable(d.findings.store), history)
    requires id in m.scans && !S.Clean(m.scans[id]) && ThreadOk(w, id, now)
    requires AddFits(m.items, Late(m.st), key, e) && key != SelHistoric
    requires Says(now, Durable(d.findings.store), key, e)
    ensures CalmAfter(w, d, Adding(Scanning(m, id, now), key, e), history)
  {
    OtherAddKeepsCalm(w, d, m, history, key, e);
    SaidIsReported(d, m, now, key, e);
    SaidWhileScanning(w, d, m, history, id, now, key, e);
  }

  lemma {:induction false} SaidWhileScanning(w: World, d: Disk, m: Process, history: map<string, S.Scanner>,
          id: string, now: S.Scanner, key: Key, e: Event)
    requires CalmStored(w, d, Adding(m, key, e), history)
    requires id in m.scans && !S.Clean(m.scans[id]) && ThreadOk(w, id, now)
    requires Reported(now, Durable(Stored(d, Adding(m, key, e)).findings.store))
    ensures CalmAfter(w, d, Adding(Scanning(m, id, now), key, e), history)
  {
    AddingWhileScanning(d, m, id, now, key, e);
    ScanningKeepsCalm(w, d, Adding(m, key, e), Adding(Scanning(m, id, now), key, e), history, id, now);
  }

  lemma {:induction false} OpenFailsKeepsCalm(w: World, d: Disk, m: Process, history: map<string, S.Scanner>,
          id: string, phase: Option<PhaseName>, calm: iset<Effect>)
    requires LedgerOk(d, m) && CalmUp(w, m, Durable(d.findings.store), history) && Enabled(m, OpenFails(id, phase))
    requires Covers(w, d, history, calm)
    ensures Unopened(m, id, phase) in calm
  {
    var s, e := m.scans[id], Note(FAIL, phase, false);
    assert ThreadOk(w, id, s) && Reported(s, Durable(d.findings.store));
    FailureFits(m.items, Late(m.st), ScanOpen(id), e);
    ScanAddKeepsCalm(w, d, m, history, id, s.(done := true, stage := S.Unopened), ScanOpen(id), e);
    assert CalmAfter(w, d, Unopened(m, id, phase), history);
  }

  lemma {:induction false} ErrorsKeepCalm(w: World, d: Disk, m: Process, history: map<string, S.Scanner>,
          id: string, phase: Option<PhaseName>)
    requires LedgerOk(d, m) && CalmUp(w, m, Durable(d.findings.store), history)
    requires id in m.scans && m.scans[id].stage == S.Over
    ensures var now := m.scans[id].(stage := S.Reported);
      CalmAfter(w, d, Adding(Scanning(m, id, now), ScanErrors(id), Note(FAIL, phase, false)), history)
  {
    var s, e := m.scans[id], Note(FAIL, phase, false);
    assert ThreadOk(w, id, s) && Reported(s, Durable(d.findings.store));
    FailureFits(m.items, Late(m.st), ScanErrors(id), e);
    ScanAddKeepsCalm(w, d, m, history, id, s.(stage := S.Reported), ScanErrors(id), e);
  }

  lemma {:induction false} GoodScanKeepsCalm(w: World, m: Process, durable: Items, history: map<string, S.Scanner>,
          id: string)
    requires CalmUp(w, m, durable, history)
    requires id in m.scans && m.scans[id].stage == S.Over && m.scans[id].errors == 0
    ensures var m1 := Scanning(m, id, m.scans[id].(stage := S.Reported)); CalmUp(w, m1, durable, history + m1.scans)
  {
    var s := m.scans[id];
    assert ThreadOk(w, id, s) && Reported(s, durable);
    CalmScanning(w, m, durable, history, id, s.(stage := S.Reported));
  }

  lemma {:induction false} ReportKeepsCalm(w: World, d: Disk, m: Process, history: map<string, S.Scanner>,
          id: string, phase: Option<PhaseName>, calm: iset<Effect>)
    requires LedgerOk(d, m) && CalmUp(w, m, Durable(d.findings.store), history) && Enabled(m, ReportScan(id, phase))
    requires Covers(w, d, history, calm)
    ensures ReportingScan(m, id, phase) in calm
  {
    if m.scans[id].errors > 0 {
      ErrorsKeepCalm(w, d, m, history, id, phase);
    } else {
      GoodScanKeepsCalm(w, m, Durable(d.findings.store), history, id);
    }
    assert CalmAfter(w, d, ReportingScan(m, id, phase), history);
  }

  lemma {:induction false} AbandoningKeepsCalm(w: World, d: Disk, m: Process, history: map<string, S.Scanner>,
          id: string, phase: Option<PhaseName>)
    requires LedgerOk(d, m) && CalmUp(w, m, Durable(d.findings.store), history)
    requires id in m.scans && !m.scans[id].done
    ensures var now := m.scans[id].(partial := true);
      CalmAfter(w, d, Adding(Scanning(m, id, now), ScanPartial(id), Note(WARN, phase, true)), history)
  {
    var s, e := m.scans[id], Note(WARN, phase, true);
    assert ThreadOk(w, id, s) && Reported(s, Durable(d.findings.store));
    FittingEventsFit(m.items, Late(m.st), ScanPartial(id), e);
    ScanAddKeepsCalm(w, d, m, history, id, s.(partial := true), ScanPartial(id), e);
  }

  lemma {:induction false} PartialKeepsCalm(w: World, d: Disk, m: Process, history: map<string, S.Scanner>,
          id: string, phase: Option<PhaseName>, calm: iset<Effect>)
    requires LedgerOk(d, m) && CalmUp(w, m, Durable(d.findings.store), history) && Enabled(m, MarkPartial(id, phase))
    requires Covers(w, d, history, calm)
    ensures Adding(Scanning(m, id, m.scans[id].(partial := true)), ScanPartial(id), Note(WARN, phase, true)) in calm
  {
    AbandoningKeepsCalm(w, d, m, history, id, phase);
  }

  /** A failure raises nothing quietly. */
  lemma {:induction false} FailureFits(items: Items, late: bool, key: Key, e: Event)
    requires e.severity == FAIL && !key.ScanPartial?
    ensures AddFits(items, late, key, e)
  {
  }

  predicate AboutScans(a: Action) {
    a.OpenFails? || a.ReportScan? || a.MarkPartial?
  }

  /** Steps of scan threads that may add findings. */
  lemma {:induction false} ScanFindingsKeepCalm(w: World, d: Disk, m: Process, history: map<string, S.Scanner>,
          a: Action, calm: iset<Effect>)
    requires LedgerOk(d, m) && CalmUp(w, m, Durable(d.findings.store), history) && Covers(w, d, history, calm)
    requires Enabled(m, a) && AboutScans(a)
    ensures After(w, m, a) in calm
  {
    match a {
      case OpenFails(id, phase) => OpenFailsKeepsCalm(w, d, m, history, id, phase, calm);
      case ReportScan(id, phase) => ReportKeepsCalm(w, d, m, history, id, phase, calm);
      case MarkPartial(id, phase) => PartialKeepsCalm(w, d, m, history, id, phase, calm);
    }
  }

  /** Steps of other threads that may add findings. */
  lemma {:induction false} OthersKeepCalm(w: World, d: Disk, m: Process, history: map<string, S.Scanner>, a: Action,
          calm: iset<Effect>)
    requires LedgerOk(d, m) && CalmUp(w, m, Durable(d.findings.store), history) && Covers(w, d, history, calm)
    requires Enabled(m, a) && OffMainThread(a) && !AboutScans(a)
    ensures After(w, m, a) in calm
  {
    match a {
      case Observe(key, e) => ObserveKeepsCalm(w, d, m, history, key, e, calm);
      case Escalate(key) => EscalateKeepsCalm(w, d, m, history, key, calm);
      case SelAdd(s, phase) => SelAddKeepsCalm(w, d, m, history, s, phase, calm);
    }
  }

  // ---------- steps that save the state or move on

  /** The part of that which the steps below rely on. */
  ghost predicate CalmAndSound(w: World, m: Process, durable: Items, boots: nat, past: Past) {
    && Invariant.Sound(w, m, durable, boots, past) && past.unplanned == 0
    && CalmUp(w, m, durable, past.scans)
  }

  /** The tests on record change no further than in their progress. */
  predicate SameTests(st: State, st': State) {
    && st.scans.Keys == st'.scans.Keys && (forall id | id in st.scans :: st'.scans[id].mode == st.scans[id].mode)
    && st' == st.(scans := st'.scans, selftests := st'.selftests, selKnown := st'.selKnown)
  }

  lemma {:induction false} NotingKeepsCalm(w: World, m: Process, durable: Items, history: map<string, S.Scanner>,
          m1: Process)
    requires CalmUp(w, m, durable, history)
    requires m1 == m.(st := m1.st, sel := m1.sel) && SameTests(m.st, m1.st) && (SelUnread(m1) ==> SelUnread(m))
    ensures CalmUp(w, m1, durable, history)
  {
  }

  lemma {:induction false} NewScanIsRecorded(w: World, st: State, durable: Items, history: map<string, S.Scanner>,
          id: string, entry: D.Entry)
    requires Recorded(w, st, history, durable) && !st.disksFinished && id in w.disks
    ensures Recorded(w, st.(scans := st.scans[id := entry]), history[id := S.Begun(w.disks[id].size, 0)], durable)
  {
    S.BegunIsSound(w.disks[id].size, 0);
    assert st.(scans := st.scans[id := entry]).Phase(Inventory) == st.Phase(Inventory);
  }

  lemma {:induction false} NewScanIsThread(w: World, scans: map<string, S.Scanner>, durable: Items, id: string)
    requires Threads(w, scans, durable) && id in w.disks
    ensures Threads(w, scans[id := S.Begun(w.disks[id].size, 0)], durable)
  {
    S.BegunIsSound(w.disks[id].size, 0);
  }

  /** A new entry of the tests, and a scan from zero if it is to be read. */
  lemma {:induction false} NewScanIsShown(w: World, m: Process, durable: Items, history: map<string, S.Scanner>,
          id: string, entry: D.Entry)
    requires ScansShown(w, m, durable, history) && !m.st.disksFinished && !Late(m.st) && !AtReturned(m.at)
    requires id in w.disks && id !in m.scans
    ensures var m1 := Scanning(m.(st := m.st.(scans := m.st.scans[id := entry])), id, S.Begun(w.disks[id].size, 0));
      ScansShown(w, m1, durable, history + m1.scans)
  {
    var now := S.Begun(w.disks[id].size, 0);
    NewScanIsRecorded(w, m.st, durable, history, id, entry);
    NewScanIsThread(w, m.scans, durable, id);
    OneMoreToRemember(history, m.scans, id, now);
  }

  predicate AtReturned(at: Place) {
    at.Returned?
  }

  lemma {:induction false} NewEntryIsShown(w: World, m: Process, durable: Items, history: map<string, S.Scanner>,
          id: string, entry: D.Entry)
    requires ScansShown(w, m, durable, history) && entry.mode == D.WriteVerify && !AtReturned(m.at)
    ensures var m1 := m.(st := m.st.(scans := m.st.scans[id := entry])); ScansShown(w, m1, durable, history)
  {
    assert m.st.(scans := m.st.scans[id := entry]).Phase(Inventory) == m.st.Phase(Inventory);
  }

  /** Nothing but the records of disk tests changed. */
  lemma {:induction false} EntriesKeepRest(w: World, m: Process, durable: Items, history: map<string, S.Scanner>,
          m1: Process)
    requires CalmUp(w, m, durable, history)
    requires m1 == m.(st := m.st.(scans := m1.st.scans), scans := m1.scans)
    requires ScansShown(w, m1, durable, history + m1.scans)
    ensures CalmUp(w, m1, durable, history + m1.scans)
  {
    assert forall p :: m1.st.Phase(p) == m.st.Phase(p);
  }

  /** Before the disk tests are finished every disk to be read has its thread. */
  lemma {:induction false} UnknownIsToBeRead(w: World, m: Process, durable: Items, history: map<string, S.Scanner>,
          id: string)
    requires ScansShown(w, m, durable, history) && !m.st.disksFinished && id !in m.scans
    ensures id in m.st.scans ==> m.st.scans[id].mode == D.WriteVerify
  {
    assert id !in history;
  }

  lemma {:induction false} StartScanKeepsCalm(w: World, m: Process, durable: Items, boots: nat, past: Past,
          id: string, write: bool)
    requires CalmAndSound(w, m, durable, boots, past)
    requires MayScan(m) && id !in m.scans && id in w.disks
    ensures var m1 := Starting(m, id, w.disks[id], write).mem; CalmUp(w, m1, durable, past.scans + m1.scans)
  {
    var m1 := Starting(m, id, w.disks[id], write).mem;
    UnknownIsToBeRead(w, m, durable, past.scans, id);
    if id in m.st.scans || write {
      NewEntryIsShown(w, m, durable, past.scans, id, m1.st.scans[id]);
      NothingToRemember(past.scans, m.scans);
    } else {
      NewScanIsShown(w, m, durable, past.scans, id, m1.st.scans[id]);
    }
    EntriesKeepRest(w, m, durable, past.scans, m1);
  }

  lemma {:induction false} FinishDisksKeepsCalm(w: World, m: Process, durable: Items, boots: nat, past: Past,
          selftests: seq<(string, bool)>)
    requires CalmAndSound(w, m, durable, boots, past) && Enabled(m, Action.FinishDisks(selftests))
    ensures CalmUp(w, m.(st := m.st.(disksFinished := true, selftests := selftests)), durable, past.scans)
  {
    forall id | id in past.scans ensures S.Clean(past.scans[id]) || Spoiled(durable) {
      assert id in m.scans && Accounted(m.scans[id]) && Reported(m.scans[id], durable);
    }
    var plan := m.st.setup.plan;
    assert plan[0] == Inventory;
    var m1 := m.(st := m.st.(disksFinished := true, selftests := selftests));
    assert forall p :: m1.st.Phase(p) == m.st.Phase(p);
  }

  lemma {:induction false} NotedIsCalm(w: World, d: Disk, m: Process, history: map<string, S.Scanner>, m1: Process,
          calm: iset<Effect>)
    requires CalmUp(w, m, Durable(d.findings.store), history) && Covers(w, d, history, calm)
    requires m1 == m.(st := m1.st, sel := m1.sel) && SameTests(m.st, m1.st) && (SelUnread(m1) ==> SelUnread(m))
    ensures Effect(m1, SaveState) in calm
  {
    NotingKeepsCalm(w, m, Durable(d.findings.store), history, m1);
    KeptIsCalm(w, d, Effect(m1, SaveState), history, calm);
  }

  lemma {:induction false} StartScanIsCalm(w: World, d: Disk, m: Process, boots: nat, past: Past, id: string,
          write: bool, calm: iset<Effect>)
    requires CalmMachine(w, d, m, boots, past) && Covers(w, d, past.scans, calm)
    requires MayScan(m) && id !in m.scans && id in w.disks
    ensures Starting(m, id, w.disks[id], write) in calm
  {
    StartScanKeepsCalm(w, m, Durable(d.findings.store), boots, past, id, write);
    SavedIsCalm(w, d, Starting(m, id, w.disks[id], write), past.scans, calm);
  }

  lemma {:induction false} ScanReadIsCalm(w: World, d: Disk, m: Process, history: map<string, S.Scanner>, id: string,
          r: S.ReadResult, calm: iset<Effect>)
    requires CalmUp(w, m, Durable(d.findings.store), history) && Covers(w, d, history, calm)
    requires Enabled(m, ScanRead(id, r))
    ensures Effect(Scanning(m, id, S.ReadOnce(m.scans[id], r)), Nothing) in calm
  {
    ScanReadKeepsCalm(w, m, Durable(d.findings.store), history, id, r);
    SavedIsCalm(w, d, Effect(Scanning(m, id, S.ReadOnce(m.scans[id], r)), Nothing), history, calm);
  }

  lemma {:induction false} ScanEndIsCalm(w: World, d: Disk, m: Process, history: map<string, S.Scanner>, id: string,
          calm: iset<Effect>)
    requires CalmUp(w, m, Durable(d.findings.store), history) && Covers(w, d, history, calm) && Enabled(m, EndScan(id))
    ensures Effect(Scanning(m, id, S.Left(m.scans[id])), Nothing) in calm
  {
    ScanEndKeepsCalm(w, m, Durable(d.findings.store), history, id);
    SavedIsCalm(w, d, Effect(Scanning(m, id, S.Left(m.scans[id])), Nothing), history, calm);
  }

  lemma {:induction false} FinishDisksIsCalm(w: World, d: Disk, m: Process, boots: nat, past: Past,
          selftests: seq<(string, bool)>, calm: iset<Effect>)
    requires CalmMachine(w, d, m, boots, past) && Covers(w, d, past.scans, calm)
    requires Enabled(m, Action.FinishDisks(selftests))
    ensures Saving(m, m.st.(disksFinished := true, selftests := selftests)) in calm
  {
    FinishDisksKeepsCalm(w, m, Durable(d.findings.store), boots, past, selftests);
    KeptIsCalm(w, d, Saving(m, m.st.(disksFinished := true, selftests := selftests)), past.scans, calm);
  }

  lemma {:induction false} ScansKeepCalm(w: World, d: Disk, m: Process, boots: nat, past: Past, a: Action,
          calm: iset<Effect>)
    requires CalmMachine(w, d, m, boots, past) && Covers(w, d, past.scans, calm)
    requires Enabled(m, a) && Allowed(w, m, a) && (a.StartScan? || a.FinishDisks?)
    ensures After(w, m, a) in calm
  {
    match a {
      case StartScan(id, write) => StartScanIsCalm(w, d, m, boots, past, id, write, calm);
      case FinishDisks(selftests) => FinishDisksIsCalm(w, d, m, boots, past, selftests, calm);
    }
  }

  lemma {:induction false} ReadingKeepsCalm(w: World, d: Disk, m: Process, history: map<string, S.Scanner>,
          a: Action, calm: iset<Effect>)
    requires LedgerOk(d, m) && CalmUp(w, m, Durable(d.findings.store), history) && Covers(w, d, history, calm)
    requires Enabled(m, a) && (a.ScanRead? || a.EndScan?)
    ensures After(w, m, a) in calm
  {
    match a {
      case ScanRead(id, r) => ScanReadIsCalm(w, d, m, history, id, r, calm);
      case EndScan(id) => ScanEndIsCalm(w, d, m, history, id, calm);
    }
  }

  lemma {:induction false} NotesKeepCalm(w: World, d: Disk, m: Process, boots: nat, past: Past, a: Action,
          calm: iset<Effect>)
    requires CalmMachine(w, d, m, boots, past) && Covers(w, d, past.scans, calm)
    requires Enabled(m, a) && (a.SaveTests? || a.SelSave? || a.SaveProgress?)
    ensures After(w, m, a) in calm
  {
    var m1 := After(w, m, a).mem;
    NoteShape(w, m, a);
    NotedIsCalm(w, d, m, past.scans, m1, calm);
  }

  lemma {:induction false} NoteShape(w: World, m: Process, a: Action)
    requires Enabled(m, a) && (a.SaveTests? || a.SelSave? || a.SaveProgress?)
    ensures var m1 := After(w, m, a).mem;
      && After(w, m, a) == Effect(m1, SaveState)
      && m1 == m.(st := m1.st, sel := m1.sel) && SameTests(m.st, m1.st) && (SelUnread(m1) ==> SelUnread(m))
  {
  }

  lemma {:induction false} PassingKeepsCalm(w: World, m: Process, durable: Items, boots: nat, past: Past)
    requires CalmAndSound(w, m, durable, boots, past) && Enabled(m, PassOver)
    ensures CalmUp(w, m.(at := Looping(m.at.i + 1)), durable, past.scans)
  {
    PassedIsSettled(m.st, m.at.i);
  }

  lemma {:induction false} PassedIsSettled(st: State, i: nat)
    requires OneRuns(st, Looping(i)) && EarlierSettled(st, Looping(i)) && i < |st.setup.plan|
    requires st.Phase(st.setup.plan[i]) != Pending
    ensures OneRuns(st, Looping(i + 1)) && EarlierSettled(st, Looping(i + 1))
  {
    assert st.setup.plan[i] in st.setup.plan;
  }

  lemma {:induction false} ClosingKeepsCalm(w: World, m: Process, durable: Items, boots: nat, past: Past)
    requires CalmAndSound(w, m, durable, boots, past) && m.at.Looping?
    ensures CalmUp(w, m.(at := Closing), durable, past.scans)
  {
  }

  lemma {:induction false} ReturningKeepsCalm(w: World, m: Process, durable: Items, boots: nat, past: Past)
    requires CalmAndSound(w, m, durable, boots, past) && Enabled(m, BodyReturns) && Allowed(w, m, BodyReturns)
    ensures CalmUp(w, m.(at := Returned(m.at.i)), durable, past.scans)
  {
  }

  lemma {:induction false} PowerCycleIsLast(w: World, m: Process, durable: Items, boots: nat, past: Past, i: nat)
    requires Invariant.Sound(w, m, durable, boots, past) && InOrder(m)
    requires m.at == InPhase(i) && i < |m.st.setup.plan| && m.st.setup.plan[i] == PowerCycle
    ensures StressSettled(m.st)
  {
    var plan := m.st.setup.plan;
    forall p | p in plan && p != PowerCycle ensures IsSettled(m.st.Phase(p)) {
      var j :| 0 <= j < |plan| && plan[j] == p;
      assert j < i;
    }
  }

  lemma {:induction false} RequestKeepsCalm(w: World, m: Process, durable: Items, boots: nat, past: Past, i: nat)
    requires CalmAndSound(w, m, durable, boots, past)
    requires m.at == InPhase(i) && i < |m.st.setup.plan| && m.st.setup.plan[i] == PowerCycle
    requires w.persistent && m.st.cyclesDone < m.st.setup.Target()
    ensures CalmUp(w, PowerCycling(w, m, i).mem, durable, past.scans)
  {
    PowerCycleIsLast(w, m, durable, boots, past, i);
    var st := m.st.(planned := Some(m.st.cyclesDone + 1));
    assert forall p :: st.Phase(p) == m.st.Phase(p);
  }

  lemma {:induction false} AbortingKeepsCalm(w: World, m: Process, durable: Items, boots: nat, past: Past)
    requires CalmAndSound(w, m, durable, boots, past)
    ensures CalmUp(w, m.(abort := true), durable, past.scans)
  {
  }

  lemma {:induction false} IssuingKeepsCalm(w: World, m: Process, durable: Items, boots: nat, past: Past)
    requires CalmAndSound(w, m, durable, boots, past) && m.at == Place.Synced
    ensures CalmUp(w, m.(at := RebootIssued), durable, past.scans)
  {
  }

  lemma {:induction false} FinishingKeepsCalm(w: World, m: Process, durable: Items, boots: nat, past: Past,
          s: SessionStatus)
    requires CalmAndSound(w, m, durable, boots, past) && m.at.Closed?
    ensures CalmUp(w, m.(st := m.st.(status := s), at := Finished), durable, past.scans)
  {
    assert forall p :: m.st.(status := s).Phase(p) == m.st.Phase(p);
  }

  /** A phase gets a status that findings bear out, and the main thread goes where that leads. */
  lemma {:induction false} SettingKeepsCalm(w: World, m: Process, durable: Items, boots: nat, past: Past,
          name: PhaseName, s: Status, at: Place)
    requires CalmAndSound(w, m, durable, boots, past)
    requires (m.at.Looping? || m.at.Erred? || m.at.Returned?) && m.at.i < |m.st.setup.plan|
    requires m.st.setup.plan[m.at.i] == name
    requires m.at.Looping? ==> m.st.Phase(name) == Pending
    requires (at == InPhase(m.at.i) && s == Running && m.at.Looping?) || (at == Looping(m.at.i + 1) && IsSettled(s))
    requires s == Warned ==> AnyWarning(if name == PowerCycle then m.items else durable)
    requires name == PowerCycle && s == Done ==> m.st.cyclesDone == m.st.setup.Target() || AnyWarning(durable)
    requires name == Inventory && Report.Tested(s) ==> forall id | id in w.disks :: id in m.st.scans
    requires !m.rebooting
    ensures CalmUp(w, Setting(m, name, s, at).mem, durable, past.scans)
  {
    var m1 := Setting(m, name, s, at).mem;
    assert forall p :: m1.st.Phase(p) == if p == name then s else m.st.Phase(p);
    SettingKeepsOrder(w, m, durable, boots, past, name, s, at);
    SettingKeepsShown(w, m, durable, name, s, at);
    SettingKeepsScans(w, m, durable, past.scans, name, s, at);
  }

  lemma {:induction false} SettingKeepsShown(w: World, m: Process, durable: Items, name: PhaseName, s: Status,
          at: Place)
    requires Shown(m, durable) && !m.at.Closed? && m.at != Finished && (at.Looping? || at.InPhase?)
    requires s == Warned ==> AnyWarning(if name == PowerCycle then m.items else durable)
    requires name == PowerCycle && s == Done ==> m.st.cyclesDone == m.st.setup.Target() || AnyWarning(durable)
    ensures Shown(Setting(m, name, s, at).mem, durable)
  {
    var m1 := Setting(m, name, s, at).mem;
    assert forall p :: m1.st.Phase(p) == if p == name then s else m.st.Phase(p);
  }

  lemma {:induction false} SettingKeepsOrder(w: World, m: Process, durable: Items, boots: nat, past: Past,
          name: PhaseName, s: Status, at: Place)
    requires CalmAndSound(w, m, durable, boots, past)
    requires (m.at.Looping? || m.at.Erred? || m.at.Returned?) && m.at.i < |m.st.setup.plan|
    requires m.st.setup.plan[m.at.i] == name
    requires m.at.Looping? ==> m.st.Phase(name) == Pending
    requires (at == InPhase(m.at.i) && s == Running && m.at.Looping?) || (at == Looping(m.at.i + 1) && IsSettled(s))
    ensures InOrder(Setting(m, name, s, at).mem)
  {
    var m1 := Setting(m, name, s, at).mem;
    assert forall p :: m1.st.Phase(p) == if p == name then s else m.st.Phase(p);
    SettledStaysSettled(m.st, name, s, m.at, at);
  }

  /** The entry the main thread was at is settled when it goes on, and not yet settled while it stays. */
  lemma {:induction false} SettledStaysSettled(st: State, name: PhaseName, s: Status, at: Place, at1: Place)
    requires OneRuns(st, at) && EarlierSettled(st, at)
    requires (at.Looping? || at.Erred? || at.Returned?) && at.i < |st.setup.plan| && st.setup.plan[at.i] == name
    requires at.Looping? ==> st.Phase(name) == Pending
    requires (at1 == InPhase(at.i) && s == Running && at.Looping?) || (at1 == Looping(at.i + 1) && IsSettled(s))
    ensures OneRuns(st.WithPhase(name, s), at1) && EarlierSettled(st.WithPhase(name, s), at1)
  {
    var st1 := st.WithPhase(name, s);
    assert st1.setup == st.setup;
    assert forall p :: st1.Phase(p) == if p == name then s else st.Phase(p);
  }

  lemma {:induction false} SettingKeepsScans(w: World, m: Process, durable: Items, history: map<string, S.Scanner>,
          name: PhaseName, s: Status, at: Place)
    requires ScansShown(w, m, durable, history) && !at.Returned?
    requires name == Inventory && Report.Tested(s) ==> forall id | id in w.disks :: id in m.st.scans
    ensures ScansShown(w, Setting(m, name, s, at).mem, durable, history)
  {
    var m1 := Setting(m, name, s, at).mem;
    assert m1.st.Phase(Inventory) == if name == Inventory then s else m.st.Phase(Inventory);
  }

  // ---------- phases are settled

  lemma {:induction false} StartKeepsCalm(w: World, m: Process, durable: Items, boots: nat, past: Past)
    requires CalmAndSound(w, m, durable, boots, past) && Enabled(m, Start)
    ensures CalmUp(w, Setting(m, m.st.setup.plan[m.at.i], Running, InPhase(m.at.i)).mem, durable, past.scans)
  {
    SettingKeepsCalm(w, m, durable, boots, past, m.st.setup.plan[m.at.i], Running, InPhase(m.at.i));
  }

  /** A warning in memory is on disk, unless it is that of a later boot. */
  lemma {:induction false} EndStatusIsShown(m: Process, durable: Items, name: PhaseName)
    requires Agreed(m.items, durable, Late(m.st))
    ensures EndStatus(m.items, name, m.abort) == Warned ==> AnyWarning(m.items) && (!Late(m.st) ==> AnyWarning(durable))
  {
    if EndStatus(m.items, name, m.abort) == Warned {
      var k :| k in m.items && m.items[k].severity == WARN;
      assert !Late(m.st) ==> k in durable && durable[k].severity != INFO;
    }
  }

  lemma {:induction false} RearmKeepsCalm(w: World, m: Process, durable: Items, boots: nat, past: Past)
    requires CalmAndSound(w, m, durable, boots, past) && m.rebooting && m.at.Returned? && m.at.i < |m.st.setup.plan|
    ensures CalmUp(w, Setting(m, m.st.setup.plan[m.at.i], Pending, Settled).mem, durable, past.scans)
  {
    var name := m.st.setup.plan[m.at.i];
    assert name == PowerCycle;
    var m1 := Setting(m, name, Pending, Settled).mem;
    assert forall p :: m1.st.Phase(p) == if p == name then Pending else m.st.Phase(p);
  }

  lemma {:induction false} EndKeepsCalm(w: World, d: Disk, m: Process, boots: nat, past: Past)
    requires CalmMachine(w, d, m, boots, past) && Enabled(m, Settle)
    ensures CalmUp(w, Ended(m, m.st.setup.plan[m.at.i], m.at.i).mem, Durable(d.findings.store), past.scans)
  {
    var name, durable := m.st.setup.plan[m.at.i], Durable(d.findings.store);
    if m.rebooting {
      RearmKeepsCalm(w, m, durable, boots, past);
    } else {
      EndStatusIsShown(m, durable, name);
      EndStatusIsWitnessed(d, m, name);
      SettingKeepsCalm(w, m, durable, boots, past, name, EndStatus(m.items, name, m.abort), Looping(m.at.i + 1));
    }
  }

  lemma {:induction false} MarkingErrorKeepsCalm(w: World, m: Process, durable: Items, boots: nat, past: Past)
    requires CalmAndSound(w, m, durable, boots, past) && Enabled(m, MarkError)
    ensures CalmUp(w, Setting(m, m.st.setup.plan[m.at.i], Errored, Looping(m.at.i + 1)).mem, durable, past.scans)
  {
    SettingKeepsCalm(w, m, durable, boots, past, m.st.setup.plan[m.at.i], Errored, Looping(m.at.i + 1));
  }

  lemma {:induction false} MarkingKeepsCalm(w: World, m: Process, durable: Items, boots: nat, past: Past)
    requires CalmAndSound(w, m, durable, boots, past) && m.at.Noted?
    ensures Marked(m, m.at.cause) == Effect(m.(at := Looping(0)), SaveState)
    ensures CalmUp(w, m.(at := Looping(0)), durable, past.scans)
  {
    CalmCause(w, m, durable, boots, past);
  }

  /** Without unannounced resets their limit is not reached. */
  lemma {:induction false} NothingIsExhausted(w: World, m: Process, durable: Items, boots: nat, past: Past)
    requires Invariant.Sound(w, m, durable, boots, past) && past.unplanned == 0
    ensures !Enabled(m, SkipExhausted)
  {
  }

  lemma {:induction false} SettersKeepCalm(w: World, d: Disk, m: Process, boots: nat, past: Past, a: Action,
          calm: iset<Effect>)
    requires CalmMachine(w, d, m, boots, past) && Covers(w, d, past.scans, calm)
    requires Enabled(m, a) && SetsPhase(a)
    ensures After(w, m, a) in calm
  {
    var durable := Durable(d.findings.store);
    NothingIsExhausted(w, m, durable, boots, past);
    match a {
      case Start => StartKeepsCalm(w, m, durable, boots, past);
      case Settle => EndKeepsCalm(w, d, m, boots, past);
      case MarkError => MarkingErrorKeepsCalm(w, m, durable, boots, past);
      case MarkIncident => MarkingKeepsCalm(w, m, durable, boots, past);
    }
    KeptIsCalm(w, d, After(w, m, a), past.scans, calm);
  }

  lemma {:induction false} MoverShape(w: World, m: Process, a: Action)
    requires Enabled(m, a) && MovesOnly(a)
    ensures !a.PassOver? && !a.BodyReturns? ==> m.at.Looping?
    ensures After(w, m, a).mem ==
      m.(at := if a.PassOver? then Looping(m.at.i + 1) else if a.BodyReturns? then Returned(m.at.i) else Closing)
  {
  }

  lemma {:induction false} MovedIsCalm(w: World, d: Disk, m: Process, boots: nat, past: Past, a: Action)
    requires CalmMachine(w, d, m, boots, past)
    requires Enabled(m, a) && Allowed(w, m, a) && MovesOnly(a)
    ensures CalmUp(w, After(w, m, a).mem, Durable(d.findings.store), past.scans)
  {
    var durable := Durable(d.findings.store);
    MoverShape(w, m, a);
    if a.PassOver? {
      PassingKeepsCalm(w, m, durable, boots, past);
    } else if a.BodyReturns? {
      ReturningKeepsCalm(w, m, durable, boots, past);
    } else {
      ClosingKeepsCalm(w, m, durable, boots, past);
    }
  }

  lemma {:induction false} MoversKeepCalm(w: World, d: Disk, m: Process, boots: nat, past: Past, a: Action,
          calm: iset<Effect>)
    requires CalmMachine(w, d, m, boots, past) && Covers(w, d, past.scans, calm)
    requires Enabled(m, a) && Allowed(w, m, a) && MovesOnly(a)
    ensures After(w, m, a) in calm
  {
    MovedIsCalm(w, d, m, boots, past, a);
    KeptIsCalm(w, d, After(w, m, a), past.scans, calm);
  }

  lemma {:induction false} SaversKeepCalm(w: World, d: Disk, m: Process, boots: nat, past: Past, a: Action,
          calm: iset<Effect>)
    requires CalmMachine(w, d, m, boots, past) && Covers(w, d, past.scans, calm)
    requires Enabled(m, a) && !TouchesFindingsOnly(w, m, a) && !SetsPhase(a) && !Notes(a) && !MovesOnly(a)
    ensures After(w, m, a) in calm
  {
    var durable := Durable(d.findings.store);
    match a {
      case PowerCycleTurn => RequestKeepsCalm(w, m, durable, boots, past, m.at.i);
      case RequestAbort => AbortingKeepsCalm(w, m, durable, boots, past);
      case SaveForReboot => IssuingKeepsCalm(w, m, durable, boots, past);
      case FinishSession =>
        FinishingKeepsCalm(w, m, durable, boots, past, if m.at.aborted then Cancelled else Complete);
    }
    KeptIsCalm(w, d, After(w, m, a), past.scans, calm);
  }

  lemma {:induction false} ActionsKeepCalm(w: World, d: Disk, m: Process, boots: nat, past: Past, a: Action,
          calm: iset<Effect>)
    requires CalmMachine(w, d, m, boots, past) && Covers(w, d, past.scans, calm)
    requires Enabled(m, a) && Allowed(w, m, a)
    ensures After(w, m, a) in calm
  {
    if AboutScans(a) {
      ScanFindingsKeepCalm(w, d, m, past.scans, a, calm);
    } else if OffMainThread(a) {
      OthersKeepCalm(w, d, m, past.scans, a, calm);
    } else if TouchesFindingsOnly(w, m, a) {
      MainFindingsKeepCalm(w, d, m, boots, past, a, calm);
    } else if SetsPhase(a) {
      SettersKeepCalm(w, d, m, boots, past, a, calm);
    } else if MovesOnly(a) {
      MoversKeepCalm(w, d, m, boots, past, a, calm);
    } else if !Notes(a) {
      SaversKeepCalm(w, d, m, boots, past, a, calm);
    } else if a.SaveTests? || a.SelSave? || a.SaveProgress? {
      NotesKeepCalm(w, d, m, boots, past, a, calm);
    } else if a.ScanRead? || a.EndScan? {
      ReadingKeepsCalm(w, d, m, past.scans, a, calm);
    } else {
      ScansKeepCalm(w, d, m, boots, past, a, calm);
    }
  }

  lemma {:induction false} ActionIsCalm(w: World, d: Disk, m: Process, boots: nat, past: Past, a: Action)
    requires CalmMachine(w, d, m, boots, past) && Enabled(m, a) && Allowed(w, m, a)
    ensures CalmAfter(w, d, After(w, m, a), past.scans)
  {
    var calm := iset f | CalmAfter(w, d, f, past.scans);
    CalmEffectsCover(w, d, past.scans, calm);
    ActionsKeepCalm(w, d, m, boots, past, a, calm);
  }

  lemma {:induction false} CalmEffectsCover(w: World, d: Disk, history: map<string, S.Scanner>, calm: iset<Effect>)
    requires calm == iset f | CalmAfter(w, d, f, history)
    ensures Covers(w, d, history, calm)
  {
  }

  // ---------- resets and boots

  /** What the next boot finds is calm as long as the reset was announced, or the session is over. */
  lemma {:induction false} UpIsCalmDown(w: World, d: Disk, m: Process, boots: nat, past: Past)
    requires CalmMachine(w, d, m, boots, past) && CountReset(past, d).unplanned == 0
    ensures CalmDown(w, d, past.scans)
  {
    assert m.st.planned.Some? || m.st.status != Active;
    assert m.st.Phase(PowerCycle) == Warned ==> m.at == Finished;
    forall p | p in m.st.setup.plan && m.st.Phase(p) == Warned ensures AnyWarning(Durable(d.findings.store)) {
    }
  }

  lemma {:induction false} CalmDownDependsOnReading(w: World, d: Disk, d': Disk, history: map<string, S.Scanner>)
    requires CalmDown(w, d, history)
    requires Read(d'.session.store).best == Read(d.session.store).best
    requires Read(d'.findings.store) == Read(d.findings.store)
    ensures CalmDown(w, d', history)
  {
  }

  /** A scan can only begin while a reset would go unannounced. */
  lemma {:induction false} ScansBeginUnannounced(w: World, d: Disk, m: Process, boots: nat, past: Past, a: Action)
    requires Up(w, d, m, boots, past) && Enabled(m, a) && After(w, m, a).write == SaveState
    ensures After(w, m, a).mem.scans == m.scans || ReportDue(After(w, m, a).mem.st)
  {
    if TouchesFindingsOnly(w, m, a) {
      FindingsNeverSave(w, m, a);
    } else if !Notes(a) {
      StateActionKeepsScans(w, m, a);
    } else if a.StartScan? {
      StartedUnannounced(w, d, m, boots, past, a);
    } else {
      NotesKeepScans(w, m, a);
    }
  }

  lemma {:induction false} FindingsNeverSave(w: World, m: Process, a: Action)
    requires Enabled(m, a) && TouchesFindingsOnly(w, m, a)
    ensures After(w, m, a).write != SaveState
  {
  }

  lemma {:induction false} StartedUnannounced(w: World, d: Disk, m: Process, boots: nat, past: Past, a: Action)
    requires Up(w, d, m, boots, past) && Enabled(m, a) && a.StartScan?
    ensures ReportDue(After(w, m, a).mem.st)
  {
    assert m.st.planned.None? && m.st.status == Active;
    NotesShape(w, m, a);
  }

  lemma {:induction false} NotesKeepScans(w: World, m: Process, a: Action)
    requires Enabled(m, a) && Notes(a) && !a.StartScan? && After(w, m, a).write == SaveState
    ensures After(w, m, a).mem.scans == m.scans
  {
  }

  lemma {:induction false} StateActionKeepsScans(w: World, m: Process, a: Action)
    requires Enabled(m, a) && !TouchesFindingsOnly(w, m, a) && !Notes(a)
    ensures After(w, m, a).mem.scans == m.scans
  {
  }

  /** A completed write whose memory was lost: the history knows all that the disk tells. */
  lemma {:induction false} ForgettingKeepsRecorded(w: World, m: Process, durable: Items, f: Effect, durable': Items,
          history: map<string, S.Scanner>)
    requires ScansShown(w, m, durable, history) && NoBetter(durable, durable')
    requires f.mem.st == m.st || f.mem.scans == m.scans
    requires Recorded(w, f.mem.st, history + f.mem.scans, durable')
    ensures Recorded(w, f.mem.st, history, durable')
  {
    if f.mem.scans == m.scans {
      NothingToRemember(history, m.scans);
    } else {
      WorseKeepsRecorded(w, m.st, history, durable, durable');
    }
  }

  lemma {:induction false} CutIsCalmDown(w: World, d: Disk, m: Process, boots: nat, past: Past, a: Action, how: Outcome)
    requires CalmMachine(w, d, m, boots, past) && Enabled(m, a) && Allowed(w, m, a)
    requires CountReset(past, CutShort(d, After(w, m, a), how)).unplanned == 0
    ensures CalmDown(w, CutShort(d, After(w, m, a), how), past.scans)
  {
    var f := After(w, m, a);
    var c := CutShort(d, f, how);
    CutReadsOldOrEqualsNew(d, f, how);
    if c == Stored(d, f) && c != d {
      StoredIsCalmDown(w, d, m, boots, past, a);
    } else {
      UpIsCalmDown(w, d, m, boots, past);
      CalmDownDependsOnReading(w, d, c, past.scans);
    }
  }

  lemma {:induction false} StoredIsCalmDown(w: World, d: Disk, m: Process, boots: nat, past: Past, a: Action)
    requires CalmMachine(w, d, m, boots, past) && Enabled(m, a) && Allowed(w, m, a)
    requires CountReset(past, Stored(d, After(w, m, a))).unplanned == 0 && After(w, m, a).write != Nothing
    ensures CalmDown(w, Stored(d, After(w, m, a)), past.scans)
  {
    var f := After(w, m, a);
    StoredIsUp(w, d, m, boots, past, a);
    UpIsCalmDown(w, Stored(d, f), f.mem, boots, Remember(past, f.mem));
    SameTestsOrScans(w, d, m, boots, past, a);
    StoredIsWorse(w, d, m, boots, past, a);
    ForgettingKeepsDown(w, d, m, boots, past, a);
  }

  lemma {:induction false} StoredIsUp(w: World, d: Disk, m: Process, boots: nat, past: Past, a: Action)
    requires CalmMachine(w, d, m, boots, past) && Enabled(m, a) && Allowed(w, m, a)
    ensures var f := After(w, m, a); CalmMachine(w, Stored(d, f), f.mem, boots, Remember(past, f.mem))
  {
    var f := After(w, m, a);
    ActionIsCalm(w, d, m, boots, past, a);
    ActionsKeepUp(w, d, m, boots, past, a);
    UncountedStartIsUp(w, Stored(d, f), f.mem, boots, past, m, a);
    RememberingKeepsUp(w, Stored(d, f), f.mem, boots, past);
  }

  lemma {:induction false} SameTestsOrScans(w: World, d: Disk, m: Process, boots: nat, past: Past, a: Action)
    requires Up(w, d, m, boots, past) && Enabled(m, a) && After(w, m, a).write != Nothing
    requires !ReportDue(After(w, m, a).mem.st)
    ensures After(w, m, a).mem.st == m.st || After(w, m, a).mem.scans == m.scans
  {
    if After(w, m, a).write == SaveState {
      ScansBeginUnannounced(w, d, m, boots, past, a);
    } else {
      FindingsKeepState(w, m, a);
    }
  }

  lemma {:induction false} ForgettingKeepsDown(w: World, d: Disk, m: Process, boots: nat, past: Past, a: Action)
    requires CalmMachine(w, d, m, boots, past) && Enabled(m, a)
    requires var f := After(w, m, a); var d' := Stored(d, f);
      && (f.mem.st == m.st || f.mem.scans == m.scans)
      && NoBetter(Durable(d.findings.store), Durable(d'.findings.store))
      && Read(d'.session.store).best == Some(f.mem.st) && CalmDown(w, d', past.scans + f.mem.scans)
    ensures CalmDown(w, Stored(d, After(w, m, a)), past.scans)
  {
    var f := After(w, m, a);
    ForgettingKeepsRecorded(w, m, Durable(d.findings.store), f, Durable(Stored(d, f).findings.store), past.scans);
  }

  lemma {:induction false} FindingsKeepState(w: World, m: Process, a: Action)
    requires Enabled(m, a) && After(w, m, a).write == FlushFindings
    ensures After(w, m, a).mem.st == m.st
  {
  }

  /** No step makes the findings on disk better. */
  lemma {:induction false} StoredIsWorse(w: World, d: Disk, m: Process, boots: nat, past: Past, a: Action)
    requires Up(w, d, m, boots, past) && Enabled(m, a)
    ensures NoBetter(Durable(d.findings.store), Durable(Stored(d, After(w, m, a)).findings.store))
  {
    var f := After(w, m, a);
    FlushStores(d, f);
    ItemsGetWorse(w, m, a);
  }

  lemma {:induction false} ItemsGetWorse(w: World, m: Process, a: Action)
    requires Enabled(m, a)
    ensures NoBetter(m.items, After(w, m, a).mem.items)
  {
    if !TouchesFindingsOnly(w, m, a) {
      StateActionShape(w, m, a);
    } else if OffMainThread(a) {
      OtherItemsGetWorse(w, m, a);
    } else {
      match a {
        case NoteIncident => IncidentGetsWorse(m, m.at.cause);
        case BodyRaises =>
          var name := m.st.setup.plan[m.at.i];
          AddedIsNoBetter(m.items, PhaseError(name), Note(WARN, Some(name), true));
        case PowerCycleTurn =>
          AddedIsNoBetter(m.items, PowerCycleSkipped, Note(WARN, Some(PowerCycle), false));
          AddedIsNoBetter(m.items, PowerCycleOk, Note(INFO, Some(PowerCycle), false));
        case FlushForReboot =>
        case FlushFinal =>
      }
    }
  }

  lemma {:induction false} IncidentGetsWorse(m: Process, cause: Cause)
    ensures NoBetter(m.items, Incident(m, cause).mem.items)
  {
    match cause
    case UnexpectedReset(running) => AddedIsNoBetter(m.items, UnexpectedReboot(m.st.unexpected), Note(FAIL, running, false));
    case PlannedReboot => AddedIsNoBetter(m.items, PowerCycleProgress, Note(INFO, None, false));
    case NewSession =>
  }

  lemma {:induction false} OtherItemsGetWorse(w: World, m: Process, a: Action)
    requires Enabled(m, a) && OffMainThread(a)
    ensures NoBetter(m.items, After(w, m, a).mem.items)
  {
    match a {
      case Observe(key, e) => AddedIsNoBetter(m.items, key, e);
      case Escalate(key) =>
      case SelAdd(s, phase) => AddedIsNoBetter(m.items, SelHistoric, Note(s, phase, false));
      case OpenFails(id, phase) => AddedIsNoBetter(m.items, ScanOpen(id), Note(FAIL, phase, false));
      case ReportScan(id, phase) => AddedIsNoBetter(m.items, ScanErrors(id), Note(FAIL, phase, false));
      case MarkPartial(id, phase) => AddedIsNoBetter(m.items, ScanPartial(id), Note(WARN, phase, true));
    }
  }

  /** A calm boot resumes as planned, or begins the session. */
  lemma {:induction false} BootIsCalm(w: World, d: Disk, boot: nat, past: Past, running: Option<PhaseName>)
    requires Down(w, d, boot, past) && past.unplanned == 0 && CalmDown(w, d, past.scans) && Resumable(d, running)
    ensures var (d', f) := Opening(w, d, boot, running);
      CalmUp(w, f.mem, Durable(Stored(d', f).findings.store), past.scans)
  {
    match Read(d.session.store).best
    case None => BeginningIsCalm(w, boot);
    case Some(st) => ResumedIsCalm(w, d, st, boot, past, running);
  }

  lemma {:induction false} BeginningIsCalm(w: World, boot: nat)
    ensures CalmUp(w, Beginning(w, boot), map[], map[])
    ensures Durable(Stored(NewDirectory(), Effect(Beginning(w, boot), SaveState)).findings.store) == map[]
  {
    assert forall p :: Fresh(w.setup, boot).Phase(p) == Pending;
  }

  lemma {:induction false} ResumedIsCalm(w: World, d: Disk, st: State, boot: nat, past: Past,
          running: Option<PhaseName>)
    requires Down(w, d, boot, past) && past.unplanned == 0 && CalmDown(w, d, past.scans)
    requires Read(d.session.store).best == Some(st) && st.status == Active
    ensures CalmUp(w, Resuming(d, st, boot, running), Durable(d.findings.store), past.scans)
  {
    var r := Resume(st, boot);
    assert st.boots != [] && st.boots[|st.boots| - 1] < boot;
    assert st.planned.Some? && r.planned;
    assert forall p :: r.st.Phase(p) == st.Phase(p);
  }

  lemma {:induction false} CutBootIsCalm(w: World, d: Disk, boot: nat, past: Past, running: Option<PhaseName>,
          how: Outcome)
    requires Down(w, d, boot, past) && past.unplanned == 0 && CalmDown(w, d, past.scans) && Resumable(d, running)
    requires var (d', f) := Opening(w, d, boot, running); CountReset(past, CutShort(d', f, how)).unplanned == 0
    ensures var (d', f) := Opening(w, d, boot, running); CalmDown(w, CutShort(d', f, how), past.scans)
  {
    var (d', f) := Opening(w, d, boot, running);
    var c := CutShort(d', f, how);
    BootIsUp(w, d, boot, past, running);
    if Read(d.session.store).best.None? {
      assert how != WroteNew ==> Read(c.session.store).best == None;
    } else {
      CutReadsOldOrEqualsNew(d, f, how);
      assert c != Stored(d', f) || f.mem.st.planned.None?;
      CalmDownDependsOnReading(w, d, c, past.scans);
    }
  }

  // ---------- whole runs

  lemma {:induction false} ActIsCalm(w: World, m: Machine, a: Action)
    requires Holds(w, m) && CalmHolds(w, m) && Legal(w, m, Act(a))
    ensures CalmHolds(w, Take(w, m, Act(a)))
  {
    if m.past.unplanned == 0 {
      ActionIsCalm(w, m.disk, m.power.value, m.boots, m.past, a);
    }
  }

  lemma {:induction false} TurnKeepsCalm(w: World, m: Machine, t: Turn)
    requires Holds(w, m) && CalmHolds(w, m) && Legal(w, m, t)
    ensures CalmHolds(w, Take(w, m, t))
  {
    if Take(w, m, t).past.unplanned == 0 {
      match t
      case Boot(running) => BootIsCalm(w, m.disk, m.boots, m.past, running);
      case BootCut(running, how) => CutBootIsCalm(w, m.disk, m.boots, m.past, running, how);
      case Act(a) => ActIsCalm(w, m, a);
      case ActCut(a, how) => CutIsCalmDown(w, m.disk, m.power.value, m.boots, m.past, a, how);
      case Reset => UpIsCalmDown(w, m.disk, m.power.value, m.boots, m.past);
    }
  }

  /** As long as no reset went unannounced, calm holds after any run. */
  lemma {:induction false} RunKeepsCalm(w: World, turns: seq<Turn>)
    requires w.setup.Valid() && LegalRun(w, Init(), turns)
    ensures CalmHolds(w, Run(w, Init(), turns))
    decreases |turns|
  {
    if turns == [] {
    } else {
      RunKeeps(w, turns[..|turns| - 1]);
      RunKeepsCalm(w, turns[..|turns| - 1]);
      TurnKeepsCalm(w, Run(w, Init(), turns[..|turns| - 1]), turns[|turns| - 1]);
    }
  }
}
