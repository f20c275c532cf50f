/**
 The multi-boot test run of src/pccheck/orchestrator.py as a transition system.

 A machine has two durable stores and, while it is up, the memory of one test process.
 Every action changes memory and then makes at most one durable write. A reset may come
 between any two actions or inside a write, where it leaves the slot being written old,
 unreadable or new. The next boot opens whatever the stores then hold.
 */
module Orchestrator {
  import opened Wrappers
  import opened Config
  import opened RotatingStore
  import opened StoreHistory
  import opened FindingStore
  import opened TestSession
  import opened FindingKeys
  import D = DestructiveTests
  import S = SurfaceScanning

  /** What is fixed during one session: its setup, whether storage survives a reset, and the disks by identity. */
  datatype World = World(setup: Setup, persistent: bool, disks: map<string, D.Device>)

  /** Why this process began. */
  datatype Cause = NewSession | PlannedReboot | UnexpectedReset(running: Option<PhaseName>)

  /** Where the main thread stands; an index counts plan entries. */
  datatype Place =
    | Booted(cause: Cause)      // session opened and saved, findings loaded
    | Noted(cause: Cause)       // incident finding recorded
    | Looping(i: nat)           // about to look at plan entry i
    | InPhase(i: nat)           // its workload has begun
    | Erred(i: nat)             // its workload raised; the error finding is recorded
    | Returned(i: nat)          // its workload returned
    | Settled                   // planned reboot: phase is pending again
    | Synced                    // planned reboot: findings flushed
    | RebootIssued              // planned reboot: state saved, machine told to reboot
    | Closing                   // phases are over
    | Closed(aborted: bool)     // final findings flushed
    | Finished                  // session marked complete or aborted

  /** How far the monitor of the BMC log is with what was logged before the session; see `SelAdd` and `SelSave`. */
  datatype SelTask = Unread | AddedFirst | SavedFirst | Told

  datatype Process = Process(
    st: State, items: Items, dirty: bool, abort: bool, rebooting: bool, at: Place,
    scans: map<string, S.Scanner>, sel: SelTask)

  /** The two documents with the sequence counters of whoever writes them. */
  datatype Disk = Disk(session: Writer<State>, findings: Writer<Items>)

  /**
   Workloads begun over all boots, resets of the running session that no marker announced,
   and the last scan of every disk as far as it got before its process ended.
   */
  datatype Past = Past(
    inventory: nat, powercycle: nat, stress: seq<PhaseName>, unplanned: nat, scans: map<string, S.Scanner>)
  {
    function Starts(): nat {
      inventory + powercycle + |stress|
    }
  }

  datatype Machine = Machine(disk: Disk, power: Option<Process>, boots: nat, past: Past)

  function Init(): Machine {
    Machine(NewDirectory(), None, 0, Past(0, 0, [], 0, map[]))
  }

  /** Nothing is saved yet; the session starts counting at 0, the findings at -1. */
  function NewDirectory(): Disk {
    Disk(Writer(Empty(), 0), Writer(Empty(), -1))
  }

  // ---------- actions of the test process

  datatype Action =
    // monitors, phase bodies and the operator, at any time
    | Observe(key: Key, event: Event)
    | Escalate(key: Key)
    | SaveTests(selftests: seq<(string, bool)>)
    | RequestAbort
    // the BMC log from before the session: its finding and the mark that it was read, in either order
    | SelAdd(severity: Severity, phase: Option<PhaseName>) | SelSave
    // disk tests; the reads and the report are those of the scan threads
    | StartScan(id: string, write: bool)
    | ScanRead(id: string, result: S.ReadResult) | EndScan(id: string)
    | OpenFails(id: string, phase: Option<PhaseName>) | ReportScan(id: string, phase: Option<PhaseName>)
    | SaveProgress(written: set<string>)
    | MarkPartial(id: string, phase: Option<PhaseName>) | FinishDisks(selftests: seq<(string, bool)>)
    // record_incident
    | NoteIncident | MarkIncident
    // run_phases
    | PassOver | Leave | SkipExhausted | Start | EndPlan
    | BodyReturns | PowerCycleTurn | BodyRaises | MarkError | Settle
    // perform_reboot
    | FlushForReboot | SaveForReboot
    // finalize
    | FlushFinal | FinishSession

  /** A finding of the main thread; its texts do not matter here. */
  function Note(s: Severity, phase: Option<PhaseName>, incomplete: bool): Event {
    Event(s, "", "", "", "", 1, phase, [], incomplete)
  }

  /** The status a phase ends with, from the findings attributed to it. */
  function EndStatus(items: Items, name: PhaseName, abort: bool): Status {
    if abort then Aborted
    else if exists k | k in items :: items[k].phase == Some(name) && items[k].incomplete then Errored
    else if exists k | k in items :: items[k].phase == Some(name) && items[k].severity == FAIL then Failed
    else if exists k | k in items :: items[k].phase == Some(name) && items[k].severity == WARN then Warned
    else Done
  }

  /** The entry the loop looks at is pending and neither an abort nor the reset limit stops it. */
  predicate MayRun(m: Process) {
    && m.at.Looping? && m.at.i < |m.st.setup.plan|
    && m.st.Phase(m.st.setup.plan[m.at.i]) == Pending
    && !m.abort && m.st.unexpected < m.st.setup.maxUnexpected
  }

  /** Planned reboots must not cut disk tests short, so those finish first. */
  predicate DisksFirst(m: Process)
    requires m.at.Looping? && m.at.i < |m.st.setup.plan|
  {
    m.st.setup.plan[m.at.i] == PowerCycle && !m.st.disksFinished
  }

  /** `finish_disk_tests` may be under way. */
  predicate Finishing(m: Process) {
    !m.st.disksFinished && (m.at == Closing || (MayRun(m) && DisksFirst(m)))
  }

  /** Disk tests begin in the inventory phase, and again when a session resumes after it. */
  predicate MayScan(m: Process) {
    && !m.st.disksFinished
    && ((m.at.InPhase? && m.at.i < |m.st.setup.plan| && m.st.setup.plan[m.at.i] == Inventory)
        || (m.at == Looping(0) && m.st.Phase(Inventory) != Pending))
  }

  /** A scan that `stop` need not report as partial: it has read, reported and is done. */
  predicate Accounted(s: S.Scanner) {
    s.partial || (s.done && (s.stage == S.Reported || s.stage == S.Unopened))
  }

  predicate SelUnread(m: Process) {
    (m.sel == Unread && !m.st.selKnown) || m.sel == SavedFirst
  }

  predicate Enabled(m: Process, a: Action) {
    var plan := m.st.setup.plan;
    match a
    case Observe(key, e) => FitsKey(key, e)
    case Escalate(_) => true
    case SaveTests(_) => true
    case RequestAbort => true
    case SelAdd(s, _) => s != FAIL && SelUnread(m)
    case SelSave => (m.sel == Unread && !m.st.selKnown) || m.sel == AddedFirst
    case StartScan(id, _) => MayScan(m) && id !in m.scans
    case ScanRead(id, r) => id in m.scans && S.Readable(m.scans[id]) && S.Fits(m.scans[id], r)
    case EndScan(id) =>
      && id in m.scans && m.scans[id].stage == S.Reading
      && (m.scans[id].offset >= m.scans[id].size || m.st.disksFinished || Finishing(m))
    case OpenFails(id, _) => id in m.scans && m.scans[id] == S.Begun(m.scans[id].size, m.scans[id].start)
    case ReportScan(id, _) => id in m.scans && m.scans[id].stage == S.Over
    case SaveProgress(_) => true
    case MarkPartial(id, _) => Finishing(m) && id in m.scans && !m.scans[id].done
    case FinishDisks(_) => Finishing(m) && forall id | id in m.scans :: Accounted(m.scans[id])
    case NoteIncident => m.at.Booted?
    case MarkIncident => m.at.Noted?
    case PassOver => m.at.Looping? && m.at.i < |plan| && m.st.Phase(plan[m.at.i]) != Pending
    case Leave => m.at.Looping? && m.at.i < |plan| && m.st.Phase(plan[m.at.i]) == Pending && m.abort
    case SkipExhausted =>
      && m.at.Looping? && m.at.i < |plan| && m.st.Phase(plan[m.at.i]) == Pending && !m.abort
      && m.st.unexpected >= m.st.setup.maxUnexpected
    case Start => MayRun(m) && !DisksFirst(m)
    case EndPlan => m.at.Looping? && m.at.i >= |plan|
    case BodyReturns => m.at.InPhase? && m.at.i < |plan| && plan[m.at.i] != PowerCycle
    case PowerCycleTurn => m.at.InPhase? && m.at.i < |plan| && plan[m.at.i] == PowerCycle
    case BodyRaises => m.at.InPhase? && m.at.i < |plan|
    case MarkError => m.at.Erred? && m.at.i < |plan|
    case Settle => m.at.Returned? && m.at.i < |plan|
    case FlushForReboot => m.at == Settled
    case SaveForReboot => m.at == Synced
    case FlushFinal => m.at == Closing && m.st.disksFinished
    case FinishSession => m.at.Closed?
  }

  datatype Writing = Nothing | SaveState | FlushFindings

  datatype Effect = Effect(mem: Process, write: Writing)

  /** `findings.add` from the main thread or a monitor. */
  function Adding(m: Process, key: Key, e: Event): Effect {
    var urgent := Urgent(m.items, key, e);
    Effect(m.(items := AddItem(m.items, key, e), dirty := !urgent), if urgent then FlushFindings else Nothing)
  }

  function Going(e: Effect, at: Place): Effect {
    e.(mem := e.mem.(at := at))
  }

  function Setting(m: Process, name: PhaseName, s: Status, at: Place): Effect {
    Effect(m.(st := m.st.WithPhase(name, s), at := at), SaveState)
  }

  /** One turn of the power cycle phase: request the next reboot, or stop. */
  function PowerCycling(w: World, m: Process, i: nat): Effect {
    if !w.persistent then
      Going(Adding(m, PowerCycleSkipped, Note(WARN, Some(PowerCycle), false)), Returned(i))
    else if m.st.cyclesDone >= m.st.setup.Target() then
      Going(Adding(m, PowerCycleOk, Note(INFO, Some(PowerCycle), false)), Returned(i))
    else
      Effect(m.(st := m.st.(planned := Some(m.st.cyclesDone + 1)), rebooting := true, at := Returned(i)), SaveState)
  }

  /** `record_incident`, first half: the finding. */
  function Incident(m: Process, cause: Cause): Effect {
    match cause
    case UnexpectedReset(running) =>
      Going(Adding(m, UnexpectedReboot(m.st.unexpected), Note(FAIL, running, false)), Noted(cause))
    case PlannedReboot => Going(Adding(m, PowerCycleProgress, Note(INFO, None, false)), Noted(cause))
    case NewSession => Effect(m.(at := Noted(cause)), Nothing)
  }

  /** `record_incident`, second half: an interrupted inventory is collected again, nothing else is. */
  function Marked(m: Process, cause: Cause): Effect {
    if cause.UnexpectedReset? && cause.running.Some? then
      var name := cause.running.value;
      Setting(m, name, if name == Inventory then Pending else Interrupted, Looping(0))
    else Effect(m.(at := Looping(0)), SaveState)
  }

  /** The end of a phase whose workload returned. */
  function Ended(m: Process, name: PhaseName, i: nat): Effect {
    if m.rebooting then Setting(m, name, Pending, Settled)
    else Setting(m, name, EndStatus(m.items, name, m.abort), Looping(i + 1))
  }

  /** Counters only ever escalate to a failure. */
  function Escalating(m: Process, key: Key): Effect {
    var items := EscalateItem(m.items, key, FAIL);
    Effect(m.(items := items, dirty := false), if m.dirty || items != m.items then FlushFindings else Nothing)
  }

  function Saving(m: Process, st: State): Effect {
    Effect(m.(st := st), SaveState)
  }

  // ---------- disk tests

  function Scanning(m: Process, id: string, s: S.Scanner): Process {
    m.(scans := m.scans[id := s])
  }

  /** `start_scans` for one disk: a disk to be read whose test is not done is read from its saved offset. */
  function Starting(m: Process, id: string, d: D.Device, write: bool): Effect {
    var entry :=
      if id in m.st.scans then m.st.scans[id]
      else D.Entry(d.name, d.size, 0, false, if write then D.WriteVerify else D.ReadOnly);
    var m' := m.(st := m.st.(scans := m.st.scans[id := entry]));
    Effect(if entry.done || entry.mode == D.WriteVerify then m' else Scanning(m', id, S.Begun(d.size, entry.offset)), SaveState)
  }

  /** `save_progress`: every scan thread's offset, and which write tests have finished. */
  function Progressed(st: State, scans: map<string, S.Scanner>, written: set<string>): State {
    st.(scans := map id | id in st.scans ::
      var e := st.scans[id];
      if id in scans then e.(offset := scans[id].offset, done := scans[id].done)
      else if e.mode == D.WriteVerify then e.(done := id in written)
      else e)
  }

  /** `report_scan` as far as failures go; slow reads and a good end are other threads' findings to the model. */
  function ReportingScan(m: Process, id: string, phase: Option<PhaseName>): Effect
    requires id in m.scans
  {
    var m' := Scanning(m, id, m.scans[id].(stage := S.Reported));
    if m.scans[id].errors > 0 then Adding(m', ScanErrors(id), Note(FAIL, phase, false)) else Effect(m', Nothing)
  }

  function Unopened(m: Process, id: string, phase: Option<PhaseName>): Effect
    requires id in m.scans
  {
    Adding(Scanning(m, id, m.scans[id].(done := true, stage := S.Unopened)), ScanOpen(id), Note(FAIL, phase, false))
  }

  // ---------- the BMC log from before the session

  function SelNoted(m: Process): Process {
    m.(sel := if m.sel == Unread then AddedFirst else Told)
  }

  function SelAdding(m: Process, s: Severity, phase: Option<PhaseName>): Effect {
    Adding(SelNoted(m), SelHistoric, Note(s, phase, false))
  }

  function SelSaving(m: Process): Effect {
    Effect(m.(st := m.st.(selKnown := true), sel := if m.sel == Unread then SavedFirst else Told), SaveState)
  }

  function After(w: World, m: Process, a: Action): Effect
    requires Enabled(m, a)
  {
    var plan := m.st.setup.plan;
    match a
    case Observe(key, e) => Adding(m, key, e)
    case Escalate(key) => Escalating(m, key)
    case SaveTests(selftests) => Saving(m, m.st.(selftests := selftests))
    case SelAdd(s, phase) => SelAdding(m, s, phase)
    case SelSave => SelSaving(m)
    case StartScan(id, write) => if id in w.disks then Starting(m, id, w.disks[id], write) else Effect(m, Nothing)
    case ScanRead(id, r) => Effect(Scanning(m, id, S.ReadOnce(m.scans[id], r)), Nothing)
    case EndScan(id) => Effect(Scanning(m, id, S.Left(m.scans[id])), Nothing)
    case OpenFails(id, phase) => Unopened(m, id, phase)
    case ReportScan(id, phase) => ReportingScan(m, id, phase)
    case SaveProgress(written) => Saving(m, Progressed(m.st, m.scans, written))
    case MarkPartial(id, phase) =>
      Adding(Scanning(m, id, m.scans[id].(partial := true)), ScanPartial(id), Note(WARN, phase, true))
    case FinishDisks(selftests) => Saving(m, m.st.(disksFinished := true, selftests := selftests))
    case RequestAbort => Effect(m.(abort := true), SaveState)
    case NoteIncident => Incident(m, m.at.cause)
    case MarkIncident => Marked(m, m.at.cause)
    case PassOver => Effect(m.(at := Looping(m.at.i + 1)), Nothing)
    case Leave => Effect(m.(at := Closing), Nothing)
    case SkipExhausted => Setting(m, plan[m.at.i], Skipped, Looping(m.at.i + 1))
    case Start => Setting(m, plan[m.at.i], Running, InPhase(m.at.i))
    case EndPlan => Effect(m.(at := Closing), Nothing)
    case BodyReturns => Effect(m.(at := Returned(m.at.i)), Nothing)
    case PowerCycleTurn => PowerCycling(w, m, m.at.i)
    case BodyRaises =>
      Going(Adding(m, PhaseError(plan[m.at.i]), Note(WARN, Some(plan[m.at.i]), true)), Erred(m.at.i))
    case MarkError => Setting(m, plan[m.at.i], Errored, Looping(m.at.i + 1))
    case Settle => Ended(m, plan[m.at.i], m.at.i)
    case FlushForReboot => Effect(m.(at := Synced, dirty := false), FlushFindings)
    case SaveForReboot => Effect(m.(at := RebootIssued), SaveState)
    case FlushFinal => Effect(m.(at := Closed(m.abort), dirty := false), FlushFindings)
    case FinishSession =>
      Effect(m.(st := m.st.(status := if m.at.aborted then Cancelled else Complete), at := Finished), SaveState)
  }

  // ---------- writes and resets

  /** The disk once the effect's write has completed. */
  function Stored(d: Disk, e: Effect): Disk {
    match e.write
    case Nothing => d
    case SaveState => d.(session := Step(d.session, Saved(e.mem.st)))
    case FlushFindings => d.(findings := Step(d.findings, Saved(e.mem.items)))
  }

  /** What a reset inside the effect's write leaves for the next boot. */
  function CutShort(d: Disk, e: Effect, how: Outcome): Disk {
    match e.write
    case Nothing => d
    case SaveState => d.(session := Step(d.session, SaveCut(e.mem.st, how)))
    case FlushFindings => d.(findings := Step(d.findings, SaveCut(e.mem.items, how)))
  }

  function Resuming(d: Disk, st: State, boot: nat, running: Option<PhaseName>): Process {
    var r := Resume(st, boot);
    Process(r.st, Durable(d.findings.store), false, false, false,
            Booted(if r.planned then PlannedReboot else UnexpectedReset(running)), map[], Unread)
  }

  function Beginning(w: World, boot: nat): Process {
    Process(Fresh(w.setup, boot), map[], false, false, false, Booted(NewSession), map[], Unread)
  }

  /** `Session.open` up to its save: resume the session on disk, or begin one in a new directory.
      No boot id repeats, so the restart branch of `Resume` is never taken here. */
  function Opening(w: World, d: Disk, boot: nat, running: Option<PhaseName>): (Disk, Effect) {
    match Read(d.session.store).best
    case None => (NewDirectory(), Effect(Beginning(w, boot), SaveState))
    case Some(st) => (d, Effect(Resuming(d, st, boot, running), SaveState))
  }

  /** A boot continues this run unless the session on disk is over. */
  predicate Resumable(d: Disk, running: Option<PhaseName>) {
    match Read(d.session.store).best
    case None => true
    case Some(st) => st.status == Active && IsRunningPhase(st, running)
  }

  /** A reset counts when it hits a running session that announces no planned reboot. */
  function CountReset(past: Past, d: Disk): Past {
    match Read(d.session.store).best
    case None => past
    case Some(st) =>
      if st.status == Active && st.planned.None? then past.(unplanned := past.unplanned + 1) else past
  }

  function CountStart(past: Past, m: Process, a: Action): Past
    requires Enabled(m, a)
  {
    if a != Start then past
    else
      var name := m.st.setup.plan[m.at.i];
      if name == Inventory then past.(inventory := past.inventory + 1)
      else if name == PowerCycle then past.(powercycle := past.powercycle + 1)
      else past.(stress := past.stress + [name])
  }

  datatype Turn =
    | Boot(running: Option<PhaseName>)
    | BootCut(running: Option<PhaseName>, how: Outcome)
    | Act(action: Action)
    | ActCut(action: Action, how: Outcome)
    | Reset

  predicate Legal(w: World, m: Machine, s: Turn) {
    match s
    case Boot(running) => m.power.None? && Resumable(m.disk, running)
    case BootCut(running, _) => m.power.None? && Resumable(m.disk, running) && w.persistent
    case Act(a) => m.power.Some? && Enabled(m.power.value, a) && Allowed(w, m.power.value, a)
    case ActCut(a, _) => m.power.Some? && Enabled(m.power.value, a) && Allowed(w, m.power.value, a) && w.persistent
    case Reset => m.power.Some? && w.persistent
  }

  /** Disk tests are of the listed disks, and inventory returns only when all of them have begun. */
  predicate Allowed(w: World, m: Process, a: Action)
    requires Enabled(m, a)
  {
    match a
    case StartScan(id, _) => id in w.disks
    case BodyReturns =>
      m.st.setup.plan[m.at.i] == Inventory && !m.st.disksFinished ==> forall id | id in w.disks :: id in m.st.scans
    case _ => true
  }

  /** What has been read so far is remembered beyond the process, for the proofs. */
  function Remember(past: Past, m: Process): Past {
    past.(scans := past.scans + m.scans)
  }

  function Take(w: World, m: Machine, s: Turn): Machine
    requires Legal(w, m, s)
  {
    match s
    case Boot(running) =>
      var (d, e) := Opening(w, m.disk, m.boots, running);
      Machine(Stored(d, e), Some(e.mem), m.boots + 1, m.past)
    case BootCut(running, how) =>
      var (d, e) := Opening(w, m.disk, m.boots, running);
      var d' := CutShort(d, e, how);
      Machine(d', None, m.boots + 1, CountReset(m.past, d'))
    case Act(a) =>
      var e := After(w, m.power.value, a);
      Machine(Stored(m.disk, e), Some(e.mem), m.boots, Remember(CountStart(m.past, m.power.value, a), e.mem))
    case ActCut(a, how) =>
      var d := CutShort(m.disk, After(w, m.power.value, a), how);
      Machine(d, None, m.boots, CountReset(m.past, d))
    case Reset =>
      Machine(m.disk, None, m.boots, CountReset(m.past, m.disk))
  }

  predicate LegalRun(w: World, m: Machine, steps: seq<Turn>)
    decreases |steps|, 0
  {
    steps == [] ||
    var before := steps[..|steps| - 1];
    LegalRun(w, m, before) && Legal(w, Run(w, m, before), steps[|steps| - 1])
  }

  function Run(w: World, m: Machine, steps: seq<Turn>): Machine
    requires LegalRun(w, m, steps)
    decreases |steps|, 1
  {
    if steps == [] then m
    else Take(w, Run(w, m, steps[..|steps| - 1]), steps[|steps| - 1])
  }
}
