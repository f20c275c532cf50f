/**
 What one boot makes of what its workloads, disks and final checks show: the effect of each
 part of the main thread on memory, told without its steps, and what follows for the verdict.
 */
module BootOutcomes {
  import opened Wrappers
  import opened Config
  import opened FindingStore
  import opened TestSession
  import opened FindingKeys
  import opened Orchestrator
  import opened Report
  import D = DestructiveTests
  import S = SurfaceScanning

  /** What a workload does as seen by the orchestrator. */
  datatype Body = Body(events: seq<(Key, Event)>, raises: bool, abort: bool)

  /**
   The disks as they answer: which are to be written, each device with the number of reads
   its scan gets, the write tests that finish, the self-tests, and whether the operator
   aborts meanwhile.
   */
  datatype DiskTests = DiskTests(
    write: set<string>, device: string -> S.Device, rounds: string -> nat, written: set<string>,
    selftests: seq<(string, bool)>, abort: bool)

  ghost predicate Answers(disks: map<string, D.Device>, tests: DiskTests) {
    forall id | id in disks :: S.Honest(tests.device(id), disks[id].size)
  }

  /** Workloads and checks add what FindingKeys allows. */
  predicate Fitting(events: seq<(Key, Event)>) {
    forall i | 0 <= i < |events| :: FitsKey(events[i].0, events[i].1)
  }

  // ---------- findings that were offered are there

  predicate Recorded(items: Items, key: Key, e: Event) {
    && key in items && Rank(items[key].severity) >= Rank(e.severity)
    && (e.incomplete ==> items[key].incomplete)
  }

  predicate AllRecorded(items: Items, events: seq<(Key, Event)>) {
    forall i | 0 <= i < |events| :: Recorded(items, events[i].0, events[i].1)
  }

  lemma {:induction false} NoBetterJoins(a: Items, b: Items, c: Items)
    requires NoBetter(a, b) && NoBetter(b, c)
    ensures NoBetter(a, c)
  {
  }

  lemma {:induction false} StayRecorded(a: Items, b: Items, events: seq<(Key, Event)>)
    requires AllRecorded(a, events) && NoBetter(a, b)
    ensures AllRecorded(b, events)
  {
    forall i | 0 <= i < |events| ensures Recorded(b, events[i].0, events[i].1) {
      assert Recorded(a, events[i].0, events[i].1);
    }
  }

  lemma {:induction false} AddRecords(items: Items, key: Key, e: Event)
    ensures Recorded(AddItem(items, key, e), key, e) && NoBetter(items, AddItem(items, key, e))
  {
  }

  lemma {:induction false} AddAllRecords(items: Items, events: seq<(Key, Event)>)
    ensures AllRecorded(AddAll(items, events), events) && NoBetter(items, AddAll(items, events))
  {
    if events == [] {
    } else {
      var front := events[..|events| - 1];
      var (key, e) := events[|events| - 1];
      var before := AddAll(items, front);
      AddAllRecords(items, front);
      AddRecords(before, key, e);
      StayRecorded(before, AddItem(before, key, e), front);
      NoBetterJoins(items, before, AddItem(before, key, e));
      forall i | 0 <= i < |events| ensures Recorded(AddAll(items, events), events[i].0, events[i].1) {
        assert i < |front| ==> events[i] == front[i];
      }
    }
  }

  lemma {:induction false} AddAllJoins(items: Items, a: seq<(Key, Event)>, b: seq<(Key, Event)>)
    ensures AddAll(AddAll(items, a), b) == AddAll(items, a + b)
  {
    if b == [] {
      assert a + b == a;
    } else {
      AddAllJoins(items, a, b[..|b| - 1]);
      assert (a + b)[..|a + b| - 1] == a + b[..|b| - 1];
    }
  }

  ghost predicate Offered(events: seq<(Key, Event)>, s: Severity) {
    exists i | 0 <= i < |events| :: events[i].1.severity == s
  }

  ghost predicate OfferedIncomplete(events: seq<(Key, Event)>) {
    exists i | 0 <= i < |events| :: events[i].1.incomplete
  }

  /** Nothing is found but what was offered. */
  lemma {:induction false} OnlyOffered(events: seq<(Key, Event)>, key: Key)
    requires key in AddAll(map[], events)
    ensures exists i | 0 <= i < |events| ::
      events[i].0 == key && events[i].1.severity == AddAll(map[], events)[key].severity
    ensures AddAll(map[], events)[key].incomplete ==> OfferedIncomplete(events)
  {
    var front := events[..|events| - 1];
    var (k, e) := events[|events| - 1];
    var before := AddAll(map[], front);
    if key in before {
      OnlyOffered(front, key);
      var i :| 0 <= i < |front| && front[i].0 == key && front[i].1.severity == before[key].severity;
      assert events[i] == front[i];
      if before[key].incomplete {
        var j :| 0 <= j < |front| && front[j].1.incomplete;
        assert events[j] == front[j];
      }
    }
    assert events[|events| - 1] == (k, e);
  }

  lemma {:induction false} FoundIsOffered(events: seq<(Key, Event)>, s: Severity)
    ensures AnyAt(AddAll(map[], events), s) ==> Offered(events, s)
    ensures AnyIncomplete(AddAll(map[], events)) ==> OfferedIncomplete(events)
  {
    var items := AddAll(map[], events);
    if AnyAt(items, s) {
      var key :| key in items && items[key].severity == s;
      OnlyOffered(events, key);
    }
    if AnyIncomplete(items) {
      var key :| key in items && items[key].incomplete;
      OnlyOffered(events, key);
    }
  }

  lemma {:induction false} RecordedShows(items: Items, events: seq<(Key, Event)>)
    requires AllRecorded(items, events)
    ensures Offered(events, FAIL) ==> AnyAt(items, FAIL)
    ensures OfferedIncomplete(events) ==> AnyIncomplete(items)
    ensures Offered(events, WARN) ==> AnyAt(items, WARN) || AnyAt(items, FAIL)
  {
    if Offered(events, FAIL) {
      var i :| 0 <= i < |events| && events[i].1.severity == FAIL;
      assert Recorded(items, events[i].0, events[i].1);
      assert items[events[i].0].severity == FAIL;
    }
    if OfferedIncomplete(events) {
      var i :| 0 <= i < |events| && events[i].1.incomplete;
      assert Recorded(items, events[i].0, events[i].1);
      assert items[events[i].0].incomplete;
    }
    if Offered(events, WARN) {
      var i :| 0 <= i < |events| && events[i].1.severity == WARN;
      assert Recorded(items, events[i].0, events[i].1);
      assert items[events[i].0].severity == WARN || items[events[i].0].severity == FAIL;
    }
  }

  /** The findings of a session that began with none are as bad as the worst that was offered. */
  lemma {:induction false} FoundIffOffered(events: seq<(Key, Event)>)
    ensures var items := AddAll(map[], events);
      && (AnyAt(items, FAIL) <==> Offered(events, FAIL))
      && (AnyIncomplete(items) <==> OfferedIncomplete(events))
      && (AnyAt(items, WARN) ==> Offered(events, WARN))
      && (Offered(events, WARN) ==> AnyAt(items, WARN) || AnyAt(items, FAIL))
  {
    AddAllRecords(map[], events);
    RecordedShows(AddAll(map[], events), events);
    FoundIsOffered(events, FAIL);
    FoundIsOffered(events, WARN);
  }

  // ---------- one phase

  /** The findings after a workload: all it offered, and the internal error if it raised. */
  function BodyItems(items: Items, name: PhaseName, body: Body): Items {
    var found := AddAll(items, body.events);
    if body.raises then AddItem(found, PhaseError(name), Note(WARN, Some(name), true)) else found
  }

  /** How a workload's end shows: by the internal error, or by the place alone. */
  function BodyEnded(p: Process, i: nat, raised: bool): Process
    requires i < |p.st.setup.plan|
  {
    var name := p.st.setup.plan[i];
    if raised then Going(Adding(p, PhaseError(name), Note(WARN, Some(name), true)), Erred(i)).mem
    else p.(at := if name == PowerCycle then InPhase(i) else Returned(i))
  }

  function EntryFor(entries: map<string, D.Entry>, id: string, d: D.Device, write: bool): D.Entry {
    if id in entries then entries[id] else D.Entry(d.name, d.size, 0, false, if write then D.WriteVerify else D.ReadOnly)
  }

  /** The disk is on record, and is being read from its saved offset if it is to be read and not done. */
  predicate HasBegun(entry: D.Entry, entries: map<string, D.Entry>, scans: map<string, S.Scanner>, id: string, size: nat) {
    && id in entries && entries[id] == entry
    && (if !entry.done && entry.mode == D.ReadOnly
        then id in scans && scans[id] == S.Begun(size, entry.offset)
        else id !in scans)
  }

  /** What the start of the tests does to entries and threads, but for the disks that are left to look at. */
  ghost predicate BeginsBut(left: set<string>, disks: map<string, D.Device>, write: set<string>,
          entries: map<string, D.Entry>, scans: map<string, S.Scanner>,
          entries1: map<string, D.Entry>, scans1: map<string, S.Scanner>) {
    && entries1.Keys == entries.Keys + (disks.Keys - left)
    && (forall id | id in entries :: entries1[id] == entries[id])
    && (forall id | id in scans :: id in scans1 && scans1[id] == scans[id])
    && (forall id | id in scans1 && id !in scans :: id in disks && id !in left)
    && (forall id | id in disks && id !in left && id !in scans ::
          HasBegun(EntryFor(entries, id, disks[id], id in write), entries1, scans1, id, disks[id].size))
  }

  /** Every disk without a thread is on record, to be written or read; those to be read have one, from their saved offset. */
  ghost predicate Begins(disks: map<string, D.Device>, write: set<string>, p: Process, q: Process) {
    BeginsBut({}, disks, write, p.st.scans, p.scans, q.st.scans, q.scans)
  }

  lemma {:induction false} OneMoreBegins(left: set<string>, disks: map<string, D.Device>, write: set<string>,
          entries: map<string, D.Entry>, scans: map<string, S.Scanner>,
          entries1: map<string, D.Entry>, scans1: map<string, S.Scanner>, id: string)
    requires BeginsBut(left, disks, write, entries, scans, entries1, scans1) && id in left && id in disks
    requires id !in scans
    ensures var entry := EntryFor(entries, id, disks[id], id in write);
      BeginsBut(left - {id}, disks, write, entries, scans, entries1[id := entry],
                if entry.done || entry.mode == D.WriteVerify then scans1 else scans1[id := S.Begun(disks[id].size, entry.offset)])
  {
    assert disks.Keys - (left - {id}) == (disks.Keys - left) + {id};
    assert id !in scans1;
  }

  lemma {:induction false} NoMoreBegins(left: set<string>, disks: map<string, D.Device>, write: set<string>,
          entries: map<string, D.Entry>, scans: map<string, S.Scanner>,
          entries1: map<string, D.Entry>, scans1: map<string, S.Scanner>, id: string)
    requires BeginsBut(left, disks, write, entries, scans, entries1, scans1) && id in left && id in disks
    requires id in scans && id in entries
    ensures BeginsBut(left - {id}, disks, write, entries, scans, entries1, scans1)
  {
    assert disks.Keys - (left - {id}) == (disks.Keys - left) + {id};
  }

  lemma {:induction false} NextBegins(left: set<string>, disks: map<string, D.Device>, write: set<string>, p: Process, q: Process,
          id: string)
    requires BeginsBut(left, disks, write, p.st.scans, p.scans, q.st.scans, q.scans) && id in left && id in disks
    requires id !in q.scans
    ensures var r := Starting(q, id, disks[id], id in write).mem;
      && r == q.(st := q.st.(scans := r.st.scans), scans := r.scans)
      && BeginsBut(left - {id}, disks, write, p.st.scans, p.scans, r.st.scans, r.scans)
  {
    assert id !in p.scans;
    OneMoreBegins(left, disks, write, p.st.scans, p.scans, q.st.scans, q.scans, id);
    assert EntryFor(q.st.scans, id, disks[id], id in write) == EntryFor(p.st.scans, id, disks[id], id in write);
  }

  lemma {:induction false} TestsAreToBegin(disks: map<string, D.Device>, write: set<string>, p: Process)
    ensures BeginsBut(disks.Keys, disks, write, p.st.scans, p.scans, p.st.scans, p.scans)
  {
    assert disks.Keys - disks.Keys == {};
  }

  lemma {:induction false} NextIsThere(left: set<string>, disks: map<string, D.Device>, write: set<string>, p: Process, q: Process,
          id: string)
    requires BeginsBut(left, disks, write, p.st.scans, p.scans, q.st.scans, q.scans) && id in left && id in disks
    requires id in q.scans && forall other | other in p.scans :: other in p.st.scans
    ensures BeginsBut(left - {id}, disks, write, p.st.scans, p.scans, q.st.scans, q.scans)
  {
    assert id in p.scans;
    NoMoreBegins(left, disks, write, p.st.scans, p.scans, q.st.scans, q.scans, id);
  }

  ghost predicate BeginsOrStays(disks: map<string, D.Device>, write: set<string>, p: Process, q: Process, begins: bool) {
    if begins && !p.st.disksFinished then Begins(disks, write, p, q) else q.st.scans == p.st.scans && q.scans == p.scans
  }

  /** What a workload leaves: its findings, perhaps an abort, and after inventory the disk tests under way. */
  ghost predicate AfterBody(disks: map<string, D.Device>, write: set<string>, p: Process, q: Process, name: PhaseName, body: Body) {
    && q == p.(st := p.st.(scans := q.st.scans), items := BodyItems(p.items, name, body), dirty := q.dirty,
               abort := p.abort || body.abort, at := q.at, scans := q.scans)
    && BeginsOrStays(disks, write, p, q, name == Inventory && !body.raises)
  }

  /** The phase's status tells how its workload ended; only power cycling adds a finding of its own or asks for a reboot. */
  ghost predicate AfterPhase(disks: map<string, D.Device>, write: set<string>, p: Process, q: Process, name: PhaseName,
          body: Body, rebooting: bool) {
    && (rebooting ==> name == PowerCycle && !body.raises) && (rebooting <==> q.rebooting)
    && q.abort == (p.abort || body.abort)
    && NoBetter(BodyItems(p.items, name, body), q.items)
    && (name != PowerCycle || body.raises ==> q.items == BodyItems(p.items, name, body))
    && q.st == p.st.(phases := p.st.phases[name := q.st.Phase(name)], scans := q.st.scans, planned := q.st.planned)
    && q.st.Phase(name) ==
         (if rebooting then Pending else if body.raises then Errored else EndStatus(q.items, name, q.abort))
    && BeginsOrStays(disks, write, p, q, name == Inventory && !body.raises)
  }

  /** The parts of a workload's turn: findings, abort, disk tests, and its end. */
  lemma {:induction false} BodyIsDone(disks: map<string, D.Device>, write: set<string>, p: Process, told: Process,
          begun: Process, i: nat, body: Body)
    requires i < |p.st.setup.plan| && begun.st.setup == p.st.setup
    requires told == p.(items := AddAll(p.items, body.events), dirty := told.dirty, abort := p.abort || body.abort)
    requires begun == told.(st := told.st.(scans := begun.st.scans), scans := begun.scans)
    requires BeginsOrStays(disks, write, told, begun, p.st.setup.plan[i] == Inventory && !body.raises)
    ensures AfterBody(disks, write, p, BodyEnded(begun, i, body.raises), p.st.setup.plan[i], body)
  {
  }

  lemma {:induction false} RaisedPhase(disks: map<string, D.Device>, write: set<string>, p: Process, done: Process, i: nat, body: Body)
    requires i < |p.st.setup.plan| && !p.rebooting && body.raises
    requires AfterBody(disks, write, p, done, p.st.setup.plan[i], body)
    ensures var name := p.st.setup.plan[i];
      AfterPhase(disks, write, p, Setting(done, name, Errored, Looping(i + 1)).mem, name, body, false)
  {
  }

  lemma {:induction false} EndedPhase(w: World, write: set<string>, p: Process, done: Process, i: nat, body: Body)
    requires i < |p.st.setup.plan| && !p.rebooting && !body.raises
    requires AfterBody(w.disks, write, p, done, p.st.setup.plan[i], body)
    ensures var name := p.st.setup.plan[i];
      var turned := if name == PowerCycle then PowerCycling(w, done, i).mem else done;
      AfterPhase(w.disks, write, p, Ended(turned, name, i).mem, name, body, turned.rebooting)
  {
    var name := p.st.setup.plan[i];
    CyclingKeeps(w, done, i);
    SettledPhase(w.disks, write, p, done, if name == PowerCycle then PowerCycling(w, done, i).mem else done, i, body);
  }

  lemma {:induction false} SettledPhase(disks: map<string, D.Device>, write: set<string>, p: Process, done: Process,
          turned: Process, i: nat, body: Body)
    requires i < |p.st.setup.plan| && !p.rebooting && !body.raises
    requires AfterBody(disks, write, p, done, p.st.setup.plan[i], body)
    requires NoBetter(done.items, turned.items) && turned.abort == done.abort && turned.scans == done.scans
    requires turned.st == done.st.(planned := turned.st.planned)
    requires p.st.setup.plan[i] != PowerCycle ==> turned == done
    requires turned.rebooting ==> p.st.setup.plan[i] == PowerCycle
    ensures var name := p.st.setup.plan[i];
      AfterPhase(disks, write, p, Ended(turned, name, i).mem, name, body, turned.rebooting)
  {
    var name := p.st.setup.plan[i];
    var q := Ended(turned, name, i).mem;
    assert q.st.Phase(name) == if turned.rebooting then Pending else EndStatus(turned.items, name, turned.abort);
  }

  lemma {:induction false} CyclingKeeps(w: World, p: Process, i: nat)
    ensures var q := PowerCycling(w, p, i).mem;
      && NoBetter(p.items, q.items) && q.abort == p.abort && q.scans == p.scans
      && q.st == p.st.(planned := q.st.planned)
  {
  }

  /** What becomes of a phase whose workload is through. */
  function PhaseEnded(w: World, done: Process, i: nat, raised: bool): Process
    requires i < |done.st.setup.plan|
  {
    var name := done.st.setup.plan[i];
    if raised then Setting(done, name, Errored, Looping(i + 1)).mem
    else Ended(if name == PowerCycle then PowerCycling(w, done, i).mem else done, name, i).mem
  }

  lemma {:induction false} PhaseIsDone(w: World, write: set<string>, p: Process, done: Process, i: nat, body: Body)
    requires i < |p.st.setup.plan| && !p.rebooting
    requires AfterBody(w.disks, write, p, done, p.st.setup.plan[i], body)
    ensures done.st.setup == p.st.setup
    ensures var q := PhaseEnded(w, done, i, body.raises); AfterPhase(w.disks, write, p, q, p.st.setup.plan[i], body, q.rebooting)
  {
    if body.raises {
      RaisedPhase(w.disks, write, p, done, i, body);
    } else {
      EndedPhase(w, write, p, done, i, body);
    }
  }

  /** Marking the phase as running first makes no difference in the end. */
  lemma {:induction false} StartedPhase(disks: map<string, D.Device>, write: set<string>, p: Process, q: Process, name: PhaseName,
          body: Body, rebooting: bool, at: Place)
    requires AfterPhase(disks, write, Setting(p, name, Running, at).mem, q, name, body, rebooting)
    ensures AfterPhase(disks, write, p, q, name, body, rebooting)
  {
    var phases := p.st.phases[name := Running];
    assert phases[name := q.st.Phase(name)] == p.st.phases[name := q.st.Phase(name)];
  }

  // ---------- the end of the disk tests

  /** A thread that is out of its loop reports, and is marked partial if it is not done. */
  function Concluded(s: S.Scanner): S.Scanner {
    var told := if s.stage == S.Over then s.(stage := S.Reported) else s;
    if told.done then told else told.(partial := true)
  }

  function ThreadEnd(s: S.Scanner, tests: DiskTests, id: string): S.Scanner
    requires S.Honest(tests.device(id), s.size)
  {
    Concluded(S.Scanned(s, tests.device(id), 0, tests.rounds(id)))
  }

  /** What is to be told of a thread that is through is among the findings. */
  predicate Told(items: Items, id: string, s: S.Scanner) {
    && (s.stage == S.Reported && s.errors > 0 ==> Recorded(items, ScanErrors(id), Note(FAIL, None, false)))
    && (s.partial ==> Recorded(items, ScanPartial(id), Note(WARN, None, true)))
  }

  /** The scan went through without an error. */
  predicate WentWell(s: S.Scanner) {
    s.done && s.errors == 0
  }

  ghost predicate ThreadsAnswer(scans: map<string, S.Scanner>, tests: DiskTests) {
    forall id | id in scans :: S.Honest(tests.device(id), scans[id].size)
  }

  /** One thread that is out of its loop has been reported and accounted for. */
  ghost predicate ScanTold(p: Process, q: Process, id: string)
    requires id in p.scans
  {
    && q == p.(items := q.items, dirty := q.dirty, scans := p.scans[id := Concluded(p.scans[id])])
    && NoBetter(p.items, q.items)
    && (p.scans[id].stage == S.Over && !p.scans[id].partial ==> Told(q.items, id, q.scans[id]))
    && (WentWell(p.scans[id]) ==> q.items == p.items)
  }

  lemma {:induction false} TellingIsDone(p: Process, told: Process, q: Process, id: string)
    requires id in p.scans && p.scans[id].stage != S.Reading
    requires told == if p.scans[id].stage == S.Over then ReportingScan(p, id, None).mem else p
    requires q == if told.scans[id].done then told
                  else Adding(Scanning(told, id, told.scans[id].(partial := true)), ScanPartial(id), Note(WARN, None, true)).mem
    ensures ScanTold(p, q, id)
  {
    ReportTells(p, id);
    AddRecords(told.items, ScanPartial(id), Note(WARN, None, true));
    NoBetterJoins(p.items, told.items, q.items);
    if told.scans[id].done {
    } else {
      AbandonTells(p, told, q, id);
    }
  }

  lemma {:induction false} ReportTells(p: Process, id: string)
    requires id in p.scans
    ensures var told := ReportingScan(p, id, None).mem; var s := p.scans[id].(stage := S.Reported);
      && told == p.(items := told.items, dirty := told.dirty, scans := p.scans[id := s])
      && NoBetter(p.items, told.items) && (!p.scans[id].partial ==> Told(told.items, id, s))
      && (p.scans[id].errors == 0 ==> told.items == p.items)
  {
    AddRecords(p.items, ScanErrors(id), Note(FAIL, None, false));
  }

  lemma {:induction false} AbandonTells(p: Process, told: Process, q: Process, id: string)
    requires id in p.scans && id in told.scans && !told.scans[id].done
    requires told.scans == p.scans[id := if p.scans[id].stage == S.Over then p.scans[id].(stage := S.Reported) else p.scans[id]]
    requires p.scans[id].stage == S.Over && !p.scans[id].partial ==> Told(told.items, id, told.scans[id])
    requires q == Adding(Scanning(told, id, told.scans[id].(partial := true)), ScanPartial(id), Note(WARN, None, true)).mem
    ensures q.scans == p.scans[id := Concluded(p.scans[id])]
    ensures p.scans[id].stage == S.Over && !p.scans[id].partial ==> Told(q.items, id, q.scans[id])
  {
    AddRecords(told.items, ScanPartial(id), Note(WARN, None, true));
  }

  /** What finishing the scans does to memory, but for those that are left. */
  ghost predicate FinishedBut(left: set<string>, p: Process, q: Process, tests: DiskTests)
    requires ThreadsAnswer(p.scans, tests)
  {
    && q == p.(items := q.items, dirty := q.dirty, scans := q.scans)
    && NoBetter(p.items, q.items) && AllFinished(left, p.scans, q.scans, tests)
    && (AllWell(left, q.scans) ==> q.items == p.items)
  }

  predicate AllWell(left: set<string>, scans: map<string, S.Scanner>) {
    forall id | id in scans && id !in left :: WentWell(scans[id])
  }

  lemma {:induction false} OneMoreWell(left: set<string>, scans: map<string, S.Scanner>, id: string, now: S.Scanner)
    requires AllWell(left - {id}, scans[id := now]) && id in left
    ensures AllWell(left, scans) && WentWell(now)
  {
    forall other | other in scans && other !in left ensures WentWell(scans[other]) {
      assert other in scans[id := now] && scans[id := now][other] == scans[other];
    }
    assert id in scans[id := now] && id !in left - {id};
  }

  ghost predicate ScansFinished(p: Process, q: Process, tests: DiskTests)
    requires ThreadsAnswer(p.scans, tests)
  {
    FinishedBut({}, p, q, tests)
  }

  lemma {:induction false} OutOfItsLoop(s: S.Scanner, device: S.Device, rounds: nat, stop: nat)
    requires S.Honest(device, s.size)
    ensures var end := S.Scanned(s, device, rounds, stop);
      end.partial == s.partial && end.size == s.size && (if s.stage == S.Reading then end.stage == S.Over else end == s)
    decreases if s.stage == S.Reading && s.offset < s.size then s.size - s.offset + 1 else 0
  {
    if !S.Readable(s) || rounds >= stop {
    } else {
      OutOfItsLoop(S.ReadOnce(s, device(s.offset, rounds)), device, rounds + 1, stop);
    }
  }

  /** Every scan that is not left has ended as its device and its stop request say. */
  ghost predicate AllFinished(left: set<string>, before: map<string, S.Scanner>, after: map<string, S.Scanner>, tests: DiskTests)
    requires ThreadsAnswer(before, tests)
  {
    && after.Keys == before.Keys
    && forall id | id in before :: after[id] == if id in left then before[id] else ThreadEnd(before[id], tests, id)
  }

  lemma {:induction false} OneMoreEnded(left: set<string>, before: map<string, S.Scanner>, after: map<string, S.Scanner>,
          tests: DiskTests, id: string)
    requires ThreadsAnswer(before, tests) && AllFinished(left, before, after, tests) && id in left && id in before
    ensures AllFinished(left - {id}, before, after[id := ThreadEnd(before[id], tests, id)], tests)
  {
  }

  lemma {:induction false} OneMoreFinished(left: set<string>, p: Process, q: Process, r: Process, tests: DiskTests, id: string)
    requires ThreadsAnswer(p.scans, tests) && FinishedBut(left, p, q, tests) && id in left && id in p.scans
    requires var now := S.Scanned(p.scans[id], tests.device(id), 0, tests.rounds(id));
      ScanTold(q.(scans := q.scans[id := now]), r, id)
    ensures FinishedBut(left - {id}, p, r, tests)
  {
    var now := S.Scanned(p.scans[id], tests.device(id), 0, tests.rounds(id));
    OutOfItsLoop(p.scans[id], tests.device(id), 0, tests.rounds(id));
    assert r.scans == q.scans[id := Concluded(now)];
    NoBetterJoins(p.items, q.items, r.items);
    OneMoreEnded(left, p.scans, q.scans, tests, id);
    if AllWell(left - {id}, r.scans) {
      OneMoreWell(left, q.scans, id, Concluded(now));
    }
  }

  lemma {:induction false} FinishingBegins(p: Process, tests: DiskTests)
    requires ThreadsAnswer(p.scans, tests)
    ensures FinishedBut(p.scans.Keys, p, p, tests)
  {
  }

  /** All threads are accounted for then, and none changed its size. */
  lemma {:induction false} FinishedIsAccounted(p: Process, q: Process, tests: DiskTests)
    requires ThreadsAnswer(p.scans, tests) && ScansFinished(p, q, tests)
    ensures q.scans.Keys == p.scans.Keys
    ensures forall id | id in q.scans :: Accounted(q.scans[id]) && q.scans[id].size == p.scans[id].size
  {
    forall id | id in q.scans ensures Accounted(q.scans[id]) && q.scans[id].size == p.scans[id].size {
      OutOfItsLoop(p.scans[id], tests.device(id), 0, tests.rounds(id));
    }
  }

  ghost predicate DisksFinished(p: Process, q: Process, tests: DiskTests)
    requires ThreadsAnswer(p.scans, tests)
  {
    && ScansFinished(p, q.(st := p.st, abort := p.abort), tests)
    && q.abort == (p.abort || tests.abort)
    && q.st == Progressed(p.st, q.scans, tests.written).(disksFinished := true, selftests := tests.selftests)
  }

  // ---------- one entry of the plan, and the whole plan

  predicate Moved(p: Process, q: Process) {
    q == p.(at := q.at)
  }

  /** The round of the loop for a phase called `name`. */
  ghost predicate AfterEntry(disks: map<string, D.Device>, tests: DiskTests, p: Process, q: Process, name: PhaseName,
          body: Body, leave: bool, rebooting: bool)
    requires ThreadsAnswer(p.scans, tests)
  {
    if p.st.Phase(name) != Pending then !leave && !rebooting && Moved(p, q)
    else if p.abort then leave && !rebooting && Moved(p, q)
    else if p.st.unexpected >= p.st.setup.maxUnexpected then
      !leave && !rebooting && Moved(p.(st := p.st.WithPhase(name, Skipped)), q)
    else if name == PowerCycle && !p.st.disksFinished then
      exists r :: DisksFinished(p, r, tests) &&
        if r.abort then leave && !rebooting && Moved(r, q) else !leave && AfterPhase(disks, tests.write, r, q, name, body, rebooting)
    else !leave && AfterPhase(disks, tests.write, p, q, name, body, rebooting)
  }

  predicate First(plan: seq<PhaseName>, j: nat)
    requires j < |plan|
  {
    plan[j] !in plan[..j]
  }

  /** A workload that ran left all it offered, its exception and its abort. */
  predicate Executed(items: Items, abort: bool, name: PhaseName, body: Body) {
    && AllRecorded(items, body.events)
    && (body.raises ==> Recorded(items, PhaseError(name), Note(WARN, Some(name), true)))
    && (body.abort ==> abort)
  }

  /** What became of a phase that was pending. */
  predicate IsAccountedFor(p: State, s: Status, items: Items, abort: bool, rebooting: bool, name: PhaseName, body: Body) {
    && (s == Skipped ==> p.unexpected >= p.setup.maxUnexpected)
    && (s == Pending ==> abort || rebooting)
    && (s != Skipped && (s != Pending || (rebooting && name == PowerCycle)) ==> Executed(items, abort, name, body))
  }

  /**
   Every phase that was pending has run, with all that its workload showed on record, unless
   too many resets came before, the operator aborted, or the machine reboots first.
   */
  ghost predicate Carried(p: State, q: State, items: Items, abort: bool, rebooting: bool, bodies: seq<Body>) {
    forall j | 0 <= j < |p.setup.plan| && j < |bodies| && First(p.setup.plan, j) && p.Phase(p.setup.plan[j]) == Pending ::
      IsAccountedFor(p, q.Phase(p.setup.plan[j]), items, abort, rebooting, p.setup.plan[j], bodies[j])
  }

  /** The same while the loop has yet to look at entry `i` and the later ones. */
  ghost predicate CarriedSoFar(p: Process, q: Process, bodies: seq<Body>, i: nat) {
    var plan := p.st.setup.plan;
    && i <= |plan| <= |bodies| && q.st.setup == p.st.setup && q.st.unexpected == p.st.unexpected
    && NoBetter(p.items, q.items) && (p.abort ==> q.abort)
    && (forall name | p.st.Phase(name) != Pending || name !in plan[..i] :: q.st.Phase(name) == p.st.Phase(name))
    && (forall j | 0 <= j < i && First(plan, j) && p.st.Phase(plan[j]) == Pending ::
          && q.st.Phase(plan[j]) != Pending
          && IsAccountedFor(p.st, q.st.Phase(plan[j]), q.items, q.abort, false, plan[j], bodies[j]))
  }

  lemma {:induction false} BodyIsRecorded(items: Items, name: PhaseName, body: Body)
    ensures NoBetter(items, BodyItems(items, name, body))
    ensures Executed(BodyItems(items, name, body), body.abort, name, body)
  {
    var found := AddAll(items, body.events);
    AddAllRecords(items, body.events);
    if body.raises {
      var e := Note(WARN, Some(name), true);
      AddRecords(found, PhaseError(name), e);
      NoBetterJoins(items, found, AddItem(found, PhaseError(name), e));
      StayRecorded(found, AddItem(found, PhaseError(name), e), body.events);
    }
  }

  lemma {:induction false} StayExecuted(a: Items, b: Items, abort: bool, abort1: bool, name: PhaseName, body: Body)
    requires Executed(a, abort, name, body) && NoBetter(a, b) && (abort ==> abort1)
    ensures Executed(b, abort1, name, body)
  {
    StayRecorded(a, b, body.events);
  }

  lemma {:induction false} EndStatusIsFinal(items: Items, name: PhaseName, abort: bool)
    ensures EndStatus(items, name, abort) != Pending && EndStatus(items, name, abort) != Skipped
  {
  }

  /** What a phase that was run is found to be. */
  lemma {:induction false} PhaseIsExecuted(disks: map<string, D.Device>, write: set<string>, p: Process, q: Process,
          name: PhaseName, body: Body, rebooting: bool)
    requires AfterPhase(disks, write, p, q, name, body, rebooting)
    ensures NoBetter(p.items, q.items) && (p.abort ==> q.abort) && Executed(q.items, q.abort, name, body)
    ensures q.st.setup == p.st.setup && q.st.unexpected == p.st.unexpected
    ensures if rebooting then q.st.Phase(name) == Pending else q.st.Phase(name) != Pending && q.st.Phase(name) != Skipped
    ensures forall other | other != name :: q.st.Phase(other) == p.st.Phase(other)
  {
    var found := BodyItems(p.items, name, body);
    BodyIsRecorded(p.items, name, body);
    NoBetterJoins(p.items, found, q.items);
    StayExecuted(found, q.items, body.abort, q.abort, name, body);
    EndStatusIsFinal(q.items, name, q.abort);
  }

  lemma {:induction false} DisksKeepPhases(p: Process, q: Process, tests: DiskTests)
    requires ThreadsAnswer(p.scans, tests) && DisksFinished(p, q, tests)
    ensures NoBetter(p.items, q.items) && (p.abort ==> q.abort) && q.st.disksFinished
    ensures q.st.setup == p.st.setup && q.st.unexpected == p.st.unexpected
    ensures forall name :: q.st.Phase(name) == p.st.Phase(name)
  {
  }

  /** What one round of the loop does to a phase and to the rest. */
  ghost predicate Turned(p: Process, q: Process, name: PhaseName, body: Body, leave: bool, rebooting: bool) {
    && q.st.setup == p.st.setup && q.st.unexpected == p.st.unexpected
    && NoBetter(p.items, q.items) && (p.abort ==> q.abort) && (leave ==> q.abort) && !(leave && rebooting)
    && (forall other | other != name || p.st.Phase(name) != Pending :: q.st.Phase(other) == p.st.Phase(other))
    && (p.st.Phase(name) != Pending ==> !leave && !rebooting)
    && (rebooting ==> name == PowerCycle)
    && (p.st.Phase(name) == Pending ==>
          && IsAccountedFor(p.st, q.st.Phase(name), q.items, q.abort, rebooting, name, body)
          && (q.st.Phase(name) == Pending ==> leave || rebooting))
  }

  lemma {:induction false} PassingTurns(p: Process, q: Process, name: PhaseName, body: Body, leave: bool)
    requires
      if p.st.Phase(name) != Pending then !leave && Moved(p, q)
      else if p.abort then leave && Moved(p, q)
      else p.st.unexpected >= p.st.setup.maxUnexpected && !leave && Moved(p.(st := p.st.WithPhase(name, Skipped)), q)
    ensures Turned(p, q, name, body, leave, false)
  {
  }

  lemma {:induction false} RunTurns(disks: map<string, D.Device>, write: set<string>, p: Process, q: Process,
          name: PhaseName, body: Body, rebooting: bool)
    requires AfterPhase(disks, write, p, q, name, body, rebooting) && p.st.Phase(name) == Pending
    ensures Turned(p, q, name, body, false, rebooting)
  {
    PhaseIsExecuted(disks, write, p, q, name, body, rebooting);
  }

  lemma {:induction false} DisksFirstTurns(disks: map<string, D.Device>, tests: DiskTests, p: Process, r: Process, q: Process,
          name: PhaseName, body: Body, leave: bool, rebooting: bool)
    requires ThreadsAnswer(p.scans, tests) && DisksFinished(p, r, tests) && p.st.Phase(name) == Pending
    requires if r.abort then leave && !rebooting && Moved(r, q)
             else !leave && AfterPhase(disks, tests.write, r, q, name, body, rebooting)
    ensures Turned(p, q, name, body, leave, rebooting)
  {
    DisksKeepPhases(p, r, tests);
    if !r.abort {
      RunTurns(disks, tests.write, r, q, name, body, rebooting);
      NoBetterJoins(p.items, r.items, q.items);
    }
  }

  lemma {:induction false} EntryTurns(disks: map<string, D.Device>, tests: DiskTests, p: Process, q: Process,
          name: PhaseName, body: Body, leave: bool, rebooting: bool)
    requires ThreadsAnswer(p.scans, tests) && AfterEntry(disks, tests, p, q, name, body, leave, rebooting)
    ensures Turned(p, q, name, body, leave, rebooting)
  {
    if p.st.Phase(name) != Pending || p.abort || p.st.unexpected >= p.st.setup.maxUnexpected {
      PassingTurns(p, q, name, body, leave);
    } else if name == PowerCycle && !p.st.disksFinished {
      var r :| DisksFinished(p, r, tests) &&
        if r.abort then leave && !rebooting && Moved(r, q) else !leave && AfterPhase(disks, tests.write, r, q, name, body, rebooting);
      DisksFirstTurns(disks, tests, p, r, q, name, body, leave, rebooting);
    } else {
      RunTurns(disks, tests.write, p, q, name, body, rebooting);
    }
  }

  lemma {:induction false} StayAccounted(p: State, s: Status, a: Items, b: Items, abort: bool, abort1: bool,
          rebooting: bool, name: PhaseName, body: Body)
    requires IsAccountedFor(p, s, a, abort, false, name, body) && NoBetter(a, b) && (abort ==> abort1)
    requires s != Pending
    ensures IsAccountedFor(p, s, b, abort1, rebooting, name, body)
  {
    if s != Skipped {
      StayExecuted(a, b, abort, abort1, name, body);
    }
  }

  /** A phase looked at before keeps what it has while the loop goes on. */
  lemma {:induction false} EarlierStays(p: Process, q: Process, r: Process, bodies: seq<Body>, i: nat, leave: bool,
          rebooting: bool, j: nat)
    requires CarriedSoFar(p, q, bodies, i) && i < |p.st.setup.plan|
    requires Turned(q, r, p.st.setup.plan[i], bodies[i], leave, rebooting)
    requires j < i && First(p.st.setup.plan, j) && p.st.Phase(p.st.setup.plan[j]) == Pending
    ensures var name := p.st.setup.plan[j];
      r.st.Phase(name) != Pending && IsAccountedFor(p.st, r.st.Phase(name), r.items, r.abort, rebooting, name, bodies[j])
  {
    var name := p.st.setup.plan[j];
    assert q.st.Phase(name) != Pending;
    assert r.st.Phase(name) == q.st.Phase(name);
    StayAccounted(p.st, q.st.Phase(name), q.items, r.items, q.abort, r.abort, rebooting, name, bodies[j]);
  }

  /** Entry `i` is looked at. */
  lemma {:induction false} EntryIsCarried(p: Process, q: Process, r: Process, bodies: seq<Body>, i: nat, leave: bool,
          rebooting: bool)
    requires CarriedSoFar(p, q, bodies, i) && i < |p.st.setup.plan|
    requires Turned(q, r, p.st.setup.plan[i], bodies[i], leave, rebooting)
    requires First(p.st.setup.plan, i) && p.st.Phase(p.st.setup.plan[i]) == Pending
    ensures var name := p.st.setup.plan[i];
      && IsAccountedFor(p.st, r.st.Phase(name), r.items, r.abort, rebooting, name, bodies[i])
      && (r.st.Phase(name) == Pending ==> leave || rebooting)
  {
    var name := p.st.setup.plan[i];
    assert name !in p.st.setup.plan[..i] && q.st.Phase(name) == Pending;
  }

  lemma {:induction false} LoopGoesOn(p: Process, q: Process, r: Process, bodies: seq<Body>, i: nat)
    requires CarriedSoFar(p, q, bodies, i) && i < |p.st.setup.plan|
    requires Turned(q, r, p.st.setup.plan[i], bodies[i], false, false)
    ensures CarriedSoFar(p, r, bodies, i + 1)
  {
    var plan := p.st.setup.plan;
    assert plan[..i + 1] == plan[..i] + [plan[i]];
    NoBetterJoins(p.items, q.items, r.items);
    forall name | p.st.Phase(name) != Pending || name !in plan[..i + 1]
      ensures r.st.Phase(name) == p.st.Phase(name)
    {
      assert q.st.Phase(name) == p.st.Phase(name);
    }
    forall j | 0 <= j < i + 1 && First(plan, j) && p.st.Phase(plan[j]) == Pending
      ensures r.st.Phase(plan[j]) != Pending
      ensures IsAccountedFor(p.st, r.st.Phase(plan[j]), r.items, r.abort, false, plan[j], bodies[j])
    {
      if j < i {
        EarlierStays(p, q, r, bodies, i, false, false, j);
      } else {
        EntryIsCarried(p, q, r, bodies, i, false, false);
      }
    }
  }

  /** The loop ends early: the operator aborted or the machine reboots. */
  lemma {:induction false} LoopIsLeft(p: Process, q: Process, r: Process, bodies: seq<Body>, i: nat, leave: bool, rebooting: bool)
    requires CarriedSoFar(p, q, bodies, i) && i < |p.st.setup.plan| && (leave || rebooting)
    requires Turned(q, r, p.st.setup.plan[i], bodies[i], leave, rebooting)
    ensures NoBetter(p.items, r.items) && Carried(p.st, r.st, r.items, r.abort, rebooting, bodies)
  {
    var plan := p.st.setup.plan;
    NoBetterJoins(p.items, q.items, r.items);
    forall j | 0 <= j < |plan| && j < |bodies| && First(plan, j) && p.st.Phase(plan[j]) == Pending
      ensures IsAccountedFor(p.st, r.st.Phase(plan[j]), r.items, r.abort, rebooting, plan[j], bodies[j])
    {
      if j < i {
        EarlierStays(p, q, r, bodies, i, leave, rebooting, j);
      } else if j == i {
        EntryIsCarried(p, q, r, bodies, i, leave, rebooting);
      } else {
        LaterIsUntouched(p, q, r, bodies, i, leave, rebooting, j);
      }
    }
  }

  lemma {:induction false} LaterIsUntouched(p: Process, q: Process, r: Process, bodies: seq<Body>, i: nat, leave: bool,
          rebooting: bool, j: nat)
    requires CarriedSoFar(p, q, bodies, i) && i < j < |p.st.setup.plan| && (leave || rebooting)
    requires Turned(q, r, p.st.setup.plan[i], bodies[i], leave, rebooting)
    requires First(p.st.setup.plan, j) && p.st.Phase(p.st.setup.plan[j]) == Pending
    ensures IsAccountedFor(p.st, r.st.Phase(p.st.setup.plan[j]), r.items, r.abort, rebooting, p.st.setup.plan[j], bodies[j])
  {
    var plan := p.st.setup.plan;
    assert plan[i] in plan[..j] && plan[j] !in plan[..i] by {
      assert plan[..j][i] == plan[i] && forall k | 0 <= k < i :: plan[..j][k] == plan[..i][k];
    }
    assert r.st.Phase(plan[j]) == q.st.Phase(plan[j]) == Pending;
    assert rebooting ==> plan[i] == PowerCycle;
  }

  lemma {:induction false} LoopIsThrough(p: Process, q: Process, bodies: seq<Body>)
    requires CarriedSoFar(p, q, bodies, |p.st.setup.plan|)
    ensures Carried(p.st, q.st, q.items, q.abort, false, bodies)
  {
  }

  // ---------- the end of the session

  /** The disk tests are over, the last checks have added what they found, and the session is closed. */
  ghost predicate Concludes(p: Process, q: Process, tests: DiskTests, checks: seq<(Key, Event)>)
    requires ThreadsAnswer(p.scans, tests)
  {
    exists r :: Drained(p, r, tests) && Closes(r, q, checks)
  }

  ghost predicate Drained(p: Process, r: Process, tests: DiskTests)
    requires ThreadsAnswer(p.scans, tests)
  {
    if p.st.disksFinished then r == p else DisksFinished(p, r, tests)
  }

  predicate Closes(r: Process, q: Process, checks: seq<(Key, Event)>) {
    && q.items == AddAll(r.items, checks) && q.abort == r.abort
    && q.st == r.st.(status := if r.abort then Cancelled else Complete)
  }

  lemma {:induction false} ConcludingKeeps(p: Process, q: Process, tests: DiskTests, checks: seq<(Key, Event)>)
    requires ThreadsAnswer(p.scans, tests) && Concludes(p, q, tests, checks)
    ensures NoBetter(p.items, q.items) && AllRecorded(q.items, checks) && (p.abort ==> q.abort)
    ensures forall name :: q.st.Phase(name) == p.st.Phase(name)
  {
    var r :| Drained(p, r, tests) && Closes(r, q, checks);
    if !p.st.disksFinished {
      DisksKeepPhases(p, r, tests);
    }
    AddAllRecords(r.items, checks);
    NoBetterJoins(p.items, r.items, q.items);
  }

  lemma {:induction false} CarriedToTheEnd(p: State, q: State, q1: State, a: Items, b: Items, abort: bool, abort1: bool,
          bodies: seq<Body>)
    requires Carried(p, q, a, abort, false, bodies) && NoBetter(a, b) && (abort ==> abort1)
    requires forall name :: q1.Phase(name) == q.Phase(name)
    ensures Carried(p, q1, b, abort1, false, bodies)
  {
    forall j | 0 <= j < |p.setup.plan| && j < |bodies| && First(p.setup.plan, j) && p.Phase(p.setup.plan[j]) == Pending
      ensures IsAccountedFor(p, q1.Phase(p.setup.plan[j]), b, abort1, false, p.setup.plan[j], bodies[j])
    {
      var name := p.setup.plan[j];
      assert IsAccountedFor(p, q.Phase(name), a, abort, false, name, bodies[j]);
      if q.Phase(name) != Pending {
        StayAccounted(p, q.Phase(name), a, b, abort, abort1, false, name, bodies[j]);
      }
    }
  }

  // ---------- what the verdict heeds

  /** The verdict is no better than these findings allow. */
  ghost predicate Heeds(v: Verdict, events: seq<(Key, Event)>) {
    && (Offered(events, FAIL) ==> v == Fail)
    && (OfferedIncomplete(events) ==> v == Fail || v == Incomplete)
    && (Offered(events, WARN) ==> v != Pass)
  }

  /** The phase at entry `j` was pending when the loop began, and its workload ran. */
  predicate RanHere(p: State, q: State, j: nat)
    requires j < |p.setup.plan|
  {
    var name := p.setup.plan[j];
    First(p.setup.plan, j) && p.Phase(name) == Pending && q.Phase(name) != Pending && q.Phase(name) != Skipped
  }

  /**
   The verdict heeds all that workloads and checks showed: their findings, an internal error,
   an abort. And every phase that was pending ran, unless the operator aborted or the limit
   of unannounced resets was reached.
   */
  ghost predicate HeedsAll(v: Verdict, p: State, q: State, abort: bool, bodies: seq<Body>, checks: seq<(Key, Event)>) {
    && Heeds(v, checks) && (abort ==> v == Fail || v == Incomplete)
    && (forall j | 0 <= j < |p.setup.plan| && j < |bodies| && RanHere(p, q, j) ::
          && Heeds(v, bodies[j].events)
          && (bodies[j].raises || bodies[j].abort ==> v == Fail || v == Incomplete))
    && (forall j | 0 <= j < |p.setup.plan| && First(p.setup.plan, j) && p.Phase(p.setup.plan[j]) == Pending && j < |bodies| ::
          RanHere(p, q, j) || abort || p.unexpected >= p.setup.maxUnexpected)
  }

  lemma {:induction false} RecordedIsHeeded(v: Verdict, state: Option<State>, items: Items, incomplete: bool,
          events: seq<(Key, Event)>)
    requires Judges(v, state, items, incomplete) && AllRecorded(items, events)
    ensures Heeds(v, events)
  {
    RecordedShows(items, events);
    if OfferedIncomplete(events) {
      var k :| k in items && items[k].incomplete;
      assert v != Pass && v != PassWithWarnings;
    }
  }

  lemma {:induction false} VerdictHeedsAll(v: Verdict, p: State, q: State, items: Items, abort: bool, bodies: seq<Body>,
          checks: seq<(Key, Event)>)
    requires Judges(v, Some(q), items, abort) && Carried(p, q, items, abort, false, bodies) && AllRecorded(items, checks)
    ensures HeedsAll(v, p, q, abort, bodies, checks)
  {
    RecordedIsHeeded(v, Some(q), items, abort, checks);
    forall j | 0 <= j < |p.setup.plan| && j < |bodies| && RanHere(p, q, j)
      ensures Heeds(v, bodies[j].events)
      ensures bodies[j].raises || bodies[j].abort ==> v == Fail || v == Incomplete
    {
      RanIsHeeded(v, p, q, items, abort, bodies, j);
    }
    forall j | 0 <= j < |p.setup.plan| && First(p.setup.plan, j) && p.Phase(p.setup.plan[j]) == Pending && j < |bodies|
      ensures RanHere(p, q, j) || abort || p.unexpected >= p.setup.maxUnexpected
    {
      assert IsAccountedFor(p, q.Phase(p.setup.plan[j]), items, abort, false, p.setup.plan[j], bodies[j]);
    }
  }

  lemma {:induction false} RanIsHeeded(v: Verdict, p: State, q: State, items: Items, abort: bool, bodies: seq<Body>, j: nat)
    requires Judges(v, Some(q), items, abort) && Carried(p, q, items, abort, false, bodies)
    requires j < |p.setup.plan| && j < |bodies| && RanHere(p, q, j)
    ensures Heeds(v, bodies[j].events)
    ensures bodies[j].raises || bodies[j].abort ==> v == Fail || v == Incomplete
  {
    var name, body := p.setup.plan[j], bodies[j];
    assert IsAccountedFor(p, q.Phase(name), items, abort, false, name, body);
    RecordedIsHeeded(v, Some(q), items, abort, body.events);
    if body.raises {
      assert items[PhaseError(name)].incomplete;
    }
  }

  // ---------- a first boot with nothing in the way

  /** What the first `i` workloads offered. */
  function EventsUpTo(bodies: seq<Body>, i: nat): seq<(Key, Event)>
    requires i <= |bodies|
  {
    if i == 0 then [] else EventsUpTo(bodies, i - 1) + bodies[i - 1].events
  }

  /** No reboot cycles, and no workload raises or sees an abort. */
  ghost predicate Unhindered(setup: Setup, bodies: seq<Body>) {
    && WellFormed(setup.plan) && PowerCycle !in setup.plan && setup.maxUnexpected >= 1 && |bodies| == |setup.plan|
    && forall i | 0 <= i < |bodies| :: !bodies[i].raises && !bodies[i].abort
  }

  /** Every disk is written, or read from end to end without an error, and every self-test succeeds. */
  ghost predicate DisksAreFine(disks: map<string, D.Device>, tests: DiskTests)
    requires Answers(disks, tests)
  {
    && !tests.abort && (forall t | t in tests.selftests :: t.1)
    && forall id | id in disks ::
         if id in tests.write then id in tests.written
         else WentWell(S.Scanned(S.Begun(disks[id].size, 0), tests.device(id), 0, tests.rounds(id)))
  }

  /** The disk tests of a new session are under way. */
  ghost predicate NewTests(disks: map<string, D.Device>, write: set<string>, q: Process) {
    && q.st.scans.Keys == disks.Keys
    && (forall id | id in disks ::
          && !q.st.scans[id].done && q.st.scans[id].mode == (if id in write then D.WriteVerify else D.ReadOnly)
          && (id in q.scans <==> id !in write))
    && (forall id | id in q.scans :: id in disks && q.scans[id] == S.Begun(disks[id].size, 0))
  }

  /** The session after `i` phases: all they offered was found, and they are done with, the later ones are pending. */
  ghost predicate GoesWell(setup: Setup, disks: map<string, D.Device>, write: set<string>, bodies: seq<Body>, q: Process, i: nat) {
    && i <= |setup.plan| == |bodies| && q.st.setup == setup && q.st.status == Active && q.st.unexpected == 0
    && !q.st.disksFinished && !q.abort && !q.rebooting
    && q.items == AddAll(map[], EventsUpTo(bodies, i))
    && (forall j | i <= j < |setup.plan| :: q.st.Phase(setup.plan[j]) == Pending)
    && (forall j | 0 <= j < i :: Tested(q.st.Phase(setup.plan[j])) || AnyIncomplete(q.items))
    && (if i == 0 then q.scans == map[] && q.st.scans == map[] else NewTests(disks, write, q))
  }

  lemma {:induction false} GoesWellFromTheStart(w: World, boot: nat, write: set<string>, bodies: seq<Body>)
    requires |bodies| == |w.setup.plan|
    ensures GoesWell(w.setup, w.disks, write, bodies, Beginning(w, boot), 0)
  {
    assert forall p :: Fresh(w.setup, boot).Phase(p) == Pending;
  }

  lemma {:induction false} TestedOrIncomplete(items: Items, name: PhaseName)
    ensures Tested(EndStatus(items, name, false)) || AnyIncomplete(items)
  {
  }

  lemma {:induction false} TestsBeginAnew(disks: map<string, D.Device>, write: set<string>, p: Process, q: Process)
    requires Begins(disks, write, p, q) && p.scans == map[] && p.st.scans == map[]
    ensures NewTests(disks, write, q)
  {
    assert disks.Keys - {} == disks.Keys;
  }

  lemma {:induction false} StaysIncomplete(a: Items, b: Items)
    requires NoBetter(a, b) && AnyIncomplete(a)
    ensures AnyIncomplete(b)
  {
    var k :| k in a && a[k].incomplete;
    assert b[k].incomplete;
  }

  lemma {:induction false} EventsOfNext(bodies: seq<Body>, i: nat, p: Process, q: Process, name: PhaseName)
    requires i < |bodies| && !bodies[i].raises && p.items == AddAll(map[], EventsUpTo(bodies, i))
    requires q.items == BodyItems(p.items, name, bodies[i])
    ensures q.items == AddAll(map[], EventsUpTo(bodies, i + 1)) && NoBetter(p.items, q.items)
  {
    AddAllJoins(map[], EventsUpTo(bodies, i), bodies[i].events);
    BodyIsRecorded(p.items, name, bodies[i]);
  }

  lemma {:induction false} PhasesGoWell(setup: Setup, disks: map<string, D.Device>, write: set<string>, bodies: seq<Body>,
          p: Process, q: Process, i: nat)
    requires Unhindered(setup, bodies) && GoesWell(setup, disks, write, bodies, p, i) && i < |setup.plan|
    requires AfterPhase(disks, write, p, q, setup.plan[i], bodies[i], false) && NoBetter(p.items, q.items)
    ensures forall j | i + 1 <= j < |setup.plan| :: q.st.Phase(setup.plan[j]) == Pending
    ensures forall j | 0 <= j < i + 1 :: Tested(q.st.Phase(setup.plan[j])) || AnyIncomplete(q.items)
  {
    TestedOrIncomplete(q.items, setup.plan[i]);
    if AnyIncomplete(p.items) {
      StaysIncomplete(p.items, q.items);
    }
  }

  lemma {:induction false} PhaseGoesWell(setup: Setup, disks: map<string, D.Device>, write: set<string>, bodies: seq<Body>,
          p: Process, q: Process, i: nat, rebooting: bool)
    requires Unhindered(setup, bodies) && GoesWell(setup, disks, write, bodies, p, i) && i < |setup.plan|
    requires AfterPhase(disks, write, p, q, setup.plan[i], bodies[i], rebooting)
    ensures !rebooting && GoesWell(setup, disks, write, bodies, q, i + 1)
  {
    assert setup.plan[i] in setup.plan;
    EventsOfNext(bodies, i, p, q, setup.plan[i]);
    PhasesGoWell(setup, disks, write, bodies, p, q, i);
    assert setup.plan[i] == Inventory <==> i == 0;
    if i == 0 {
      TestsBeginAnew(disks, write, p, q);
    }
  }

  lemma {:induction false} EntryGoesWell(setup: Setup, disks: map<string, D.Device>, tests: DiskTests, bodies: seq<Body>,
          p: Process, q: Process, i: nat, leave: bool, rebooting: bool)
    requires Unhindered(setup, bodies) && GoesWell(setup, disks, tests.write, bodies, p, i) && i < |setup.plan|
    requires ThreadsAnswer(p.scans, tests)
    requires AfterEntry(disks, tests, p, q, setup.plan[i], bodies[i], leave, rebooting)
    ensures !leave && !rebooting && GoesWell(setup, disks, tests.write, bodies, q, i + 1)
  {
    assert setup.plan[i] in setup.plan;
    PhaseGoesWell(setup, disks, tests.write, bodies, p, q, i, rebooting);
  }

  /** The disk tests end well: they add nothing, and every disk and self-test is done. */
  lemma {:induction false} DisksEndWell(disks: map<string, D.Device>, tests: DiskTests, p: Process, q: Process)
    requires Answers(disks, tests) && DisksAreFine(disks, tests) && NewTests(disks, tests.write, p)
    requires ThreadsAnswer(p.scans, tests) && DisksFinished(p, q, tests)
    ensures q.items == p.items && q.abort == p.abort
    ensures q.st == p.st.(scans := q.st.scans, disksFinished := true, selftests := tests.selftests)
    ensures (forall id | id in q.st.scans :: q.st.scans[id].done) && forall t | t in q.st.selftests :: t.1
  {
    forall id | id in q.scans ensures WentWell(q.scans[id]) {
      assert id in p.scans && p.scans[id] == S.Begun(disks[id].size, 0) && id !in tests.write;
    }
    forall id | id in q.st.scans ensures q.st.scans[id].done {
      assert id in disks;
      if id in q.scans {
        assert id in p.scans;
      }
    }
  }

  // ---------- its verdict

  /** The verdict is decided by the findings offered: by the worst severity, and by anything incomplete or left out. */
  ghost predicate DecidedBy(v: Verdict, events: seq<(Key, Event)>, whole: bool) {
    && (v == Fail <==> Offered(events, FAIL))
    && (v == Pass <==> whole && !OfferedIncomplete(events) && forall i | 0 <= i < |events| :: events[i].1.severity == INFO)
    && (v == PassWithWarnings <==>
          whole && !OfferedIncomplete(events) && !Offered(events, FAIL) && Offered(events, WARN))
  }

  lemma {:induction false} NoGapOfWholeRun(st: State, items: Items)
    requires st.status == Complete && st.setup.plan != [] && st.setup.skip == [] && !AnyIncomplete(items)
    requires forall p | p in st.setup.plan :: Tested(st.Phase(p))
    requires (forall id | id in st.scans :: st.scans[id].done) && forall t | t in st.selftests :: t.1
    ensures forall g :: !IsGap(Some(st), items, g)
  {
    assert Covered(st, items);
    CoveredIffNoGap(Some(st), items);
  }

  lemma {:induction false} VerdictOfWholeRun(v: Verdict, st: State, events: seq<(Key, Event)>)
    requires Judges(v, Some(st), AddAll(map[], events), false)
    requires st.status == Complete && st.setup.plan != []
    requires (forall p | p in st.setup.plan :: Tested(st.Phase(p))) || AnyIncomplete(AddAll(map[], events))
    requires (forall id | id in st.scans :: st.scans[id].done) && forall t | t in st.selftests :: t.1
    ensures DecidedBy(v, events, st.setup.skip == [])
  {
    var items := AddAll(map[], events);
    FoundIffOffered(events);
    SeveritiesAre(items);
    assert Offered(events, INFO) || Offered(events, WARN) || Offered(events, FAIL) || events == [];
    if st.setup.skip != [] {
      assert IsGap(Some(st), items, Omitted(st.setup.skip[0]));
    } else if !AnyIncomplete(items) {
      NoGapOfWholeRun(st, items);
    }
  }

  lemma {:induction false} SeveritiesAre(items: Items)
    ensures (forall k | k in items :: items[k].severity == INFO) <==> !AnyAt(items, WARN) && !AnyAt(items, FAIL)
    ensures AnyIncomplete(items) <==> exists k | k in items :: items[k].incomplete
  {
    if !AnyAt(items, WARN) && !AnyAt(items, FAIL) {
      forall k | k in items ensures items[k].severity == INFO {
        assert items[k].severity != WARN && items[k].severity != FAIL;
      }
    }
  }

  lemma {:induction false} EndsWell(setup: Setup, disks: map<string, D.Device>, tests: DiskTests, bodies: seq<Body>,
          checks: seq<(Key, Event)>, p: Process, q: Process, v: Verdict)
    requires Unhindered(setup, bodies) && GoesWell(setup, disks, tests.write, bodies, p, |setup.plan|)
    requires Answers(disks, tests) && DisksAreFine(disks, tests)
    requires ThreadsAnswer(p.scans, tests) && Concludes(p, q, tests, checks)
    requires Judges(v, Some(q.st), q.items, q.abort)
    ensures !q.abort && DecidedBy(v, EventsUpTo(bodies, |bodies|) + checks, setup.skip == [])
  {
    var r :| Drained(p, r, tests) && Closes(r, q, checks);
    var events := EventsUpTo(bodies, |bodies|);
    DisksEndWell(disks, tests, p, r);
    AddAllJoins(map[], events, checks);
    AddAllRecords(p.items, checks);
    assert q.items == AddAll(map[], events + checks);
    PhasesEndWell(setup, disks, tests.write, bodies, p, q);
    VerdictOfWholeRun(v, q.st, events + checks);
  }

  lemma {:induction false} PhasesEndWell(setup: Setup, disks: map<string, D.Device>, write: set<string>, bodies: seq<Body>,
          p: Process, q: Process)
    requires |bodies| == |setup.plan| && GoesWell(setup, disks, write, bodies, p, |setup.plan|)
    requires NoBetter(p.items, q.items) && forall name :: q.st.Phase(name) == p.st.Phase(name)
    ensures AnyIncomplete(q.items) || forall name | name in setup.plan :: Tested(q.st.Phase(name))
  {
    if AnyIncomplete(p.items) {
      StaysIncomplete(p.items, q.items);
    } else {
      forall name | name in setup.plan ensures Tested(q.st.Phase(name)) {
        var j :| 0 <= j < |setup.plan| && setup.plan[j] == name;
        assert Tested(p.st.Phase(setup.plan[j]));
      }
    }
  }

  // ---------- the loop over the plan

  /** What is known of memory while the loop runs, or when it was left before entry `i`. */
  ghost predicate InLoop(disks: map<string, D.Device>, tests: DiskTests, p: Process, q: Process, bodies: seq<Body>, i: nat,
          leave: bool, rebooting: bool) {
    var setup := p.st.setup;
    && (if leave || rebooting
        then NoBetter(p.items, q.items) && (p.abort ==> q.abort) && Carried(p.st, q.st, q.items, q.abort, rebooting, bodies)
        else CarriedSoFar(p, q, bodies, i))
    && (Unhindered(setup, bodies) && GoesWell(setup, disks, tests.write, bodies, p, 0) ==>
          !leave && !rebooting && GoesWell(setup, disks, tests.write, bodies, q, i))
  }

  lemma {:induction false} LoopBegins(disks: map<string, D.Device>, tests: DiskTests, p: Process, bodies: seq<Body>)
    requires |bodies| == |p.st.setup.plan|
    ensures InLoop(disks, tests, p, p, bodies, 0, false, false)
  {
  }

  lemma {:induction false} LoopTurns(disks: map<string, D.Device>, tests: DiskTests, p: Process, q: Process, r: Process,
          bodies: seq<Body>, i: nat, leave: bool, rebooting: bool)
    requires InLoop(disks, tests, p, q, bodies, i, false, false) && i < |p.st.setup.plan| == |bodies|
    requires ThreadsAnswer(q.scans, tests)
    requires AfterEntry(disks, tests, q, r, p.st.setup.plan[i], bodies[i], leave, rebooting)
    ensures InLoop(disks, tests, p, r, bodies, i + 1, leave, rebooting)
  {
    var setup := p.st.setup;
    EntryTurns(disks, tests, q, r, setup.plan[i], bodies[i], leave, rebooting);
    if leave || rebooting {
      LoopIsLeft(p, q, r, bodies, i, leave, rebooting);
    } else {
      LoopGoesOn(p, q, r, bodies, i);
    }
    if Unhindered(setup, bodies) && GoesWell(setup, disks, tests.write, bodies, p, 0) {
      EntryGoesWell(setup, disks, tests, bodies, q, r, i, leave, rebooting);
    }
  }

  /** The place and what is still unwritten are of no account. */
  lemma {:induction false} LoopEnds(disks: map<string, D.Device>, tests: DiskTests, p: Process, q: Process, r: Process,
          bodies: seq<Body>, i: nat, leave: bool, rebooting: bool)
    requires InLoop(disks, tests, p, q, bodies, i, leave, rebooting) && |p.st.setup.plan| == |bodies|
    requires leave || rebooting || i == |bodies|
    requires r == q.(at := r.at, dirty := r.dirty)
    ensures NoBetter(p.items, r.items) && (p.abort ==> r.abort) && Carried(p.st, r.st, r.items, r.abort, rebooting, bodies)
    ensures Unhindered(p.st.setup, bodies) && GoesWell(p.st.setup, disks, tests.write, bodies, p, 0) ==>
      !rebooting && GoesWell(p.st.setup, disks, tests.write, bodies, r, |bodies|)
  {
    if !leave && !rebooting {
      LoopIsThrough(p, q, bodies);
    }
  }

  // ---------- from the loop to the verdict

  /** Whatever verdict follows from this state and these findings is decided by these events. */
  ghost predicate WillBeDecidedBy(q: Process, events: seq<(Key, Event)>, whole: bool) {
    forall v | Judges(v, Some(q.st), q.items, q.abort) :: DecidedBy(v, events, whole)
  }

  /** What holds of memory at the end, given what it was before the first entry of the plan. */
  ghost predicate BootEnded(disks: map<string, D.Device>, tests: DiskTests, p: Process, q: Process, bodies: seq<Body>,
          checks: seq<(Key, Event)>)
    requires Answers(disks, tests)
  {
    && NoBetter(p.items, q.items) && AllRecorded(q.items, checks) && Carried(p.st, q.st, q.items, q.abort, false, bodies)
    && (Unhindered(p.st.setup, bodies) && GoesWell(p.st.setup, disks, tests.write, bodies, p, 0) && DisksAreFine(disks, tests) ==>
          WillBeDecidedBy(q, EventsUpTo(bodies, |bodies|) + checks, p.st.setup.skip == []))
  }

  lemma {:induction false} EndIsReached(disks: map<string, D.Device>, tests: DiskTests, p: Process, mid: Process, q: Process,
          bodies: seq<Body>, checks: seq<(Key, Event)>)
    requires Answers(disks, tests) && |p.st.setup.plan| == |bodies|
    requires NoBetter(p.items, mid.items) && Carried(p.st, mid.st, mid.items, mid.abort, false, bodies)
    requires Unhindered(p.st.setup, bodies) && GoesWell(p.st.setup, disks, tests.write, bodies, p, 0) ==>
      GoesWell(p.st.setup, disks, tests.write, bodies, mid, |bodies|)
    requires ThreadsAnswer(mid.scans, tests) && Concludes(mid, q, tests, checks)
    ensures BootEnded(disks, tests, p, q, bodies, checks)
  {
    ConcludingKeeps(mid, q, tests, checks);
    NoBetterJoins(p.items, mid.items, q.items);
    CarriedToTheEnd(p.st, mid.st, q.st, mid.items, q.items, mid.abort, q.abort, bodies);
    if Unhindered(p.st.setup, bodies) && GoesWell(p.st.setup, disks, tests.write, bodies, p, 0) && DisksAreFine(disks, tests) {
      forall v | Judges(v, Some(q.st), q.items, q.abort)
        ensures DecidedBy(v, EventsUpTo(bodies, |bodies|) + checks, p.st.setup.skip == [])
      {
        EndsWell(p.st.setup, disks, tests, bodies, checks, mid, q, v);
      }
    }
  }

  /** Disk tests that begin before the loop change nothing that it looks at, and a new session begins none then. */
  lemma {:induction false} EndIsReachedFrom(disks: map<string, D.Device>, tests: DiskTests, p0: Process, p: Process, q: Process,
          bodies: seq<Body>, checks: seq<(Key, Event)>)
    requires Answers(disks, tests) && |p0.st.setup.plan| == |bodies|
    requires BootEnded(disks, tests, p, q, bodies, checks)
    requires p == p0 || (p0.st.Phase(Inventory) != Pending && p == p0.(st := p0.st.(scans := p.st.scans), scans := p.scans))
    ensures BootEnded(disks, tests, p0, q, bodies, checks)
  {
    assert forall name :: p.st.Phase(name) == p0.st.Phase(name);
    if Unhindered(p0.st.setup, bodies) && GoesWell(p0.st.setup, disks, tests.write, bodies, p0, 0) {
      assert p0.st.setup.plan[0] == Inventory;
    }
    forall j | 0 <= j < |p0.st.setup.plan| && j < |bodies| && First(p0.st.setup.plan, j) && p0.st.Phase(p0.st.setup.plan[j]) == Pending
      ensures IsAccountedFor(p0.st, q.st.Phase(p0.st.setup.plan[j]), q.items, q.abort, false, p0.st.setup.plan[j], bodies[j])
    {
      assert IsAccountedFor(p.st, q.st.Phase(p.st.setup.plan[j]), q.items, q.abort, false, p.st.setup.plan[j], bodies[j]);
    }
  }

  // ---------- where the loop begins

  /** The state with which the loop begins: a new one, or the one found, resumed and with the interrupted phase marked. */
  function LoopStart(setup: Setup, found: Option<State>, boot: nat, running: Option<PhaseName>): State {
    match found
    case None => Fresh(setup, boot)
    case Some(st) =>
      var r := Resume(st, boot);
      if r.unexpected && running.Some? then
        r.st.WithPhase(running.value, if running.value == Inventory then Pending else Interrupted)
      else r.st
  }

  lemma {:induction false} LoopStartsThere(w: World, d: Disk, found: Option<State>, boot: nat, running: Option<PhaseName>)
    requires found.Some? ==> !Resume(found.value, boot).restart
    ensures var started := if found.None? then Beginning(w, boot) else Resuming(d, found.value, boot, running);
      var cause := started.at.cause;
      var p := Marked(Incident(started, cause).mem, cause).mem;
      && p.st == LoopStart(w.setup, found, boot, running) && !p.abort && !p.rebooting
      && (found.None? ==> p == Beginning(w, boot).(at := Looping(0)))
      && NoBetter(started.items, p.items)
  {
    match found
    case None =>
    case Some(st) =>
      var started := Resuming(d, st, boot, running);
      AddRecords(started.items, UnexpectedReboot(started.st.unexpected), Note(FAIL, running, false));
      AddRecords(started.items, PowerCycleProgress, Note(INFO, None, false));
  }
}
