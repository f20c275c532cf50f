/**
 The imperative main thread of src/pccheck/orchestrator.py over session and findings
 objects. Every method is shown to take only steps of the transition system, so what
 Theorems proves of all runs covers what this code does between resets.
 */
module MainThread {
  import opened Wrappers
  import opened Config
  import opened RotatingStore
  import opened StoreHistory
  import opened FindingStore
  import opened TestSession
  import opened FindingKeys
  import opened Orchestrator
  import opened BootOutcomes
  import Invariant
  import D = DestructiveTests
  import S = SurfaceScanning
  import Report
  import Theorems

  /** One machine state is reached from another by legal turns. */
  ghost predicate Runs(w: World, a: Machine, b: Machine) {
    exists turns :: LegalRun(w, a, turns) && Run(w, a, turns) == b
  }

  lemma {:induction false} RunsNowhere(w: World, m: Machine)
    ensures Runs(w, m, m)
  {
    assert LegalRun(w, m, []) && Run(w, m, []) == m;
  }

  lemma {:induction false} RunsFurther(w: World, a: Machine, b: Machine, t: Turn)
    requires Runs(w, a, b) && Legal(w, b, t)
    ensures Runs(w, a, Take(w, b, t))
  {
    var turns :| LegalRun(w, a, turns) && Run(w, a, turns) == b;
    var longer := turns + [t];
    assert longer[..|longer| - 1] == turns && longer[|longer| - 1] == t;
    assert LegalRun(w, a, longer) && Run(w, a, longer) == Take(w, b, t);
  }

  /** A set of machine states that no legal turn leaves; the states that runs lead to are one. */
  ghost predicate ClosedUnderTurns(w: World, reach: iset<Machine>) {
    forall m, t | m in reach && Legal(w, m, t) :: Take(w, m, t) in reach
  }

  ghost function Reachable(w: World, start: Machine): iset<Machine> {
    iset m | Runs(w, start, m)
  }

  lemma {:induction false} ReachableIsClosed(w: World, start: Machine)
    ensures ClosedUnderTurns(w, Reachable(w, start))
  {
    forall m, t | m in Reachable(w, start) && Legal(w, m, t) ensures Take(w, m, t) in Reachable(w, start) {
      RunsFurther(w, start, m, t);
    }
  }

  /** What saving the session does to the disk. */
  lemma {:induction false} SavedIs(d: Disk, m: Process)
    ensures Stored(d, Effect(m, SaveState)) ==
      Disk(Writer(Write(d.session.store, m.st, d.session.num + 1), d.session.num + 1), d.findings)
  {
  }

  /** What adding a finding does to the ledger and to nothing else. */
  lemma {:induction false} AddedAndGone(d: Disk, m: Process, key: Key, e: Event, next: Place)
    ensures var f, l := Going(Adding(m, key, e), next), Added(Invariant.LedgerOf(d, m), key, e);
      && f.mem == Process(m.st, l.items, l.dirty, m.abort, m.rebooting, next, m.scans, m.sel)
      && Stored(d, f) == Disk(d.session, Writer(l.store, l.num))
  {
    Invariant.AddingIsAdded(d, m, key, e);
  }

  /** Whether disk tests may finish depends on nothing that finishing a scan changes. */
  lemma {:induction false} SameFinishing(p: Process, q: Process)
    requires q.st == p.st && q.abort == p.abort && q.at == p.at
    ensures Finishing(p) <==> Finishing(q)
  {
  }

  ghost predicate ListedAmong(w: World, scans: map<string, S.Scanner>, entries: map<string, D.Entry>) {
    forall id | id in scans :: id in w.disks && scans[id].size == w.disks[id].size && id in entries
  }

  lemma {:induction false} ScansOn(s: S.Scanner, device: S.Device, rounds: nat, stop: nat)
    requires S.Readable(s) && rounds < stop && S.Honest(device, s.size)
    ensures var r := device(s.offset, rounds);
      && S.Fits(s, r) && S.ReadOnce(s, r).size == s.size
      && S.Scanned(S.ReadOnce(s, r), device, rounds + 1, stop) == S.Scanned(s, device, rounds, stop)
  {
  }

  class Context {
    const session: Session
    const findings: Findings
    const persistent: bool
    var abort: bool
    var rebootRequest: Option<nat>
    /** The scan threads of this process, by disk. */
    var scans: map<string, S.Scanner>

    constructor (session: Session, findings: Findings, persistent: bool)
      ensures this.session == session && this.findings == findings && this.persistent == persistent
      ensures !abort && rebootRequest.None? && scans == map[]
    {
      this.session, this.findings, this.persistent := session, findings, persistent;
      abort, rebootRequest, scans := false, None, map[];
    }

    ghost predicate Valid(w: World, reach: iset<Machine>) {
      ClosedUnderTurns(w, reach) && (session.file as object) != findings.file && w.persistent == persistent
    }

    ghost function Memory(at: Place): Process
      reads this, session, findings
    {
      Process(session.st, findings.items, findings.dirty, abort, rebootRequest.Some?, at, scans, Unread)
    }

    /** The scan threads are of listed disks that are on record. */
    ghost predicate Listed(w: World)
      reads this, session
    {
      ListedAmong(w, scans, session.st.scans)
    }

    ghost function OnDisk(): Disk
      reads session, session.file, findings, findings.file
    {
      Disk(Writer(session.file.store, session.num), Writer(findings.file.store, findings.num))
    }

    /** The machine state these objects stand for, with the main thread at `at`. */
    ghost predicate Shows(m: Machine, at: Place)
      reads this, session, session.file, findings, findings.file
    {
      m.power == Some(Memory(at)) && m.disk == OnDisk()
    }

    /** The machine takes one more step of its own. */
    lemma {:induction false} Stepped(w: World, reach: iset<Machine>, m: Machine, a: Action) returns (m': Machine)
      requires ClosedUnderTurns(w, reach) && m in reach && m.power.Some?
      requires Enabled(m.power.value, a) && Allowed(w, m.power.value, a)
      ensures m' in reach
      ensures m'.power == Some(After(w, m.power.value, a).mem) && m'.disk == Stored(m.disk, After(w, m.power.value, a))
    {
      m' := Take(w, m, Act(a));
    }

    /** `findings.add` as the step `a`, which goes to `next` and whose other effects these objects show as `m0`. */
    method AddAs(ghost w: World, ghost reach: iset<Machine>, ghost m: Machine, ghost a: Action, ghost m0: Process,
                 key: Key, e: Event, ghost next: Place)
      returns (ghost m': Machine)
      requires Valid(w, reach) && m in reach && m.power.Some? && m.disk == OnDisk() && m0 == Memory(m0.at)
      requires Enabled(m.power.value, a) && Allowed(w, m.power.value, a)
      requires After(w, m.power.value, a) == Going(Adding(m0, key, e), next)
      modifies findings, findings.file
      ensures Shows(m', next) && m' in reach && m'.power == Some(Going(Adding(m0, key, e), next).mem)
    {
      m' := Stepped(w, reach, m, a);
      AddedAndGone(m.disk, m0, key, e, next);
      var _ := findings.Add(key, e);
    }

    /** `session.set_phase` as the step `a`, which goes to `next`. */
    method SetAs(ghost w: World, ghost reach: iset<Machine>, ghost m: Machine, ghost a: Action, name: PhaseName,
            s: Status, ghost next: Place)
      returns (ghost m': Machine)
      requires Valid(w, reach) && m in reach && m.power.Some? && Shows(m, m.power.value.at)
      requires Enabled(m.power.value, a) && Allowed(w, m.power.value, a)
      requires After(w, m.power.value, a) == Setting(m.power.value, name, s, next)
      modifies session`st, session`num, session.file
      ensures Shows(m', next) && m' in reach && m'.power == Some(Setting(m.power.value, name, s, next).mem)
      ensures session.st == old(session.st).WithPhase(name, s)
    {
      m' := Stepped(w, reach, m, a);
      session.SetPhase(name, s);
    }

    /** `session.save` as the step `a`, whose other effects these objects already show. */
    method SaveAs(ghost w: World, ghost reach: iset<Machine>, ghost m: Machine, ghost a: Action, ghost next: Place)
      returns (ghost m': Machine)
      requires Valid(w, reach) && m in reach && m.power.Some? && m.disk == OnDisk()
      requires Enabled(m.power.value, a) && Allowed(w, m.power.value, a)
      requires After(w, m.power.value, a) == Effect(Memory(next), SaveState)
      modifies session`num, session.file
      ensures Shows(m', next) && m' in reach
    {
      m' := Stepped(w, reach, m, a);
      SavedIs(m.disk, m'.power.value);
      session.SaveWritten();
    }

    /** `findings.flush(force=True)` as the step `a`, which goes to `next`. */
    method FlushAs(ghost w: World, ghost reach: iset<Machine>, ghost m: Machine, ghost a: Action, ghost next: Place)
      returns (ghost m': Machine)
      requires Valid(w, reach) && m in reach && m.power.Some? && Shows(m, m.power.value.at)
      requires Enabled(m.power.value, a) && Allowed(w, m.power.value, a)
      requires After(w, m.power.value, a) == Effect(m.power.value.(at := next, dirty := false), FlushFindings)
      modifies findings, findings.file
      ensures Shows(m', next) && m' in reach && m'.power == Some(m.power.value.(at := next, dirty := false))
    {
      m' := Stepped(w, reach, m, a);
      findings.Flush(true);
    }

    /** Findings of workloads or of the final checks, one by one. */
    method Observations(ghost w: World, ghost reach: iset<Machine>, ghost m: Machine, ghost at: Place,
            events: seq<(Key, Event)>)
      returns (ghost m': Machine)
      requires Valid(w, reach) && Shows(m, at) && m in reach && Fitting(events)
      modifies findings, findings.file
      ensures m' in reach && Shows(m', at)
      ensures var p, q := m.power.value, m'.power.value; q == p.(items := AddAll(p.items, events), dirty := q.dirty)
    {
      m' := m;
      for k := 0 to |events|
        invariant Shows(m', at) && m' in reach
        invariant var p, q := m.power.value, m'.power.value;
          q == p.(items := AddAll(p.items, events[..k]), dirty := q.dirty)
      {
        assert events[..k + 1][..k] == events[..k];
        var (key, e) := events[k];
        m' := ObserveOne(w, reach, m', at, key, e);
      }
      assert events[..|events|] == events;
    }

    method ObserveOne(ghost w: World, ghost reach: iset<Machine>, ghost m: Machine, ghost at: Place, key: Key, e: Event)
      returns (ghost m': Machine)
      requires Valid(w, reach) && Shows(m, at) && m in reach && FitsKey(key, e)
      modifies findings, findings.file
      ensures m' in reach && Shows(m', at)
      ensures var p, q := m.power.value, m'.power.value; q == p.(items := AddItem(p.items, key, e), dirty := q.dirty)
    {
      m' := AddAs(w, reach, m, Observe(key, e), m.power.value, key, e, at);
    }

    /** The workload of phase `i`: findings, perhaps an abort, then a return or an exception. */
    method RunBody(ghost w: World, ghost reach: iset<Machine>, ghost m: Machine, i: nat, body: Body,
                   disks: map<string, D.Device>, tests: DiskTests)
      returns (raised: bool, ghost m': Machine)
      requires Valid(w, reach) && Shows(m, InPhase(i)) && m in reach && i < |session.st.setup.plan|
      requires Fitting(body.events) && disks == w.disks && Listed(w)
      modifies this`abort, this`scans, session`st, session`num, session.file, findings, findings.file
      ensures m' in reach && Listed(w)
      ensures session.st == old(session.st).(scans := session.st.scans)
      ensures Shows(m', if raised then Erred(i) else if session.st.setup.plan[i] == PowerCycle then InPhase(i) else Returned(i))
      ensures raised == body.raises
      ensures AfterBody(disks, tests.write, m.power.value, m'.power.value, m.power.value.st.setup.plan[i], body)
    {
      m' := RunWorkload(w, reach, m, InPhase(i), body);
      ghost var told := m'.power.value;
      raised := body.raises;
      m' := BeginTests(w, reach, m', i, raised, disks, tests.write);
      ghost var begun := m'.power.value;
      m' := EndBody(w, reach, m', i, raised);
      BodyIsDone(disks, tests.write, m.power.value, told, begun, i, body);
    }

    /** After the inventory the disk tests begin. */
    method BeginTests(ghost w: World, ghost reach: iset<Machine>, ghost m: Machine, i: nat, raised: bool,
                      disks: map<string, D.Device>, write: set<string>)
      returns (ghost m': Machine)
      requires Valid(w, reach) && Shows(m, InPhase(i)) && m in reach && i < |session.st.setup.plan|
      requires disks == w.disks && Listed(w)
      modifies this`scans, session`st, session`num, session.file
      ensures m' in reach && Shows(m', InPhase(i)) && Listed(w)
      ensures session.st == old(session.st).(scans := session.st.scans)
      ensures !raised && session.st.setup.plan[i] == Inventory ==>
        session.st.disksFinished || forall id | id in disks :: id in session.st.scans
      ensures var p, q := m.power.value, m'.power.value;
        && q == p.(st := p.st.(scans := q.st.scans), scans := q.scans)
        && BeginsOrStays(disks, write, p, q, session.st.setup.plan[i] == Inventory && !raised)
    {
      m' := m;
      if !raised && session.st.setup.plan[i] == Inventory {
        m' := StartDiskTests(w, reach, m, InPhase(i), disks, write);
      }
    }

    /** What the workload itself shows. */
    method RunWorkload(ghost w: World, ghost reach: iset<Machine>, ghost m: Machine, ghost at: Place, body: Body)
      returns (ghost m': Machine)
      requires Valid(w, reach) && Shows(m, at) && m in reach && Fitting(body.events)
      modifies this`abort, session`num, session.file, findings, findings.file
      ensures m' in reach && Shows(m', at)
      ensures var p, q := m.power.value, m'.power.value;
        q == p.(items := AddAll(p.items, body.events), dirty := q.dirty, abort := p.abort || body.abort)
    {
      m' := Observations(w, reach, m, at, body.events);
      if body.abort {
        m' := RequestAbort(w, reach, m', at);
      }
    }

    /** `start_disk_tests` for the disks to be read; those to be written start under DestructiveTests. */
    method StartDiskTests(ghost w: World, ghost reach: iset<Machine>, ghost m: Machine, ghost at: Place,
                          disks: map<string, D.Device>, write: set<string>)
      returns (ghost m': Machine)
      requires Valid(w, reach) && Shows(m, at) && m in reach && disks == w.disks && Listed(w)
      requires session.st.disksFinished || MayScan(m.power.value)
      modifies this`scans, session`st, session`num, session.file
      ensures Shows(m', at) && m' in reach && Listed(w)
      ensures session.st == old(session.st).(scans := session.st.scans)
      ensures session.st.disksFinished || forall id | id in disks :: id in session.st.scans
      ensures var p, q := m.power.value, m'.power.value;
        && q == p.(st := p.st.(scans := q.st.scans), scans := q.scans) && BeginsOrStays(disks, write, p, q, true)
    {
      m' := m;
      if !session.st.disksFinished {
        m' := StartAll(w, reach, m, at, disks, write);
      }
    }

    method StartAll(ghost w: World, ghost reach: iset<Machine>, ghost m: Machine, ghost at: Place,
                    disks: map<string, D.Device>, write: set<string>)
      returns (ghost m': Machine)
      requires Valid(w, reach) && Shows(m, at) && m in reach && disks == w.disks && Listed(w) && MayScan(m.power.value)
      modifies this`scans, session`st, session`num, session.file
      ensures Shows(m', at) && m' in reach && Listed(w)
      ensures session.st == old(session.st).(scans := session.st.scans)
      ensures var p, q := m.power.value, m'.power.value;
        q == p.(st := p.st.(scans := q.st.scans), scans := q.scans) && Begins(disks, write, p, q)
    {
      TestsAreToBegin(disks, write, m.power.value);
      m' := StartLeft(w, reach, m, at, m.power.value, disks, write);
    }

    method StartLeft(ghost w: World, ghost reach: iset<Machine>, ghost m: Machine, ghost at: Place, ghost p: Process,
                     disks: map<string, D.Device>, write: set<string>)
      returns (ghost m': Machine)
      requires Valid(w, reach) && Shows(m, at) && m in reach && disks == w.disks && Listed(w) && MayScan(m.power.value)
      requires m.power.value == p && BeginsBut(disks.Keys, disks, write, p.st.scans, p.scans, p.st.scans, p.scans)
      modifies this`scans, session`st, session`num, session.file
      ensures Shows(m', at) && m' in reach && Listed(w)
      ensures var q := m'.power.value; q == p.(st := p.st.(scans := q.st.scans), scans := q.scans) && Begins(disks, write, p, q)
    {
      m' := m;
      var left := disks.Keys;
      while left != {}
        invariant left <= disks.Keys && Shows(m', at) && m' in reach && Listed(w)
        invariant m'.power.value == p.(st := p.st.(scans := m'.power.value.st.scans), scans := m'.power.value.scans)
        invariant BeginsBut(left, disks, write, p.st.scans, p.scans, m'.power.value.st.scans, m'.power.value.scans)
        decreases left
      {
        var id :| id in left;
        m' := StartNext(w, reach, m', at, p, left, id, disks, write);
        left := left - {id};
      }
    }

    /** A disk that has a thread already is passed over. */
    method StartNext(ghost w: World, ghost reach: iset<Machine>, ghost m: Machine, ghost at: Place, ghost p: Process,
                     ghost left: set<string>, id: string, disks: map<string, D.Device>, write: set<string>)
      returns (ghost m': Machine)
      requires Valid(w, reach) && Shows(m, at) && m in reach && disks == w.disks && Listed(w)
      requires MayScan(m.power.value) && id in left && id in disks
      requires forall other | other in p.scans :: other in p.st.scans
      requires BeginsBut(left, disks, write, p.st.scans, p.scans, m.power.value.st.scans, m.power.value.scans)
      modifies this`scans, session`st, session`num, session.file
      ensures Shows(m', at) && m' in reach && Listed(w)
      ensures session.st == old(session.st).(scans := session.st.scans)
      ensures var q, r := m.power.value, m'.power.value;
        && r == q.(st := q.st.(scans := r.st.scans), scans := r.scans)
        && BeginsBut(left - {id}, disks, write, p.st.scans, p.scans, r.st.scans, r.scans)
    {
      if id !in scans {
        NextBegins(left, disks, write, p, m.power.value, id);
        m' := StartOne(w, reach, m, at, id, disks[id], id in write);
      } else {
        NextIsThere(left, disks, write, p, m.power.value, id);
        m' := m;
      }
    }

    method StartOne(ghost w: World, ghost reach: iset<Machine>, ghost m: Machine, ghost at: Place,
                    id: string, d: D.Device, write: bool)
      returns (ghost m': Machine)
      requires Valid(w, reach) && Shows(m, at) && m in reach && Listed(w)
      requires id in w.disks && w.disks[id] == d && id !in scans && MayScan(m.power.value)
      modifies this`scans, session`st, session`num, session.file
      ensures Shows(m', at) && m' in reach && Listed(w)
      ensures session.st == old(session.st).(scans := session.st.scans)
      ensures session.st.scans.Keys == old(session.st.scans).Keys + {id}
      ensures m'.power == Some(Starting(m.power.value, id, d, write).mem)
    {
      var entry :=
        if id in session.st.scans then session.st.scans[id]
        else D.Entry(d.name, d.size, 0, false, if write then D.WriteVerify else D.ReadOnly);
      m' := Stepped(w, reach, m, StartScan(id, write));
      if !(entry.done || entry.mode == D.WriteVerify) {
        scans := scans[id := S.Begun(d.size, entry.offset)];
      }
      session.SaveEntries(session.st.scans[id := entry]);
      SavedIs(m.disk, m'.power.value);
    }

    method RequestAbort(ghost w: World, ghost reach: iset<Machine>, ghost m: Machine,
            ghost at: Place) returns (ghost m': Machine)
      requires Valid(w, reach) && Shows(m, at) && m in reach
      modifies this`abort, session`num, session.file
      ensures Shows(m', at) && m' in reach && abort
      ensures m'.power == Some(m.power.value.(abort := true))
    {
      abort := true;
      m' := SaveAs(w, reach, m, Action.RequestAbort, at);
    }

    method EndBody(ghost w: World, ghost reach: iset<Machine>, ghost m: Machine, i: nat,
            raised: bool) returns (ghost m': Machine)
      requires Valid(w, reach) && Shows(m, InPhase(i)) && m in reach && i < |session.st.setup.plan|
      requires !raised && session.st.setup.plan[i] == Inventory ==>
        session.st.disksFinished || forall id | id in w.disks :: id in session.st.scans
      modifies findings, findings.file
      ensures m' in reach
      ensures Shows(m', if raised then Erred(i) else if session.st.setup.plan[i] == PowerCycle then InPhase(i) else Returned(i))
      ensures m'.power == Some(BodyEnded(m.power.value, i, raised))
    {
      var name := session.st.setup.plan[i];
      m' := m;
      if raised {
        m' := AddAs(w, reach, m, BodyRaises, m.power.value, PhaseError(name), Note(WARN, Some(name), true), Erred(i));
      } else if name != PowerCycle {
        m' := Stepped(w, reach, m, BodyReturns);
      }
    }

    /** `PowerCyclePhase.run` after its comparisons: skip, finish, or ask for the next reboot. */
    method PowerCycleRun(ghost w: World, ghost reach: iset<Machine>, ghost m: Machine,
            i: nat) returns (ghost m': Machine)
      requires Valid(w, reach) && Shows(m, InPhase(i)) && m in reach && rebootRequest.None?
      requires i < |session.st.setup.plan| && session.st.setup.plan[i] == PowerCycle
      modifies this`rebootRequest, session`st, session`num, session.file, findings, findings.file
      ensures Shows(m', Returned(i)) && m' in reach
      ensures session.st.setup == old(session.st.setup) && session.st.scans == old(session.st.scans)
      ensures m'.power == Some(PowerCycling(w, m.power.value, i).mem)
    {
      var target := session.st.setup.Target();
      var done := session.st.cyclesDone;
      if !persistent {
        m' := AddAs(w, reach, m, PowerCycleTurn, m.power.value, PowerCycleSkipped, Note(WARN, Some(PowerCycle), false), Returned(i));
      } else if done >= target {
        m' := AddAs(w, reach, m, PowerCycleTurn, m.power.value, PowerCycleOk, Note(INFO, Some(PowerCycle), false), Returned(i));
      } else {
        m' := RequestReboot(w, reach, m, i, done + 1);
      }
    }

    method RequestReboot(ghost w: World, ghost reach: iset<Machine>, ghost m: Machine, ghost i: nat, cycle: nat)
      returns (ghost m': Machine)
      requires Valid(w, reach) && Shows(m, InPhase(i)) && m in reach && Enabled(m.power.value, PowerCycleTurn)
      requires PowerCycling(w, m.power.value, i) ==
               Effect(m.power.value.(st := session.st.(planned := Some(cycle)), rebooting := true, at := Returned(i)), SaveState)
      modifies this`rebootRequest, session`st, session`num, session.file
      ensures Shows(m', Returned(i)) && m' in reach
      ensures session.st.setup == old(session.st.setup) && session.st.scans == old(session.st.scans)
      ensures m'.power == Some(PowerCycling(w, m.power.value, i).mem)
    {
      m' := Stepped(w, reach, m, PowerCycleTurn);
      rebootRequest := Some(cycle);
      session.RequestReboot(cycle);
    }

    /** `perform_reboot` up to the command that restarts the machine. */
    method PerformReboot(ghost w: World, ghost reach: iset<Machine>, ghost m: Machine) returns (ghost m': Machine)
      requires Valid(w, reach) && Shows(m, Settled) && m in reach
      modifies session`num, session.file, findings, findings.file
      ensures Shows(m', RebootIssued) && m' in reach
      ensures m'.power == Some(m.power.value.(at := RebootIssued, dirty := false))
    {
      m' := FlushAs(w, reach, m, FlushForReboot, Place.Synced);
      m' := SaveAs(w, reach, m', SaveForReboot, RebootIssued);
    }

    /** `SurfaceScan.run` of one disk's thread up to the stop request. */
    method RunScan(ghost w: World, ghost reach: iset<Machine>, ghost m: Machine, ghost at: Place, id: string,
                   device: S.Device, stop: nat)
      returns (ghost m': Machine)
      requires Valid(w, reach) && Shows(m, at) && m in reach && Finishing(m.power.value)
      requires id in scans && S.Honest(device, scans[id].size)
      modifies this`scans
      ensures Shows(m', at) && m' in reach
      ensures scans == old(scans)[id := S.Scanned(old(scans)[id], device, 0, stop)]
      ensures scans[id].stage != S.Reading && scans[id].size == old(scans)[id].size
      ensures var p, q := m.power.value, m'.power.value;
        q == p.(scans := p.scans[id := S.Scanned(p.scans[id], device, 0, stop)])
    {
      m' := m;
      var rounds := 0;
      while S.Readable(scans[id]) && rounds < stop
        invariant Shows(m', at) && m' in reach && id in scans && scans[id].size == old(scans)[id].size
        invariant scans == old(scans)[id := scans[id]]
        invariant S.Scanned(scans[id], device, rounds, stop) == S.Scanned(old(scans)[id], device, 0, stop)
        decreases stop - rounds
      {
        ScansOn(scans[id], device, rounds, stop);
        m' := ReadOnce(w, reach, m', at, id, device(scans[id].offset, rounds));
        rounds := rounds + 1;
      }
      if scans[id].stage == S.Reading {
        SameFinishing(m.power.value, m'.power.value);
        m' := LeaveScan(w, reach, m', at, id);
      }
    }

    method ReadOnce(ghost w: World, ghost reach: iset<Machine>, ghost m: Machine, ghost at: Place, id: string,
            r: S.ReadResult)
      returns (ghost m': Machine)
      requires Valid(w, reach) && Shows(m, at) && m in reach
      requires id in scans && S.Readable(scans[id]) && S.Fits(scans[id], r)
      modifies this`scans
      ensures Shows(m', at) && m' in reach && scans == old(scans)[id := S.ReadOnce(old(scans)[id], r)]
      ensures m'.power == Some(Scanning(m.power.value, id, S.ReadOnce(m.power.value.scans[id], r)))
    {
      m' := Stepped(w, reach, m, ScanRead(id, r));
      scans := scans[id := S.ReadOnce(scans[id], r)];
    }

    method LeaveScan(ghost w: World, ghost reach: iset<Machine>, ghost m: Machine, ghost at: Place, id: string)
      returns (ghost m': Machine)
      requires Valid(w, reach) && Shows(m, at) && m in reach && Finishing(m.power.value)
      requires id in scans && scans[id].stage == S.Reading
      modifies this`scans
      ensures Shows(m', at) && m' in reach && scans == old(scans)[id := S.Left(old(scans)[id])]
      ensures m'.power == Some(Scanning(m.power.value, id, S.Left(m.power.value.scans[id])))
    {
      m' := Stepped(w, reach, m, EndScan(id));
      scans := scans[id := S.Left(scans[id])];
    }

    /** `report_scan`, and what `stop` says of a scan that is not done. */
    method ReportAndStop(ghost w: World, ghost reach: iset<Machine>, ghost m: Machine, ghost at: Place, id: string)
      returns (ghost m': Machine)
      requires Valid(w, reach) && Shows(m, at) && m in reach && Finishing(m.power.value)
      requires id in scans && scans[id].stage != S.Reading
      modifies this`scans, findings, findings.file
      ensures Shows(m', at) && m' in reach
      ensures scans.Keys == old(scans).Keys && scans == old(scans)[id := scans[id]]
      ensures Accounted(scans[id]) && scans[id].size == old(scans)[id].size
      ensures ScanTold(m.power.value, m'.power.value, id)
    {
      m' := m;
      if scans[id].stage == S.Over {
        m' := Report(w, reach, m', at, id);
      }
      ghost var told := m'.power.value;
      if !scans[id].done {
        SameFinishing(m.power.value, m'.power.value);
        m' := Abandon(w, reach, m', at, id);
      }
      TellingIsDone(m.power.value, told, m'.power.value, id);
    }

    method Abandon(ghost w: World, ghost reach: iset<Machine>, ghost m: Machine, ghost at: Place, id: string)
      returns (ghost m': Machine)
      requires Valid(w, reach) && Shows(m, at) && m in reach && Finishing(m.power.value) && id in scans
      requires !scans[id].done
      modifies this`scans, findings, findings.file
      ensures Shows(m', at) && m' in reach
      ensures scans == old(scans)[id := old(scans)[id].(partial := true)]
      ensures var p, q := m.power.value, m'.power.value; var now := p.scans[id].(partial := true);
        q == Adding(Scanning(p, id, now), ScanPartial(id), Note(WARN, None, true)).mem
    {
      var now := scans[id].(partial := true);
      scans := scans[id := now];
      m' := AddAs(w, reach, m, MarkPartial(id, None), Scanning(m.power.value, id, now), ScanPartial(id), Note(WARN, None, true), at);
    }

    method Report(ghost w: World, ghost reach: iset<Machine>, ghost m: Machine, ghost at: Place, id: string)
      returns (ghost m': Machine)
      requires Valid(w, reach) && Shows(m, at) && m in reach && id in scans && scans[id].stage == S.Over
      modifies this`scans, findings, findings.file
      ensures Shows(m', at) && m' in reach
      ensures scans == old(scans)[id := old(scans)[id].(stage := S.Reported)]
      ensures m'.power == Some(ReportingScan(m.power.value, id, None).mem)
    {
      var now := scans[id].(stage := S.Reported);
      var errors := scans[id].errors;
      scans := scans[id := now];
      if errors > 0 {
        m' := AddAs(w, reach, m, ReportScan(id, None), Scanning(m.power.value, id, now), ScanErrors(id), Note(FAIL, None, false), at);
      } else {
        m' := Stepped(w, reach, m, ReportScan(id, None));
      }
    }

    /** `finish_disk_tests`, as `run_phases` or `finalize` calls it. */
    method FinishDiskTests(ghost w: World, ghost reach: iset<Machine>, ghost m: Machine, ghost at: Place,
            tests: DiskTests)
      returns (ghost m': Machine)
      requires Valid(w, reach) && Shows(m, at) && m in reach && Finishing(m.power.value) && Listed(w)
      requires Answers(w.disks, tests)
      modifies this`abort, this`scans, session`st, session`num, session.file, findings, findings.file
      ensures Shows(m', at) && m' in reach && Listed(w) && abort == (old(abort) || tests.abort)
      ensures session.st == old(session.st).(disksFinished := true, scans := session.st.scans, selftests := tests.selftests)
      ensures DisksFinished(m.power.value, m'.power.value, tests)
    {
      m' := FinishScans(w, reach, m, at, tests);
      m' := CloseDiskTests(w, reach, m', at, tests);
      if tests.abort {
        m' := RequestAbort(w, reach, m', at);
      }
    }

    method FinishScans(ghost w: World, ghost reach: iset<Machine>, ghost m: Machine, ghost at: Place, tests: DiskTests)
      returns (ghost m': Machine)
      requires Valid(w, reach) && Shows(m, at) && m in reach && Finishing(m.power.value) && Listed(w)
      requires Answers(w.disks, tests)
      modifies this`scans, findings, findings.file
      ensures Shows(m', at) && m' in reach && Listed(w)
      ensures forall id | id in scans :: Accounted(scans[id])
      ensures ScansFinished(m.power.value, m'.power.value, tests)
    {
      FinishingBegins(m.power.value, tests);
      m' := FinishAll(w, reach, m, at, m.power.value, tests);
      FinishedIsAccounted(m.power.value, m'.power.value, tests);
    }

    method FinishAll(ghost w: World, ghost reach: iset<Machine>, ghost m: Machine, ghost at: Place, ghost p: Process,
                     tests: DiskTests)
      returns (ghost m': Machine)
      requires Valid(w, reach) && Shows(m, at) && m in reach && Finishing(p)
      requires ThreadsAnswer(p.scans, tests) && FinishedBut(scans.Keys, p, m.power.value, tests)
      modifies this`scans, findings, findings.file
      ensures Shows(m', at) && m' in reach && ScansFinished(p, m'.power.value, tests)
    {
      m' := m;
      var left := scans.Keys;
      while left != {}
        invariant left <= scans.Keys && Shows(m', at) && m' in reach
        invariant FinishedBut(left, p, m'.power.value, tests)
        decreases left
      {
        var id :| id in left;
        m' := FinishNext(w, reach, m', at, p, left, id, tests);
        left := left - {id};
      }
    }

    /** One more of the scans that are left. */
    method FinishNext(ghost w: World, ghost reach: iset<Machine>, ghost m: Machine, ghost at: Place, ghost p: Process,
                      ghost left: set<string>, id: string, tests: DiskTests)
      returns (ghost m': Machine)
      requires Valid(w, reach) && Shows(m, at) && m in reach && Finishing(p) && id in left && id in scans
      requires ThreadsAnswer(p.scans, tests) && FinishedBut(left, p, m.power.value, tests)
      modifies this`scans, findings, findings.file
      ensures Shows(m', at) && m' in reach && scans.Keys == old(scans).Keys
      ensures FinishedBut(left - {id}, p, m'.power.value, tests)
    {
      SameFinishing(p, m.power.value);
      m' := FinishScan(w, reach, m, at, id, tests.device(id), tests.rounds(id));
      OneMoreFinished(left, p, m.power.value, m'.power.value, tests, id);
    }

    /** One scan read to the stop request, reported, and accounted for. */
    method FinishScan(ghost w: World, ghost reach: iset<Machine>, ghost m: Machine, ghost at: Place, id: string,
                      device: S.Device, stop: nat)
      returns (ghost m': Machine)
      requires Valid(w, reach) && Shows(m, at) && m in reach && Finishing(m.power.value)
      requires id in scans && S.Honest(device, scans[id].size)
      modifies this`scans, findings, findings.file
      ensures Shows(m', at) && m' in reach && scans.Keys == old(scans).Keys && Accounted(scans[id])
      ensures scans == old(scans)[id := scans[id]] && scans[id].size == old(scans)[id].size
      ensures var p, q := m.power.value, m'.power.value;
        ScanTold(p.(scans := p.scans[id := S.Scanned(p.scans[id], device, 0, stop)]), q, id)
    {
      m' := RunScan(w, reach, m, at, id, device, stop);
      SameFinishing(m.power.value, m'.power.value);
      m' := ReportAndStop(w, reach, m', at, id);
    }

    method CloseDiskTests(ghost w: World, ghost reach: iset<Machine>, ghost m: Machine, ghost at: Place,
            tests: DiskTests)
      returns (ghost m': Machine)
      requires Valid(w, reach) && Shows(m, at) && m in reach && Finishing(m.power.value) && Listed(w)
      requires forall id | id in scans :: Accounted(scans[id])
      modifies session`st, session`num, session.file
      ensures Shows(m', at) && m' in reach && Listed(w)
      ensures session.st == old(session.st).(disksFinished := true, scans := session.st.scans, selftests := tests.selftests)
      ensures var p, q := m.power.value, m'.power.value;
        q == p.(st := Progressed(p.st, p.scans, tests.written).(disksFinished := true, selftests := tests.selftests))
    {
      m' := Stepped(w, reach, m, SaveProgress(tests.written));
      session.SaveEntries(Progressed(session.st, scans, tests.written).scans);
      SavedIs(m.disk, m'.power.value);
      ghost var before := m';
      m' := Stepped(w, reach, m', Action.FinishDisks(tests.selftests));
      session.FinishDisks(tests.selftests);
      SavedIs(before.disk, m'.power.value);
    }

    /** The workload of a phase that was just marked running, up to its new status. */
    method RunPhase(ghost w: World, ghost reach: iset<Machine>, ghost m: Machine, i: nat, body: Body,
                    disks: map<string, D.Device>, tests: DiskTests)
      returns (rebooting: bool, ghost m': Machine)
      requires Valid(w, reach) && Shows(m, InPhase(i)) && m in reach && i < |session.st.setup.plan|
      requires rebootRequest.None?
      requires Fitting(body.events) && disks == w.disks && Listed(w)
      modifies this`abort, this`rebootRequest, this`scans, session`st, session`num, session.file, findings
      modifies findings.file
      ensures m' in reach && Shows(m', if rebooting then Settled else Looping(i + 1)) && Listed(w)
      ensures session.st.setup == old(session.st.setup) && (!rebooting ==> rebootRequest.None?)
      ensures AfterPhase(disks, tests.write, m.power.value, m'.power.value, m.power.value.st.setup.plan[i], body, rebooting)
    {
      var raised;
      raised, m' := RunBody(w, reach, m, i, body, disks, tests);
      ghost var done := m'.power.value;
      rebooting, m' := FinishPhase(w, reach, m', i, raised);
      PhaseIsDone(w, tests.write, m.power.value, done, i, body);
    }

    /** What follows the workload: the error, or the turn of power cycling and the status. */
    method FinishPhase(ghost w: World, ghost reach: iset<Machine>, ghost m: Machine, i: nat, raised: bool)
      returns (rebooting: bool, ghost m': Machine)
      requires Valid(w, reach) && m in reach && i < |session.st.setup.plan| && rebootRequest.None? && Listed(w)
      requires Shows(m, if raised then Erred(i) else if session.st.setup.plan[i] == PowerCycle then InPhase(i) else Returned(i))
      modifies this`rebootRequest, session`st, session`num, session.file, findings, findings.file
      ensures m' in reach && Shows(m', if rebooting then Settled else Looping(i + 1)) && Listed(w)
      ensures session.st.setup == old(session.st.setup) && rebooting == rebootRequest.Some?
      ensures m'.power == Some(PhaseEnded(w, m.power.value, i, raised))
    {
      var name := session.st.setup.plan[i];
      rebooting := false;
      if raised {
        m' := SetAs(w, reach, m, MarkError, name, Errored, Looping(i + 1));
      } else {
        m' := m;
        if name == PowerCycle {
          m' := PowerCycleRun(w, reach, m, i);
        }
        rebooting, m' := EndPhase(w, reach, m', i);
      }
    }

    /**
     The phase's status after its workload returned: pending again for a planned reboot, else what its findings
     say.
     */
    method EndPhase(ghost w: World, ghost reach: iset<Machine>, ghost m: Machine, i: nat) returns (rebooting: bool,
            ghost m': Machine)
      requires Valid(w, reach) && Shows(m, Returned(i)) && m in reach && i < |session.st.setup.plan| && Listed(w)
      modifies session`st, session`num, session.file
      ensures m' in reach && Shows(m', if rebooting then Settled else Looping(i + 1)) && Listed(w)
      ensures session.st.setup == old(session.st.setup) && rebooting == rebootRequest.Some?
      ensures m'.power == Some(Ended(m.power.value, old(session.st.setup.plan[i]), i).mem)
    {
      var name := session.st.setup.plan[i];
      rebooting := rebootRequest.Some?;
      var s := if rebooting then Pending else EndStatus(findings.items, name, abort);
      m' := SetAs(w, reach, m, Settle, name, s, if rebooting then Settled else Looping(i + 1));
    }

    /** One round of the loop over the plan. */
    method RunEntry(ghost w: World, ghost reach: iset<Machine>, ghost m: Machine, i: nat, body: Body,
                    disks: map<string, D.Device>, tests: DiskTests)
      returns (leave: bool, rebooting: bool, ghost m': Machine)
      requires Valid(w, reach) && Shows(m, Looping(i)) && m in reach && i < |session.st.setup.plan|
      requires rebootRequest.None?
      requires Fitting(body.events) && disks == w.disks && Listed(w) && Answers(w.disks, tests)
      modifies this`abort, this`rebootRequest, this`scans, session`st, session`num, session.file, findings
      modifies findings.file
      ensures m' in reach && !(leave && rebooting) && Listed(w)
      ensures Shows(m', if rebooting then Settled else if leave then Closing else Looping(i + 1))
      ensures session.st.setup == old(session.st.setup) && (!rebooting ==> rebootRequest.None?)
      ensures AfterEntry(disks, tests, m.power.value, m'.power.value, old(session.st.setup.plan[i]), body, leave, rebooting)
    {
      var name := session.st.setup.plan[i];
      leave, rebooting, m' := false, false, m;
      if session.st.Phase(name) != Pending {
        m' := Stepped(w, reach, m, PassOver);
        return;
      }
      if abort {
        m' := Stepped(w, reach, m, Leave);
        leave := true;
        return;
      }
      if session.st.unexpected >= session.st.setup.maxUnexpected {
        m' := SetAs(w, reach, m, SkipExhausted, name, Skipped, Looping(i + 1));
        return;
      }
      leave, rebooting, m' := RunPending(w, reach, m, i, body, disks, tests);
    }

    method RunPending(ghost w: World, ghost reach: iset<Machine>, ghost m: Machine, i: nat, body: Body,
                      disks: map<string, D.Device>, tests: DiskTests)
      returns (leave: bool, rebooting: bool, ghost m': Machine)
      requires Valid(w, reach) && Shows(m, Looping(i)) && m in reach && rebootRequest.None? && MayRun(m.power.value)
      requires Fitting(body.events) && disks == w.disks && Listed(w) && Answers(w.disks, tests)
      modifies this`abort, this`rebootRequest, this`scans, session`st, session`num, session.file, findings
      modifies findings.file
      ensures m' in reach && !(leave && rebooting) && Listed(w)
      ensures Shows(m', if rebooting then Settled else if leave then Closing else Looping(i + 1))
      ensures session.st.setup == old(session.st.setup) && (!rebooting ==> rebootRequest.None?)
      ensures AfterEntry(disks, tests, m.power.value, m'.power.value, old(session.st.setup.plan[i]), body, leave, rebooting)
    {
      leave, rebooting, m' := false, false, m;
      if session.st.setup.plan[i] == PowerCycle && !session.st.disksFinished {
        leave, m' := FinishDisksFirst(w, reach, m, i, tests);
      }
      if !leave {
        rebooting, m' := StartPhase(w, reach, m', i, body, disks, tests);
      }
    }

    /** Before power cycling the disk tests are finished, unless the operator aborts meanwhile. */
    method FinishDisksFirst(ghost w: World, ghost reach: iset<Machine>, ghost m: Machine, ghost i: nat,
            tests: DiskTests)
      returns (leave: bool, ghost m': Machine)
      requires Valid(w, reach) && Shows(m, Looping(i)) && m in reach && !abort
      requires i < |session.st.setup.plan| && session.st.setup.plan[i] == PowerCycle
      requires session.st.Phase(PowerCycle) == Pending
      requires Finishing(m.power.value) && Listed(w) && Answers(w.disks, tests)
      modifies this`abort, this`scans, session`st, session`num, session.file, findings, findings.file
      ensures m' in reach && Listed(w) && Shows(m', if leave then Closing else Looping(i)) && leave == abort
      ensures session.st == old(session.st).(disksFinished := true, scans := session.st.scans, selftests := tests.selftests)
      ensures DisksFinished(m.power.value, m'.power.value.(at := m.power.value.at), tests)
    {
      m' := FinishDiskTests(w, reach, m, Looping(i), tests);
      leave := abort;
      if leave {
        m' := Stepped(w, reach, m', Leave);
      }
    }

    method StartPhase(ghost w: World, ghost reach: iset<Machine>, ghost m: Machine, i: nat, body: Body,
                      disks: map<string, D.Device>, tests: DiskTests)
      returns (rebooting: bool, ghost m': Machine)
      requires Valid(w, reach) && Shows(m, Looping(i)) && m in reach && rebootRequest.None?
      requires Enabled(m.power.value, Start)
      requires Fitting(body.events) && disks == w.disks && Listed(w)
      modifies this`abort, this`rebootRequest, this`scans, session`st, session`num, session.file, findings
      modifies findings.file
      ensures m' in reach && Shows(m', if rebooting then Settled else Looping(i + 1)) && Listed(w)
      ensures session.st.setup == old(session.st.setup) && (!rebooting ==> rebootRequest.None?)
      ensures AfterPhase(disks, tests.write, m.power.value, m'.power.value, old(session.st.setup.plan[i]), body, rebooting)
    {
      var name := session.st.setup.plan[i];
      m' := SetAs(w, reach, m, Start, name, Running, InPhase(i));
      rebooting, m' := RunPhase(w, reach, m', i, body, disks, tests);
      StartedPhase(disks, tests.write, m.power.value, m'.power.value, name, body, rebooting, InPhase(i));
    }

    /** `run_phases`: the plan in order, `bodies` being what the workloads will do. */
    method RunPhases(ghost w: World, ghost reach: iset<Machine>, ghost m: Machine, bodies: seq<Body>,
                     disks: map<string, D.Device>, tests: DiskTests)
      returns (rebooting: bool, ghost m': Machine)
      requires Valid(w, reach) && Shows(m, Looping(0)) && m in reach && rebootRequest.None?
      requires |bodies| == |session.st.setup.plan| && forall i | 0 <= i < |bodies| :: Fitting(bodies[i].events)
      requires disks == w.disks && Listed(w) && Answers(w.disks, tests)
      modifies this`abort, this`rebootRequest, this`scans, session`st, session`num, session.file, findings
      modifies findings.file
      ensures m' in reach && Shows(m', if rebooting then RebootIssued else Closing) && Listed(w)
      ensures var p, q := m.power.value, m'.power.value;
        NoBetter(p.items, q.items) && (p.abort ==> q.abort) && Carried(p.st, q.st, q.items, q.abort, rebooting, bodies)
      ensures var p, q, setup := m.power.value, m'.power.value, m.power.value.st.setup;
        Unhindered(setup, bodies) && GoesWell(setup, disks, tests.write, bodies, p, 0) ==>
          !rebooting && GoesWell(setup, disks, tests.write, bodies, q, |setup.plan|)
    {
      LoopBegins(disks, tests, m.power.value, bodies);
      var i, leave;
      i, leave, rebooting, m' := LoopOverPlan(w, reach, m, m.power.value, bodies, disks, tests);
      m' := LeaveLoop(w, reach, m', m.power.value, bodies, i, leave, rebooting, tests);
    }

    method LoopOverPlan(ghost w: World, ghost reach: iset<Machine>, ghost m: Machine, ghost p: Process, bodies: seq<Body>,
                        disks: map<string, D.Device>, tests: DiskTests)
      returns (i: nat, leave: bool, rebooting: bool, ghost m': Machine)
      requires Valid(w, reach) && Shows(m, Looping(0)) && m in reach && rebootRequest.None?
      requires |bodies| == |session.st.setup.plan| && forall i | 0 <= i < |bodies| :: Fitting(bodies[i].events)
      requires disks == w.disks && Listed(w) && Answers(w.disks, tests)
      requires p.st.setup == session.st.setup && InLoop(disks, tests, p, m.power.value, bodies, 0, false, false)
      modifies this`abort, this`rebootRequest, this`scans, session`st, session`num, session.file, findings
      modifies findings.file
      ensures m' in reach && Shows(m', if rebooting then Settled else if leave then Closing else Looping(i))
      ensures session.st.setup == p.st.setup && !(leave && rebooting) && (leave || rebooting || i == |bodies|) && Listed(w)
      ensures InLoop(disks, tests, p, m'.power.value, bodies, i, leave, rebooting)
    {
      i, leave, rebooting, m' := 0, false, false, m;
      while i < |session.st.setup.plan| && !leave && !rebooting
        invariant i <= |session.st.setup.plan| == |bodies| && !(leave && rebooting) && session.st.setup == p.st.setup
        invariant m' in reach && Shows(m', if rebooting then Settled else if leave then Closing else Looping(i))
        invariant !rebooting ==> rebootRequest.None?
        invariant Listed(w) && InLoop(disks, tests, p, m'.power.value, bodies, i, leave, rebooting)
        decreases |bodies| - i, !leave && !rebooting
      {
        leave, rebooting, m' := RunRound(w, reach, m', p, bodies, i, disks, tests);
        i := i + 1;
      }
    }

    /** A round of the loop, with what is known from before it. */
    method RunRound(ghost w: World, ghost reach: iset<Machine>, ghost m: Machine, ghost p: Process, bodies: seq<Body>, i: nat,
                    disks: map<string, D.Device>, tests: DiskTests)
      returns (leave: bool, rebooting: bool, ghost m': Machine)
      requires Valid(w, reach) && Shows(m, Looping(i)) && m in reach && rebootRequest.None?
      requires i < |session.st.setup.plan| == |bodies| && Fitting(bodies[i].events)
      requires disks == w.disks && Listed(w) && Answers(w.disks, tests)
      requires p.st.setup == session.st.setup && InLoop(disks, tests, p, m.power.value, bodies, i, false, false)
      modifies this`abort, this`rebootRequest, this`scans, session`st, session`num, session.file, findings
      modifies findings.file
      ensures m' in reach && !(leave && rebooting) && Listed(w)
      ensures Shows(m', if rebooting then Settled else if leave then Closing else Looping(i + 1))
      ensures session.st.setup == old(session.st.setup) && (!rebooting ==> rebootRequest.None?)
      ensures InLoop(disks, tests, p, m'.power.value, bodies, i + 1, leave, rebooting)
    {
      leave, rebooting, m' := RunEntry(w, reach, m, i, bodies[i], disks, tests);
      LoopTurns(disks, tests, p, m.power.value, m'.power.value, bodies, i, leave, rebooting);
    }

    /** After the loop: the machine is made to reboot, or the phases are over. */
    method LeaveLoop(ghost w: World, ghost reach: iset<Machine>, ghost m: Machine, ghost p: Process, ghost bodies: seq<Body>, i: nat,
                     leave: bool, rebooting: bool, ghost tests: DiskTests)
      returns (ghost m': Machine)
      requires Valid(w, reach) && m in reach && !(leave && rebooting) && |p.st.setup.plan| == |bodies|
      requires Shows(m, if rebooting then Settled else if leave then Closing else Looping(i))
      requires leave || rebooting || (i == |bodies| && i >= |session.st.setup.plan|)
      requires InLoop(w.disks, tests, p, m.power.value, bodies, i, leave, rebooting)
      modifies session`num, session.file, findings, findings.file
      ensures m' in reach && Shows(m', if rebooting then RebootIssued else Closing)
      ensures var q := m'.power.value;
        NoBetter(p.items, q.items) && (p.abort ==> q.abort) && Carried(p.st, q.st, q.items, q.abort, rebooting, bodies)
      ensures Unhindered(p.st.setup, bodies) && GoesWell(p.st.setup, w.disks, tests.write, bodies, p, 0) ==>
        !rebooting && GoesWell(p.st.setup, w.disks, tests.write, bodies, m'.power.value, |bodies|)
    {
      m' := m;
      if rebooting {
        m' := PerformReboot(w, reach, m);
      } else if !leave {
        m' := ReachEnd(w, reach, m, i);
      }
      LoopEnds(w.disks, tests, p, m.power.value, m'.power.value, bodies, i, leave, rebooting);
    }

    ghost method ReachEnd(w: World, reach: iset<Machine>, m: Machine, i: nat) returns (m': Machine)
      requires Valid(w, reach) && Shows(m, Looping(i)) && m in reach && i >= |session.st.setup.plan|
      ensures Shows(m', Closing) && m' in reach && m'.power == Some(m.power.value.(at := Closing))
    {
      m' := Stepped(w, reach, m, EndPlan);
    }

    /** Why this process began, as `Session.open` found out. */
    ghost function Why(): Cause
      reads session
    {
      if session.unexpectedReboot then UnexpectedReset(session.runningPhase)
      else if session.plannedReboot then PlannedReboot else NewSession
    }

    /** `record_incident` after a machine reset or in a new session. */
    method RecordIncident(ghost w: World, ghost reach: iset<Machine>, ghost m: Machine) returns (ghost m': Machine)
      requires Valid(w, reach) && Shows(m, Booted(Why())) && m in reach
      modifies session`st, session`num, session.file, findings, findings.file
      ensures Shows(m', Looping(0)) && m' in reach && session.st.setup == old(session.st.setup)
      ensures m'.power == Some(Marked(Incident(m.power.value, m.power.value.at.cause).mem, m.power.value.at.cause).mem)
    {
      if session.unexpectedReboot {
        m' := RecordReset(w, reach, m);
        return;
      }
      if session.plannedReboot {
        m' := AddAs(w, reach, m, NoteIncident, m.power.value, PowerCycleProgress, Note(INFO, None, false), Noted(Why()));
      } else {
        m' := Stepped(w, reach, m, NoteIncident);
      }
      m' := SaveAs(w, reach, m', MarkIncident, Looping(0));
    }

    /** An unannounced reset: its finding, and what becomes of the phase it interrupted. */
    method RecordReset(ghost w: World, ghost reach: iset<Machine>, ghost m: Machine) returns (ghost m': Machine)
      requires Valid(w, reach) && Shows(m, Booted(Why())) && m in reach && session.unexpectedReboot
      modifies session`st, session`num, session.file, findings, findings.file
      ensures Shows(m', Looping(0)) && m' in reach && session.st.setup == old(session.st.setup)
      ensures m'.power == Some(Marked(Incident(m.power.value, m.power.value.at.cause).mem, m.power.value.at.cause).mem)
    {
      var n := session.st.unexpected;
      m' := AddAs(w, reach, m, NoteIncident, m.power.value, UnexpectedReboot(n), Note(FAIL, session.runningPhase, false), Noted(Why()));
      if session.runningPhase.Some? {
        var name := session.runningPhase.value;
        var s := if name == Inventory then Pending else TestSession.Interrupted;
        m' := SetAs(w, reach, m', MarkIncident, name, s, Looping(0));
      } else {
        m' := SaveAs(w, reach, m', MarkIncident, Looping(0));
      }
    }

    /** `finalize` up to the point where the session is closed; `checks` are what its last polls and checks add. */
    method Finalize(ghost w: World, ghost reach: iset<Machine>, ghost m: Machine, tests: DiskTests, checks: seq<(Key,
            Event)>)
      returns (ghost m': Machine)
      requires Valid(w, reach) && Shows(m, Closing) && m in reach && Listed(w) && Answers(w.disks, tests) && Fitting(checks)
      modifies this`abort, this`scans, session`st, session`num, session.file, findings, findings.file
      ensures Shows(m', Finished) && m' in reach
      ensures Concludes(m.power.value, m'.power.value, tests, checks) && !m'.power.value.dirty
    {
      m' := m;
      if !session.st.disksFinished {
        m' := FinishDiskTests(w, reach, m, Closing, tests);
      }
      ghost var r := m'.power.value;
      m' := Observations(w, reach, m', Closing, checks);
      var aborted := abort;
      m' := FlushAs(w, reach, m', FlushFinal, Closed(aborted));
      m' := Finish(w, reach, m', aborted);
      assert Drained(m.power.value, r, tests) && Closes(r, m'.power.value, checks);
    }

    /** What `main` does between the incident report and the verdict. */
    method TestMachine(ghost w: World, ghost reach: iset<Machine>, ghost m: Machine, bodies: seq<Body>,
                       disks: map<string, D.Device>, tests: DiskTests, checks: seq<(Key, Event)>)
      returns (rebooting: bool, ghost m': Machine)
      requires Valid(w, reach) && Shows(m, Looping(0)) && m in reach && rebootRequest.None?
      requires |bodies| == |session.st.setup.plan| && forall i | 0 <= i < |bodies| :: Fitting(bodies[i].events)
      requires disks == w.disks && Listed(w) && Answers(w.disks, tests) && Fitting(checks)
      modifies this`abort, this`rebootRequest, this`scans, session`st, session`num, session.file, findings
      modifies findings.file
      ensures m' in reach && Shows(m', if rebooting then RebootIssued else Finished)
      ensures !rebooting ==> BootEnded(disks, tests, m.power.value, m'.power.value, bodies, checks) && !m'.power.value.dirty
      ensures var p, setup := m.power.value, m.power.value.st.setup;
        Unhindered(setup, bodies) && GoesWell(setup, disks, tests.write, bodies, p, 0) ==> !rebooting
    {
      m' := m;
      if session.st.Phase(Inventory) != Pending {
        m' := StartDiskTests(w, reach, m', Looping(0), disks, tests.write);
      }
      ghost var p := m'.power.value;
      rebooting, m' := RunPhases(w, reach, m', bodies, disks, tests);
      if !rebooting {
        ghost var mid := m'.power.value;
        m' := Finalize(w, reach, m', tests, checks);
        EndIsReached(disks, tests, p, mid, m'.power.value, bodies, checks);
        EndIsReachedFrom(disks, tests, m.power.value, p, m'.power.value, bodies, checks);
      }
    }

    method Finish(ghost w: World, ghost reach: iset<Machine>, ghost m: Machine,
            aborted: bool) returns (ghost m': Machine)
      requires Valid(w, reach) && Shows(m, Closed(aborted)) && m in reach
      modifies session`st, session`num, session.file
      ensures Shows(m', Finished) && m' in reach
      ensures m'.power == Some(m.power.value.(st := m.power.value.st.(status := if aborted then Cancelled else Complete), at := Finished))
    {
      m' := Stepped(w, reach, m, FinishSession);
      session.Finish(if aborted then Cancelled else Complete);
    }
  }

  /** A machine that is off, with these files on its storage. */
  ghost predicate Rests(m: Machine, session: RotatingFile<State>, findings: RotatingFile<Items>)
    reads session, findings
  {
    && m.power.None?
    && m.disk == Disk(Writer(session.store, Read(session.store).num), Writer(findings.store, Read(findings.store).num))
  }

  /** Files of the session to resume, or of a directory that was just made. */
  ghost predicate Openable(w: World, session: RotatingFile<State>, findings: RotatingFile<Items>, boot: nat)
    reads session, findings
  {
    match Read(session.store).best
    case None => session.store == Empty() && findings.store == Empty()
    case Some(st) => st.status == Active && !Resume(st, boot).restart && st.setup == w.setup
  }

  /** The process of a new session, or of one that is resumed. */
  function Opened(w: World, d: Disk, found: Option<State>, boot: nat, running: Option<PhaseName>): Process {
    if found.None? then Beginning(w, boot) else Resuming(d, found.value, boot, running)
  }

  /** Opening the session and loading its findings is the machine's boot. */
  method Open(ghost w: World, ghost reach: iset<Machine>, ghost down: Machine, setup: Setup,
              sessionFile: RotatingFile<State>, findingsFile: RotatingFile<Items>, boot: nat, persistent: bool)
    returns (ctx: Context, ghost m: Machine)
    requires ClosedUnderTurns(w, reach) && down in reach
    requires setup == w.setup && w.persistent == persistent && down.boots == boot
    requires (sessionFile as object) != findingsFile
    requires Rests(down, sessionFile, findingsFile) && Openable(w, sessionFile, findingsFile, boot)
    modifies sessionFile
    ensures ctx.session.file == sessionFile && ctx.findings.file == findingsFile
    ensures fresh(ctx) && fresh(ctx.session) && fresh(ctx.findings) && ctx.persistent == persistent
    ensures m in reach && ctx.Shows(m, Booted(ctx.Why())) && ctx.rebootRequest.None? && ctx.scans == map[]
    ensures ctx.session.st.setup == setup
    ensures m.power == Some(Opened(w, down.disk, old(Read(sessionFile.store).best), boot, ctx.session.runningPhase))
  {
    var best, num := sessionFile.ReadRotating();
    var found := if best.Some? then Some((best.value, num)) else None;
    var session := new Session.Open(setup, sessionFile, found, boot);
    var findings := new Findings(findingsFile);
    ctx := new Context(session, findings, persistent);
    ghost var running := if found.Some? then session.runningPhase else None;
    m := PoweredUp(w, reach, down, running);
    assert m.power == Some(Opened(w, down.disk, best, boot, session.runningPhase));
  }

  /** What opening does to the disk and puts into memory, case by case. */
  lemma {:induction false} OpeningReads(w: World, d: Disk, boot: nat, running: Option<PhaseName>)
    ensures var (d', f) := Opening(w, d, boot, running);
      match Read(d.session.store).best
      case None =>
        && Stored(d', f) == Disk(Writer(Write(Empty(), Fresh(w.setup, boot), 1), 1), Writer(Empty(), -1))
        && f.mem == Process(Fresh(w.setup, boot), map[], false, false, false, Booted(NewSession), map[], Unread)
      case Some(st) =>
        && Stored(d', f) == d.(session := Writer(Write(d.session.store, Resume(st, boot).st, d.session.num + 1), d.session.num + 1))
        && f.mem == Process(Resume(st, boot).st, Durable(d.findings.store), false, false, false,
                            Booted(if Resume(st, boot).planned then PlannedReboot else UnexpectedReset(running)), map[], Unread)
  {
  }

  /** The machine boots, and its disk and memory are then as the session and findings objects have them. */
  lemma {:induction false} PoweredUp(w: World, reach: iset<Machine>, down: Machine, running: Option<PhaseName>)
    returns (m: Machine)
    requires ClosedUnderTurns(w, reach) && down in reach && Legal(w, down, Boot(running))
    ensures m in reach
    ensures match Read(down.disk.session.store).best
      case None =>
        && m.disk == Disk(Writer(Write(Empty(), Fresh(w.setup, down.boots), 1), 1), Writer(Empty(), -1))
        && m.power == Some(Process(Fresh(w.setup, down.boots), map[], false, false, false, Booted(NewSession), map[], Unread))
      case Some(st) =>
        var r, d := Resume(st, down.boots), down.disk;
        && m.disk == d.(session := Writer(Write(d.session.store, r.st, d.session.num + 1), d.session.num + 1))
        && m.power == Some(Process(r.st, Durable(d.findings.store), false, false, false,
                                   Booted(if r.planned then PlannedReboot else UnexpectedReset(running)), map[], Unread))
  {
    OpeningReads(w, down.disk, down.boots, running);
    m := Take(w, down, Boot(running));
  }

  lemma {:induction false} RunsJoin(w: World, a: Machine, b: Machine, c: Machine)
    requires Runs(w, a, b) && Runs(w, b, c)
    ensures Runs(w, a, c)
  {
    var turns :| LegalRun(w, b, turns) && Run(w, b, turns) == c;
    RunsJoinTurns(w, a, b, turns);
  }

  lemma {:induction false} RunsJoinTurns(w: World, a: Machine, b: Machine, turns: seq<Turn>)
    requires Runs(w, a, b) && LegalRun(w, b, turns)
    ensures Runs(w, a, Run(w, b, turns))
  {
    if turns == [] {
    } else {
      var before := turns[..|turns| - 1];
      RunsJoinTurns(w, a, b, before);
      RunsFurther(w, a, Run(w, b, before), turns[|turns| - 1]);
    }
  }

  /** What a PASS promises of the session and of the disks, in terms of the machine it was given for. */
  ghost predicate PassedCleanly(w: World, m: Machine) {
    && Theorems.Saved(m).Some? && m.past.unplanned == 0
    && var st := Theorems.Saved(m).value;
       && st.status == Complete && st.unexpected == 0 && |st.boots| == 1 + w.setup.Target()
       && (forall p | p in w.setup.plan :: st.Phase(p) == Done)
       && (forall id, byte: nat | id in w.disks && byte < w.disks[id].size :: ByteIsRead(st, m.past.scans, id, byte))
  }

  /** The disk was tested; if only read, a scan of it has successfully read this byte. */
  ghost predicate ByteIsRead(st: State, scans: map<string, S.Scanner>, id: string, byte: nat) {
    && id in st.scans && st.scans[id].done
    && (st.scans[id].mode == D.ReadOnly ==>
          id in scans && exists e | e in scans[id].extents :: e.good && e.start <= byte < e.End())
  }

  lemma {:induction false} PassIsClean(w: World, m: Machine, incomplete: bool)
    requires w.setup.Valid() && Runs(w, Init(), m) && Theorems.Verdict(m, incomplete) == Pass
    ensures PassedCleanly(w, m)
  {
    var turns :| LegalRun(w, Init(), turns) && Run(w, Init(), turns) == m;
    Theorems.PassMeansClean(w, turns, incomplete);
    forall id, byte: nat | id in w.disks && byte < w.disks[id].size
      ensures ByteIsRead(Theorems.Saved(m).value, m.past.scans, id, byte)
    {
      Theorems.PassMeansDisksWereRead(w, turns, incomplete, id, byte);
    }
  }

  /** A machine that has nothing left to write has on disk what its process has in memory. */
  lemma {:induction false} FinishedIsOnDisk(w: World, m: Machine)
    requires w.setup.Valid() && Runs(w, Init(), m) && m.power.Some? && !m.power.value.dirty
    ensures Read(m.disk.session.store).best == Some(m.power.value.st)
    ensures Durable(m.disk.findings.store) == m.power.value.items
  {
    var turns :| LegalRun(w, Init(), turns) && Run(w, Init(), turns) == m;
    Invariant.RunKeeps(w, turns);
  }

  /** What the incident report leaves, seen as the start of the loop over the plan. */
  lemma {:induction false} LoopIsReady(w: World, d: Disk, found: Option<State>, boot: nat, running: Option<PhaseName>,
          p: Process, write: set<string>, bodies: seq<Body>)
    requires found.Some? ==> !Resume(found.value, boot).restart
    requires |bodies| == |w.setup.plan|
    requires var q := Opened(w, d, found, boot, running); p == Marked(Incident(q, q.at.cause).mem, q.at.cause).mem
    ensures p.st == LoopStart(w.setup, found, boot, running)
    ensures found.None? ==> GoesWell(w.setup, w.disks, write, bodies, p, 0)
  {
    LoopStartsThere(w, d, found, boot, running);
    GoesWellFromTheStart(w, boot, write, bodies);
  }

  /** The reported verdict, for what the boot found, showed and left. */
  lemma {:induction false} BootIsJudged(w: World, m: Machine, p: Process, found: Option<State>, boot: nat,
          running: Option<PhaseName>, v: FindingStore.Verdict, tests: DiskTests, bodies: seq<Body>, checks: seq<(Key, Event)>)
    requires w.setup.Valid() && Runs(w, Init(), m) && m.power.Some? && !m.power.value.dirty
    requires v == Theorems.Verdict(m, m.power.value.abort)
    requires p.st == LoopStart(w.setup, found, boot, running) && Answers(w.disks, tests)
    requires BootEnded(w.disks, tests, p, m.power.value, bodies, checks)
    ensures HeedsAll(v, LoopStart(w.setup, found, boot, running), m.power.value.st, m.power.value.abort, bodies, checks)
    ensures
      p.st.setup == w.setup && Unhindered(w.setup, bodies) && GoesWell(w.setup, w.disks, tests.write, bodies, p, 0) ==>
        DisksAreFine(w.disks, tests) ==> DecidedBy(v, EventsUpTo(bodies, |bodies|) + checks, w.setup.skip == [])
  {
    var q := m.power.value;
    FinishedIsOnDisk(w, m);
    Report.ResultJudges(m.disk.session.store, m.disk.findings.store, q.abort);
    VerdictHeedsAll(v, p.st, q.st, q.items, q.abort, bodies, checks);
  }

  /**
   One boot of the program, from opening the session to the report or the planned reboot,
   with nothing cutting it short: a run of the machine. So if the boots before were runs of
   it too, resets and all, the reported PASS means what it promises.
   */
  method RunBoot(ghost w: World, ghost down: Machine, setup: Setup, sessionFile: RotatingFile<State>,
                 findingsFile: RotatingFile<Items>, boot: nat, persistent: bool, bodies: seq<Body>,
                 disks: map<string, D.Device>, tests: DiskTests, checks: seq<(Key, Event)>)
    returns (ctx: Context, verdict: Option<FindingStore.Verdict>, ghost m: Machine)
    requires setup == w.setup && w.persistent == persistent && down.boots == boot && disks == w.disks
    requires (sessionFile as object) != findingsFile && |bodies| == |setup.plan| && Answers(w.disks, tests)
    requires Fitting(checks) && forall i | 0 <= i < |bodies| :: Fitting(bodies[i].events)
    requires Rests(down, sessionFile, findingsFile) && Openable(w, sessionFile, findingsFile, boot)
    modifies sessionFile, findingsFile
    ensures Runs(w, down, m) && ctx.Shows(m, if verdict.None? then RebootIssued else Finished)
    ensures verdict.Some? ==> verdict.value == Theorems.Verdict(m, ctx.abort)
    ensures w.setup.Valid() && Runs(w, Init(), down) && verdict == Some(Pass) ==> PassedCleanly(w, m)
    ensures w.setup.Valid() && Runs(w, Init(), down) && verdict.Some? ==>
      HeedsAll(verdict.value, LoopStart(setup, old(Read(sessionFile.store).best), boot, ctx.session.runningPhase),
               ctx.session.st, ctx.abort, bodies, checks)
    ensures w.setup.Valid() && Runs(w, Init(), down) && old(Read(sessionFile.store).best).None? && persistent ==>
      Unhindered(setup, bodies) && DisksAreFine(disks, tests) ==>
        verdict.Some? && DecidedBy(verdict.value, EventsUpTo(bodies, |bodies|) + checks, setup.skip == [])
  {
    ghost var found := Read(sessionFile.store).best;
    ghost var reach := Reachable(w, down);
    RunsNowhere(w, down);
    ReachableIsClosed(w, down);
    ctx, m := Open(w, reach, down, setup, sessionFile, findingsFile, boot, persistent);
    m := ctx.RecordIncident(w, reach, m);
    ghost var p, running := m.power.value, ctx.session.runningPhase;
    LoopIsReady(w, down.disk, found, boot, running, p, tests.write, bodies);
    var rebooting;
    rebooting, m := ctx.TestMachine(w, reach, m, bodies, disks, tests, checks);
    verdict := None;
    if !rebooting {
      var v := Report.Build(sessionFile, findingsFile, ctx.abort);
      verdict := Some(v);
      if w.setup.Valid() && Runs(w, Init(), down) {
        RunsJoin(w, Init(), down, m);
        if v == Pass {
          PassIsClean(w, m, ctx.abort);
        }
        BootIsJudged(w, m, p, found, boot, running, v, tests, bodies, checks);
      }
    }
  }
}
