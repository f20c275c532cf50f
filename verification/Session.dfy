/** The persisted test session of src/pccheck/session.py: opening, resuming and saving it. */
module TestSession {
  import opened Wrappers
  import opened Config
  import opened RotatingStore
  import D = DestructiveTests

  datatype Status = Pending | Running | Done | Warned | Failed | Errored | Interrupted | Skipped | Aborted

  datatype SessionStatus = Active | Complete | Cancelled

  /** What a session keeps from its first boot: the plan and the options it was started with. */
  datatype Setup = Setup(machine: nat, plan: seq<PhaseName>, skip: seq<PhaseName>, rebootCycles: int, maxUnexpected: int)
  {
    function Target(): nat {
      if rebootCycles < 0 then 0 else if rebootCycles > 50 then 50 else rebootCycles
    }

    ghost predicate Valid() {
      && WellFormed(plan)
      && (PowerCycle in plan <==> rebootCycles > 0 && PowerCycle !in skip)
      && maxUnexpected >= 1
    }
  }

  /**
   A boot is named by its kernel boot id; later boots have larger names. `scans` are the
   disk tests by disk identity; `selKnown` tells that the BMC log from before was read.
   */
  datatype State = State(
    setup: Setup, status: SessionStatus, boots: seq<nat>, unexpected: nat, planned: Option<nat>,
    cyclesDone: nat, phases: map<PhaseName, Status>, disksFinished: bool,
    scans: map<string, D.Entry>, selftests: seq<(string, bool)>, selKnown: bool)
  {
    function Phase(name: PhaseName): Status {
      if name in phases then phases[name] else Pending
    }

    function WithPhase(name: PhaseName, s: Status): State {
      this.(phases := phases[name := s])
    }
  }

  function Fresh(setup: Setup, boot: nat): State {
    State(setup, Active, [boot], 0, None, 0, map p | p in setup.plan :: Pending, false, map[], [], false)
  }

  datatype Resumption = Resumption(st: State, unexpected: bool, planned: bool, restart: bool)

  /** How the boot after `st` was saved is classified, and what becomes of the counters. */
  function Resume(st: State, boot: nat): Resumption {
    var popped := st.(planned := None);
    if st.boots != [] && st.boots[|st.boots| - 1] == boot then
      Resumption(popped, false, false, true)
    else if st.planned.Some? then
      Resumption(popped.(cyclesDone := st.planned.value, boots := st.boots + [boot]), false, true, false)
    else
      Resumption(popped.(unexpected := st.unexpected + 1, boots := st.boots + [boot]), true, false, false)
  }

  /**
   The boot that wrote the state itself is a restarted process, a marker announces a planned
   reboot, and anything else is an unexpected reset. Each is counted as that, the marker is
   taken away, and what the phases and the disk tests have is kept.
   */
  lemma {:induction false} ResumeTells(st: State, boot: nat)
    ensures var r := Resume(st, boot);
      && (r.restart <==> st.boots != [] && st.boots[|st.boots| - 1] == boot)
      && (r.planned <==> !r.restart && st.planned.Some?) && (r.unexpected <==> !r.restart && st.planned.None?)
      && r.st.planned.None?
      && r.st.unexpected == st.unexpected + (if r.unexpected then 1 else 0)
      && r.st.cyclesDone == (if r.planned then st.planned.value else st.cyclesDone)
      && r.st.boots == (if r.restart then st.boots else st.boots + [boot])
      && r.st.phases == st.phases && r.st.scans == st.scans && r.st.disksFinished == st.disksFinished
      && r.st.setup == st.setup && r.st.status == st.status && r.st.selftests == st.selftests
  {
  }

  /** The name is one a phase still carries as running; None when there is none. */
  predicate IsRunningPhase(st: State, name: Option<PhaseName>) {
    match name
    case Some(p) => p in st.phases && st.phases[p] == Running
    case None => forall p | p in st.phases :: st.phases[p] != Running
  }

  /** One try at writing the state inside `save`. */
  datatype Attempt = Written | NotSerialized | NoSpace

  class Session {
    var st: State
    var num: Counter
    const file: RotatingFile<State>
    var resumed: bool
    var unexpectedReboot: bool
    var orchestratorRestart: bool
    var plannedReboot: bool
    var runningPhase: Option<PhaseName>

    /** A session in a directory where nothing was saved yet, or one that was found unfinished. */
    constructor Open(setup: Setup, file: RotatingFile<State>, found: Option<(State, Counter)>, boot: nat)
      modifies file
      ensures this.file == file
      ensures match found
        case None =>
          && st == Fresh(setup, boot) && num == 1 && !resumed && !unexpectedReboot && !plannedReboot
          && file.store == Write(old(file.store), st, 1)
        case Some((before, n)) =>
          var r := Resume(before, boot);
          && st == r.st && num == n + 1 && file.store == Write(old(file.store), r.st, n + 1)
          && resumed && unexpectedReboot == r.unexpected && plannedReboot == r.planned
          && orchestratorRestart == r.restart && IsRunningPhase(before, runningPhase)
    {
      this.file := file;
      this.num := if found.Some? then found.value.1 else 0;
      this.st := if found.Some? then found.value.0 else Fresh(setup, boot);
      resumed, unexpectedReboot, orchestratorRestart, plannedReboot := false, false, false, false;
      runningPhase := None;
      new;
      if found.Some? {
        Classify(boot);
      }
      Save([Written]);
    }

    method Classify(boot: nat)
      modifies this`st, this`resumed, this`unexpectedReboot, this`orchestratorRestart, this`plannedReboot
      modifies this`runningPhase
      requires !unexpectedReboot && !orchestratorRestart && !plannedReboot
      ensures var r := Resume(old(st), boot);
        && st == r.st && resumed && unexpectedReboot == r.unexpected && plannedReboot == r.planned
        && orchestratorRestart == r.restart
      ensures IsRunningPhase(old(st), runningPhase)
    {
      resumed := true;
      var lastBoot := if st.boots == [] then None else Some(st.boots[|st.boots| - 1]);
      FindRunningPhase();
      var planned := st.planned;
      st := st.(planned := None);
      if lastBoot == Some(boot) {
        orchestratorRestart := true;
      } else if planned.Some? {
        plannedReboot := true;
        st := st.(cyclesDone := planned.value, boots := st.boots + [boot]);
      } else {
        unexpectedReboot := true;
        st := st.(unexpected := st.unexpected + 1, boots := st.boots + [boot]);
      }
    }

    method FindRunningPhase()
      modifies this`runningPhase
      ensures IsRunningPhase(st, runningPhase)
    {
      runningPhase := None;
      var names := st.phases.Keys;
      while names != {} && runningPhase.None?
        invariant names <= st.phases.Keys
        invariant runningPhase.None? ==> forall p | p in st.phases && p !in names :: st.phases[p] != Running
        invariant runningPhase.Some? ==> IsRunningPhase(st, runningPhase)
        decreases |names|
      {
        var p :| p in names;
        if st.phases[p] == Running {
          runningPhase := Some(p);
        }
        names := names - {p};
      }
    }

    /** Each attempt takes a number, whether or not it writes; the last decides what is stored. */
    method Save(attempts: seq<Attempt>)
      requires attempts != []
      requires |attempts| < 5 ==> attempts[|attempts| - 1] != NotSerialized
      modifies this`num, file
      ensures var tries := num - old(num);
        && 1 <= tries <= 5 && tries <= |attempts|
        && (forall k | 0 <= k < tries - 1 :: attempts[k] == NotSerialized)
        && (tries < 5 ==> attempts[tries - 1] != NotSerialized)
        && file.store == if attempts[tries - 1] == Written then Write(old(file.store), st, num) else old(file.store)
    {
      var i := 0;
      while i < 5
        invariant 0 <= i <= 5 && i <= |attempts|
        invariant num == old(num) + i && file.store == old(file.store)
        invariant forall k | 0 <= k < i :: attempts[k] == NotSerialized
      {
        num := num + 1;
        if attempts[i] == Written {
          file.WriteRotating(st, num);
          return;
        }
        if attempts[i] == NoSpace {
          return;
        }
        i := i + 1;
      }
    }

    /** A save whose first attempt writes. */
    method SaveWritten()
      modifies this`num, file
      ensures num == old(num) + 1 && file.store == Write(old(file.store), st, num)
    {
      Save([Written]);
    }

    method SetPhase(name: PhaseName, s: Status)
      modifies this`st, this`num, file
      ensures st == old(st).WithPhase(name, s)
      ensures num == old(num) + 1 && file.store == Write(old(file.store), st, num)
    {
      st := st.WithPhase(name, s);
      SaveWritten();
    }

    /** `start_scans` and `save_progress`, each followed by a save. */
    method SaveEntries(scans: map<string, D.Entry>)
      modifies this`st, this`num, file
      ensures st == old(st).(scans := scans)
      ensures num == old(num) + 1 && file.store == Write(old(file.store), st, num)
    {
      st := st.(scans := scans);
      SaveWritten();
    }

    method FinishDisks(selftests: seq<(string, bool)>)
      modifies this`st, this`num, file
      ensures st == old(st).(disksFinished := true, selftests := selftests)
      ensures num == old(num) + 1 && file.store == Write(old(file.store), st, num)
    {
      st := st.(disksFinished := true, selftests := selftests);
      SaveWritten();
    }

    method RequestReboot(cycle: nat)
      modifies this`st, this`num, file
      ensures st == old(st).(planned := Some(cycle))
      ensures num == old(num) + 1 && file.store == Write(old(file.store), st, num)
    {
      st := st.(planned := Some(cycle));
      SaveWritten();
    }

    method Finish(s: SessionStatus)
      modifies this`st, this`num, file
      ensures st == old(st).(status := s)
      ensures num == old(num) + 1 && file.store == Write(old(file.store), st, num)
    {
      st := st.(status := s);
      SaveWritten();
    }
  }

  // ---------- which session a boot resumes

  predicate Unfinished(store: Store<State>, machine: nat) {
    var r := Read(store).best;
    r.Some? && r.value.status == Active && r.value.setup.machine == machine
  }

  function Without(names: seq<string>, name: string): seq<string> {
    if names == [] then []
    else (if names[0] == name then [] else [names[0]]) + Without(names[1..], name)
  }

  /** The session the active pointer names, then every session directory, newest first. */
  function Candidates(pointer: Option<string>, listing: seq<string>): seq<string> {
    if pointer.None? then listing else [pointer.value] + Without(listing, pointer.value)
  }

  lemma {:induction false} WithoutKeepsOthers(names: seq<string>, name: string, other: string, at: nat)
    requires at < |names| && names[at] == other != name
    ensures exists k: nat | k <= at && k < |Without(names, name)| :: Without(names, name)[k] == other
  {
    var rest := Without(names[1..], name);
    if at == 0 {
      assert Without(names, name)[0] == other;
    } else {
      WithoutKeepsOthers(names[1..], name, other, at - 1);
      var k: nat :| k <= at - 1 && k < |rest| && rest[k] == other;
      if names[0] == name {
        assert Without(names, name)[k] == other;
      } else {
        assert Without(names, name)[k + 1] == other;
      }
    }
  }

  lemma {:induction false} WithoutKeepsOrder(names: seq<string>, name: string, k: nat)
    requires k <= |names|
    ensures Without(names[..k], name) <= Without(names, name)
  {
    if k == 0 {
    } else {
      WithoutKeepsOrder(names[1..], name, k - 1);
      assert names[..k][1..] == names[1..][..k - 1];
    }
  }

  lemma {:induction false} WithoutIsTheRest(names: seq<string>, name: string, x: string)
    ensures multiset(Without(names, name))[x] == if x == name then 0 else multiset(names)[x]
  {
    if names == [] {
    } else {
      WithoutIsTheRest(names[1..], name, x);
      assert names == [names[0]] + names[1..];
    }
  }

  /**
   The active session comes first, then every other directory as often as it
   is listed and in that order: those of a shorter listing begin those of a longer one.
   */
  lemma {:induction false} PointerComesFirst(pointer: Option<string>, listing: seq<string>, k: nat, x: string)
    requires k <= |listing|
    ensures var c := Candidates(pointer, listing);
      && Candidates(pointer, listing[..k]) <= c
      && (pointer.None? ==> c == listing)
      && (pointer.Some? ==> c != [] && c[0] == pointer.value)
      && multiset(c)[x] == if pointer == Some(x) then 1 else multiset(listing)[x]
  {
    if pointer.Some? {
      WithoutKeepsOrder(listing, pointer.value, k);
      WithoutIsTheRest(listing, pointer.value, x);
    }
  }

  method ListCandidates(pointer: Option<string>, listing: seq<string>) returns (c: seq<string>)
    ensures c == Candidates(pointer, listing)
  {
    c := if pointer.Some? then [pointer.value] else [];
    var i := 0;
    while i < |listing|
      invariant 0 <= i <= |listing|
      invariant pointer.Some? ==> c + Without(listing[i..], pointer.value) == Candidates(pointer, listing)
      invariant pointer.None? ==> c == listing[..i]
    {
      assert listing[i..][1..] == listing[i + 1..];
      if pointer != Some(listing[i]) {
        c := c + [listing[i]];
      }
      i := i + 1;
    }
    assert listing[..|listing|] == listing && Without(listing[|listing|..], "") == [];
  }

  /** A directory of this machine whose newest readable state says that the session goes on. */
  ghost predicate GoesOn(sessions: map<string, Store<State>>, name: string, machine: nat) {
    name in sessions &&
    match Read(sessions[name]).best
    case None => false
    case Some(st) => st.setup.machine == machine && st.status != Complete && st.status != Cancelled
  }

  /** The first of at most fifty candidates that is an unfinished session of this machine. */
  ghost predicate IsFirst(c: seq<string>, sessions: map<string, Store<State>>, machine: nat, k: nat) {
    && k < |c| && k < 50 && GoesOn(sessions, c[k], machine)
    && forall j | 0 <= j < k :: !GoesOn(sessions, c[j], machine)
  }

  method FindRunning(pointer: Option<string>, listing: seq<string>, sessions: map<string, Store<State>>, machine: nat)
    returns (found: Option<string>)
    requires forall name | name in listing :: name in sessions
    ensures var c := Candidates(pointer, listing);
      match found
      case Some(name) => exists k: nat :: IsFirst(c, sessions, machine, k) && c[k] == name
      case None => forall j | 0 <= j < |c| && j < 50 :: !GoesOn(sessions, c[j], machine)
  {
    var c := ListCandidates(pointer, listing);
    var i := 0;
    while i < |c| && i < 50
      invariant 0 <= i <= |c|
      invariant forall j | 0 <= j < i :: !GoesOn(sessions, c[j], machine)
    {
      if c[i] in sessions && Unfinished(sessions[c[i]], machine) {
        assert IsFirst(c, sessions, machine, i);
        return Some(c[i]);
      }
      i := i + 1;
    }
    return None;
  }

  /**
   A lost or wrong active pointer does not hide an interrupted session: each of the
   newest 49 directories is among the candidates that are looked at.
   */
  lemma {:induction false} LostPointerHidesNothing(pointer: Option<string>, listing: seq<string>, at: nat)
    requires at < |listing| && at < 49
    ensures exists k | 0 <= k < |Candidates(pointer, listing)| && k < 50 :: Candidates(pointer, listing)[k] == listing[at]
  {
    if pointer.Some? && pointer.value != listing[at] {
      WithoutKeepsOthers(listing, pointer.value, listing[at], at);
      var rest := Without(listing, pointer.value);
      var k: nat :| k <= at && k < |rest| && rest[k] == listing[at];
      assert Candidates(pointer, listing)[k + 1] == listing[at];
    } else {
      assert Candidates(pointer, listing)[if pointer.Some? then 0 else at] == listing[at];
    }
  }
}
