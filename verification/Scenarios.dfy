/** A concrete run into the state from which planned reboots do not go on. */
module Scenarios {
  import opened Wrappers
  import opened Config
  import opened FindingStore
  import opened TestSession
  import opened Orchestrator
  import opened Invariant
  import opened Theorems

  /** A run that ends with this process up and these findings on disk. */
  ghost predicate Reached(w: World, turns: seq<Turn>, p: Process, items: Items, boots: nat) {
    && LegalRun(w, Init(), turns)
    && var m := Run(w, Init(), turns);
       && Holds(w, m) && m.power == Some(p) && m.boots == boots
       && Durable(m.disk.findings.store) == items
  }

  /** A run that ends with the machine off, this session and these findings on disk. */
  ghost predicate Left(w: World, turns: seq<Turn>, st: State, items: Items, boots: nat) {
    && LegalRun(w, Init(), turns)
    && var m := Run(w, Init(), turns);
       && Holds(w, m) && m.power.None? && m.boots == boots
       && Theorems.Saved(m) == Some(st) && Durable(m.disk.findings.store) == items
  }

  lemma {:induction false} OneMore(w: World, turns: seq<Turn>, t: Turn)
    requires LegalRun(w, Init(), turns) && Holds(w, Run(w, Init(), turns)) && Legal(w, Run(w, Init(), turns), t)
    ensures LegalRun(w, Init(), turns + [t])
    ensures Run(w, Init(), turns + [t]) == Take(w, Run(w, Init(), turns), t)
    ensures Holds(w, Run(w, Init(), turns + [t]))
  {
    var longer := turns + [t];
    assert longer[..|longer| - 1] == turns && longer[|longer| - 1] == t;
    TurnKeeps(w, Run(w, Init(), turns), t);
  }

  lemma {:induction false} Do(w: World, turns: seq<Turn>, p: Process, items: Items, boots: nat, a: Action)
    requires Reached(w, turns, p, items, boots) && Enabled(p, a) && Allowed(w, p, a)
    ensures var f := After(w, p, a);
      Reached(w, turns + [Act(a)], f.mem, if f.write == FlushFindings then f.mem.items else items, boots)
  {
    OneMore(w, turns, Act(a));
    FlushStores(Run(w, Init(), turns).disk, After(w, p, a));
  }

  lemma {:induction false} PowerUp(w: World)
    requires w.setup.Valid()
    ensures Reached(w, [Boot(None)], Beginning(w, 0), map[], 1)
  {
    InitHolds(w);
    OneMore(w, [], Boot(None));
    assert [] + [Boot(None)] == [Boot(None)];
    FlushStores(NewDirectory(), Effect(Beginning(w, 0), SaveState));
  }

  lemma {:induction false} PowerCut(w: World, turns: seq<Turn>, p: Process, items: Items, boots: nat)
    requires Reached(w, turns, p, items, boots) && w.persistent
    ensures Left(w, turns + [Reset], p.st, items, boots)
  {
    OneMore(w, turns, Reset);
  }

  lemma {:induction false} PowerUpAgain(w: World, turns: seq<Turn>, st: State, items: Items, boots: nat,
          running: Option<PhaseName>)
    requires Left(w, turns, st, items, boots) && st.status == Active && IsRunningPhase(st, running)
    ensures var r := Resume(st, boots);
      Reached(w, turns + [Boot(running)],
              Process(r.st, items, false, false, false, Booted(if r.planned then PlannedReboot else UnexpectedReset(running)), map[], Unread),
              items, boots + 1)
  {
    var m := Run(w, Init(), turns);
    OneMore(w, turns, Boot(running));
    FlushStores(m.disk, Effect(Resuming(m.disk, st, boots, running), SaveState));
  }

  // ---------- a session of inventory and one reboot

  const SKIPPED := [Cpu, Memory, Mprime, YCruncher, Transient, Idle, Combined]
  const SETUP := Setup(0, [Inventory, PowerCycle], SKIPPED, 1, 3)
  const WORLD := World(SETUP, true, map[])

  /** This is the plan of a session that skips the stress phases. */
  lemma {:induction false} SetupIsPlanned(total: real)
    requires total >= 0.0
    ensures SETUP.Valid()
    ensures SETUP.plan == Names(PlanFor(total, (set p | p in SETUP.skip), SETUP.rebootCycles))
  {
    var skip := set p | p in SETUP.skip;
    forall i | 0 <= i < |PHASE_WEIGHTS| ensures PHASE_WEIGHTS[i].0 in skip {
      assert SKIPPED[i] == PHASE_WEIGHTS[i].0 && SKIPPED[i] in SKIPPED;
    }
    NothingIsStressed(total, skip, |PHASE_WEIGHTS|);
    assert PowerCycle !in skip;
    assert PlanFor(total, skip, 1) == [Planned(Inventory, 0), Planned(PowerCycle, 0)];
    assert PowerCycle == SETUP.plan[1];
  }

  lemma {:induction false} NothingIsStressed(total: real, skip: set<PhaseName>, n: nat)
    requires total >= 0.0 && n <= |PHASE_WEIGHTS| && forall i | 0 <= i < n :: PHASE_WEIGHTS[i].0 in skip
    ensures StressPlan(total, skip, n) == []
  {
    if n == 0 {
    } else {
      NothingIsStressed(total, skip, n - 1);
    }
  }

  /** A process, what is on disk beside it, and the action that led here. */
  datatype Frame = Frame(p: Process, items: Items, via: Action)

  predicate Leads(w: World, f: Frame, g: Frame) {
    && Enabled(f.p, g.via) && Allowed(w, f.p, g.via)
    && After(w, f.p, g.via).mem == g.p
    && g.items == if After(w, f.p, g.via).write == FlushFindings then g.p.items else f.items
  }

  predicate Film(w: World, frames: seq<Frame>) {
    forall i | 0 < i < |frames| :: Leads(w, frames[i - 1], frames[i])
  }

  lemma {:induction false} Play(w: World, turns: seq<Turn>, frames: seq<Frame>, boots: nat) returns (t: seq<Turn>)
    requires frames != [] && Film(w, frames) && Reached(w, turns, frames[0].p, frames[0].items, boots)
    ensures var last := frames[|frames| - 1]; Reached(w, t, last.p, last.items, boots)
    decreases |frames|
  {
    if |frames| == 1 {
      t := turns;
    } else {
      var f, g := frames[0], frames[1];
      assert Leads(w, f, g);
      Do(w, turns, f.p, f.items, boots, g.via);
      assert forall i | 0 < i < |frames[1..]| :: frames[1..][i - 1] == frames[i] && frames[1..][i] == frames[i + 1];
      t := Play(w, turns + [Act(g.via)], frames[1..], boots);
    }
  }

  function St(planned: Option<nat>, inventory: Status, power: Status, finished: bool): State {
    State(SETUP, Active, [0], 0, planned, 0, map[Inventory := inventory, PowerCycle := power], finished, map[], [], false)
  }

  function Task(st: State, rebooting: bool, at: Place): Process {
    Process(st, map[], false, false, rebooting, at, map[], Unread)
  }

  /** The first boot up to the save of the marker. */
  function FirstBoot(): seq<Frame> {
    [Frame(Task(St(None, Pending, Pending, false), false, Booted(NewSession)), map[], RequestAbort),
     Frame(Task(St(None, Pending, Pending, false), false, Noted(NewSession)), map[], NoteIncident),
     Frame(Task(St(None, Pending, Pending, false), false, Looping(0)), map[], MarkIncident),
     Frame(Task(St(None, Running, Pending, false), false, InPhase(0)), map[], Start),
     Frame(Task(St(None, Running, Pending, false), false, Returned(0)), map[], BodyReturns),
     Frame(Task(St(None, Done, Pending, false), false, Looping(1)), map[], Settle),
     Frame(Task(St(None, Done, Pending, true), false, Looping(1)), map[], Action.FinishDisks([])),
     Frame(Task(St(None, Done, Running, true), false, InPhase(1)), map[], Start),
     Frame(Task(St(Some(1), Done, Running, true), true, Returned(1)), map[], PowerCycleTurn)]
  }

  lemma {:induction false} Restatus(a: State, name: PhaseName, s: Status, inventory: Status, power: Status)
    requires a == St(a.planned, a.Phase(Inventory), a.Phase(PowerCycle), a.disksFinished)
    requires name == Inventory ==> inventory == s && power == a.Phase(PowerCycle)
    requires name == PowerCycle ==> power == s && inventory == a.Phase(Inventory)
    requires name == Inventory || name == PowerCycle
    ensures a.WithPhase(name, s) == St(a.planned, inventory, power, a.disksFinished)
  {
  }

  lemma {:induction false} FirstBootBegins(i: nat)
    requires 0 < i <= 3
    ensures Leads(WORLD, FirstBoot()[i - 1], FirstBoot()[i])
  {
    if i == 3 {
      Restatus(FirstBoot()[2].p.st, Inventory, Running, Running, Pending);
    }
  }

  lemma {:induction false} FirstBootSettles(i: nat)
    requires 3 < i <= 5
    ensures Leads(WORLD, FirstBoot()[i - 1], FirstBoot()[i])
  {
    if i == 5 {
      Restatus(FirstBoot()[4].p.st, Inventory, Done, Done, Pending);
    }
  }

  lemma {:induction false} FirstBootFinishesDisks()
    ensures Leads(WORLD, FirstBoot()[5], FirstBoot()[6])
  {
  }

  lemma {:induction false} FirstBootCycles()
    ensures Leads(WORLD, FirstBoot()[6], FirstBoot()[7])
  {
    Restatus(FirstBoot()[6].p.st, PowerCycle, Running, Done, Running);
  }

  lemma {:induction false} FirstBootRequests()
    ensures Leads(WORLD, FirstBoot()[7], FirstBoot()[8])
  {
  }

  lemma {:induction false} FirstBootPlays(i: nat)
    requires 0 < i <= 8
    ensures Leads(WORLD, FirstBoot()[i - 1], FirstBoot()[i])
  {
    if i <= 3 {
      FirstBootBegins(i);
    } else if i <= 5 {
      FirstBootSettles(i);
    } else if i == 6 {
      FirstBootFinishesDisks();
    } else if i == 7 {
      FirstBootCycles();
    } else {
      FirstBootRequests();
    }
  }

  lemma {:induction false} TearsTheRequest() returns (t: seq<Turn>)
    ensures Left(WORLD, t, St(Some(1), Done, Running, true), map[], 1)
  {
    SetupIsPlanned(0.0);
    PowerUp(WORLD);
    var f := FirstBoot();
    assert Fresh(SETUP, 0).phases == map[Inventory := Pending, PowerCycle := Pending];
    assert f[0].p == Beginning(WORLD, 0);
    forall i | 0 < i < |f| ensures Leads(WORLD, f[i - 1], f[i]) {
      FirstBootPlays(i);
    }
    t := Play(WORLD, [Boot(None)], f, 1);
    PowerCut(WORLD, t, f[8].p, map[], 1);
    t := t + [Reset];
  }

  /**
   A reset between the two saves of a reboot request does happen in a session that
   `build_plan` returns: the next boot is taken for the planned one, no reset is counted,
   and the power cycle phase is found running.
   */
  lemma {:induction false} RebootRequestCanTear()
    ensures exists turns ::
      && LegalRun(WORLD, Init(), turns)
      && var m := Run(WORLD, Init(), turns);
         && m.power.Some? && m.power.value.at == Booted(PlannedReboot)
         && m.power.value.st.Phase(PowerCycle) == Running
         && m.power.value.st.cyclesDone == 1 && m.past.unplanned == 0
  {
    var st := St(Some(1), Done, Running, true);
    var t := TearsTheRequest();
    PowerUpAgain(WORLD, t, st, map[], 1, Some(PowerCycle));
    var turns := t + [Boot(Some(PowerCycle))];
    var m := Run(WORLD, Init(), turns);
    assert m.power.value.st == Resume(st, 1).st;
  }
}
