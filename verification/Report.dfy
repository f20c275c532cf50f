/** Coverage gaps and the final verdict of src/pccheck/report.py, from re-read durable state. */
module Report {
  import opened Wrappers
  import opened Config
  import opened RotatingStore
  import opened FindingStore
  import opened TestSession

  datatype Gap =
    | IncompleteFinding(title: string) | NotCompleted | NoPlan | NotTested(name: PhaseName, status: Status)
    | Omitted(name: PhaseName) | ScanGap(disk: string) | SelftestGap(device: string)

  predicate Tested(s: Status) {
    s == Done || s == Warned || s == Failed
  }

  /** Every required piece of evidence is there. */
  predicate Covered(st: State, items: Items) {
    && st.status == Complete
    && st.setup.plan != [] && st.setup.skip == []
    && (forall p | p in st.setup.plan :: Tested(st.Phase(p)))
    && (forall id | id in st.scans :: st.scans[id].done)
    && (forall t | t in st.selftests :: t.1)
    && !AnyIncomplete(items)
  }

  /** The gaps of a state and its findings; an unreadable state is neither complete nor planned. */
  ghost predicate IsGap(state: Option<State>, items: Items, g: Gap) {
    match g
    case IncompleteFinding(title) => exists k | k in items :: items[k].incomplete && items[k].title == title
    case NotCompleted => state.None? || state.value.status != Complete
    case NoPlan => state.None? || state.value.setup.plan == []
    case NotTested(name, s) =>
      && state.Some? && name in state.value.setup.plan && s == state.value.Phase(name)
      && s != Done && s != Warned && s != Failed
    case Omitted(name) => state.Some? && name in state.value.setup.skip
    case ScanGap(disk) => state.Some? && disk in state.value.scans && !state.value.scans[disk].done
    case SelftestGap(device) => state.Some? && (device, false) in state.value.selftests
  }

  method Append(gaps: seq<Gap>, g: Gap) returns (r: seq<Gap>)
    requires NoDuplicates(gaps)
    ensures NoDuplicates(r)
    ensures forall x :: x in r <==> x in gaps || x == g
  {
    r := if g in gaps then gaps else gaps + [g];
  }

  /** Lists every gap once. */
  method CoverageGaps(state: Option<State>, items: Items) returns (gaps: seq<Gap>)
    ensures NoDuplicates(gaps)
    ensures forall g :: g in gaps <==> IsGap(state, items, g)
  {
    gaps := [];
    var keys := items.Keys;
    while keys != {}
      invariant keys <= items.Keys && NoDuplicates(gaps)
      invariant forall g :: g in gaps <==>
        g.IncompleteFinding? && exists k | k in items && k !in keys :: items[k].incomplete && items[k].title == g.title
      decreases |keys|
    {
      var k :| k in keys;
      if items[k].incomplete {
        gaps := Append(gaps, IncompleteFinding(items[k].title));
      }
      keys := keys - {k};
    }
    assert forall g :: g in gaps <==> g.IncompleteFinding? && IsGap(state, items, g);
    if state.None? || state.value.status != Complete {
      gaps := Append(gaps, NotCompleted);
    }
    if state.None? || state.value.setup.plan == [] {
      gaps := Append(gaps, NoPlan);
    }
    if state.Some? {
      gaps := StateGaps(state.value, gaps);
    }
  }

  /** The gaps that only a readable state can show, added to those already found. */
  method StateGaps(st: State, before: seq<Gap>) returns (gaps: seq<Gap>)
    requires NoDuplicates(before)
    ensures NoDuplicates(gaps)
    ensures forall g :: g in gaps <==> g in before || OnlyFromState(st, g)
  {
    gaps := before;
    var plan, skip, scans, selftests := st.setup.plan, st.setup.skip, st.scans, st.selftests;
    for i := 0 to |plan|
      invariant NoDuplicates(gaps)
      invariant forall g ::
        g in gaps <==>
        (g in before || (g.NotTested? && g.name in plan[..i] && g.status == st.Phase(g.name) && !Tested(g.status)))
    {
      if !Tested(st.Phase(plan[i])) {
        gaps := Append(gaps, NotTested(plan[i], st.Phase(plan[i])));
      }
    }
    ghost var phases := gaps;
    for i := 0 to |skip|
      invariant NoDuplicates(gaps)
      invariant forall g :: g in gaps <==> g in phases || (g.Omitted? && g.name in skip[..i])
    {
      gaps := Append(gaps, Omitted(skip[i]));
    }
    ghost var omitted := gaps;
    var left := scans.Keys;
    while left != {}
      invariant left <= scans.Keys && NoDuplicates(gaps)
      invariant forall g :: g in gaps <==>
        g in omitted || (g.ScanGap? && g.disk in scans && g.disk !in left && !scans[g.disk].done)
      decreases |left|
    {
      var id :| id in left;
      if !scans[id].done {
        gaps := Append(gaps, ScanGap(id));
      }
      left := left - {id};
    }
    ghost var disks := gaps;
    for i := 0 to |selftests|
      invariant NoDuplicates(gaps)
      invariant forall g :: g in gaps <==> g in disks || (g.SelftestGap? && (g.device, false) in selftests[..i])
    {
      if !selftests[i].1 {
        gaps := Append(gaps, SelftestGap(selftests[i].0));
      }
    }
  }

  ghost predicate OnlyFromState(st: State, g: Gap) {
    (g.NotTested? || g.Omitted? || g.ScanGap? || g.SelftestGap?) && IsGap(Some(st), map[], g)
  }

  lemma {:induction false} CoveredIffNoGap(state: Option<State>, items: Items)
    ensures state.Some? && Covered(state.value, items) <==> forall g :: !IsGap(state, items, g)
  {
    if state.None? {
      assert IsGap(state, items, NotCompleted);
    } else if !Covered(state.value, items) {
      var st := state.value;
      var g :=
        if st.status != Complete then NotCompleted
        else if st.setup.plan == [] then NoPlan
        else if st.setup.skip != [] then Omitted(st.setup.skip[0])
        else if AnyIncomplete(items) then
          var k :| k in items && items[k].incomplete; IncompleteFinding(items[k].title)
        else if !forall p | p in st.setup.plan :: Tested(st.Phase(p)) then
          var p :| p in st.setup.plan && !Tested(st.Phase(p)); NotTested(p, st.Phase(p))
        else if !forall id | id in st.scans :: st.scans[id].done then
          var id :| id in st.scans && !st.scans[id].done; ScanGap(id)
        else
          var t :| t in st.selftests && !t.1; SelftestGap(t.0);
      assert IsGap(state, items, g);
    }
  }

  /** The verdict of a session directory. */
  function Result(session: Store<State>, findings: Store<Items>, incomplete: bool): Verdict {
    var state, items := Read(session).best, Durable(findings);
    VerdictOf(items, incomplete || state.None? || !Covered(state.value, items))
  }

  /** What each verdict says of the re-read state and findings. */
  ghost predicate Judges(v: Verdict, state: Option<State>, items: Items, incomplete: bool) {
    var sound := !incomplete && (forall k | k in items :: !items[k].incomplete) && forall g :: !IsGap(state, items, g);
    && (v == Fail <==> exists k | k in items :: items[k].severity == FAIL)
    && (v == Pass <==> sound && forall k | k in items :: items[k].severity == INFO)
    && (v == PassWithWarnings <==>
          && sound && (forall k | k in items :: items[k].severity != FAIL)
          && exists k | k in items :: items[k].severity == WARN)
  }

  lemma {:induction false} ResultJudges(session: Store<State>, findings: Store<Items>, incomplete: bool)
    ensures Judges(Result(session, findings, incomplete), Read(session).best, Durable(findings), incomplete)
  {
    var state, items := Read(session).best, Durable(findings);
    CoveredIffNoGap(state, items);
    assert AnyIncomplete(items) <==> exists k | k in items :: items[k].incomplete;
    assert forall k | k in items :: items[k].severity == FAIL || items[k].severity == WARN || items[k].severity == INFO;
  }

  method Build(session: RotatingFile<State>, findings: RotatingFile<Items>, incomplete: bool) returns (v: Verdict)
    ensures v == Result(session.store, findings.store, incomplete)
    ensures Judges(v, Read(session.store).best, Durable(findings.store), incomplete)
  {
    ResultJudges(session.store, findings.store, incomplete);
    var state, _ := session.ReadRotating();
    var saved, _ := findings.ReadRotating();
    var items := if saved.Some? then saved.value else map[];
    var gaps := CoverageGaps(state, items);
    CoveredIffNoGap(state, items);
    if gaps == [] {
      v := VerdictOf(items, incomplete);
    } else {
      assert IsGap(state, items, gaps[0]);
      v := VerdictOf(items, true);
    }
  }
}
