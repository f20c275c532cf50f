/**
 The y-cruncher evidence of src/pccheck/ycruncher.py and the decision of
 src/pccheck/phases.py: one capped pass over the output, then one of three findings.
 */
module YCruncher {
  import opened Wrappers
  import opened FindingStore

  const TESTS := ["SFTv4", "SNT", "SVT", "FFTv4", "N63", "VT3"]

  function Alias(tag: string): string {
    if tag == "NTT63" then "N63" else if tag == "VSTv3" then "VT3" else tag
  }

  /** Memory given to a core on a node; a zero amount is no evidence. */
  datatype Allocation = Allocation(core: nat, amount: real, node: nat)

  /**
   A stripped line and what the patterns find in it: a passed test, an allocation, a fault,
   a complaint, the harmless setting of that name, the version and the end marker.
   */
  datatype Line = Line(
    text: string, passed: Option<string>, allocation: Option<Allocation>,
    fault: bool, complaint: bool, stopOnErrorSetting: bool, version: bool, marker: bool)

  const MAX_LINES := 25
  const MAX_TAIL := 12
  const MAX_TEXT := 500

  datatype Evidence = Evidence(
    version: string, passed: map<string, nat>, cores: set<nat>, nodes: set<nat>, finished: bool,
    faults: seq<string>, errors: seq<string>, tail: seq<string>)

  function Cropped(text: string): string {
    if |text| <= MAX_TEXT then text else text[..MAX_TEXT]
  }

  predicate IsError(l: Line) {
    l.complaint && !l.stopOnErrorSetting
  }

  // ---------- what the output shows, without any cap

  function NonBlank(lines: seq<Line>): seq<Line> {
    if lines == [] then []
    else NonBlank(lines[..|lines| - 1]) + if lines[|lines| - 1].text != "" then [lines[|lines| - 1]] else []
  }

  predicate Passes(l: Line, tag: string) {
    l.passed.Some? && Alias(l.passed.value) == tag
  }

  predicate Allocates(l: Line) {
    l.allocation.Some? && l.allocation.value.amount > 0.0
  }

  /** How often a test passed. */
  function Passed(lines: seq<Line>, tag: string): nat {
    if lines == [] then 0
    else Passed(lines[..|lines| - 1], tag) + if Passes(lines[|lines| - 1], tag) then 1 else 0
  }

  function Cores(lines: seq<Line>): set<nat> {
    set l | l in lines && Allocates(l) :: l.allocation.value.core
  }

  function Nodes(lines: seq<Line>): set<nat> {
    set l | l in lines && Allocates(l) :: l.allocation.value.node
  }

  function Faults(lines: seq<Line>): seq<string> {
    if lines == [] then []
    else Faults(lines[..|lines| - 1]) + if lines[|lines| - 1].fault then [Cropped(lines[|lines| - 1].text)] else []
  }

  /** A fault is listed as an error only once the fault list is full. */
  function Errors(lines: seq<Line>): seq<string> {
    if lines == [] then []
    else
      var front, l := lines[..|lines| - 1], lines[|lines| - 1];
      Errors(front) + if IsError(l) && (l.fault ==> |Faults(front)| >= MAX_LINES) then [Cropped(l.text)] else []
  }

  function Texts(lines: seq<Line>): seq<string> {
    if lines == [] then [] else Texts(lines[..|lines| - 1]) + [Cropped(lines[|lines| - 1].text)]
  }

  function Version(lines: seq<Line>): string {
    if lines == [] then ""
    else if lines[|lines| - 1].version then lines[|lines| - 1].text
    else Version(lines[..|lines| - 1])
  }

  function FirstOf(s: seq<string>, n: nat): seq<string> {
    if |s| <= n then s else s[..n]
  }

  function LastOf(s: seq<string>, n: nat): seq<string> {
    if |s| <= n then s else s[|s| - n..]
  }

  ghost predicate Tallies(passed: map<string, nat>, seen: seq<Line>) {
    forall tag :: (if tag in passed then passed[tag] else 0) == Passed(seen, tag)
  }

  ghost predicate Lists(faults: seq<string>, errors: seq<string>, seen: seq<Line>) {
    faults == FirstOf(Faults(seen), MAX_LINES) && errors == FirstOf(Errors(seen), MAX_LINES)
  }

  /** The pass's result `e` tells of `seen`, the lines that were not blank, what the caps leave of it. */
  ghost predicate Describes(e: Evidence, seen: seq<Line>) {
    && Tallies(e.passed, seen)
    && e.cores == Cores(seen) && e.nodes == Nodes(seen)
    && (e.finished <==> exists l | l in seen :: l.marker)
    && e.version == Version(seen)
    && Lists(e.faults, e.errors, seen)
    && e.tail == LastOf(Texts(seen), MAX_TAIL)
  }

  method CountPass(passed: map<string, nat>, l: Line, ghost seen: seq<Line>) returns (passed': map<string, nat>)
    requires Tallies(passed, seen)
    ensures Tallies(passed', seen + [l])
  {
    passed' := passed;
    if l.passed.Some? {
      var tag := Alias(l.passed.value);
      passed' := passed[tag := (if tag in passed then passed[tag] else 0) + 1];
    }
    assert (seen + [l])[..|seen|] == seen;
  }

  method NoteAllocation(cores: set<nat>, nodes: set<nat>, l: Line, ghost seen: seq<Line>)
    returns (cores': set<nat>, nodes': set<nat>)
    requires cores == Cores(seen) && nodes == Nodes(seen)
    ensures cores' == Cores(seen + [l]) && nodes' == Nodes(seen + [l])
  {
    cores', nodes' := cores, nodes;
    if l.allocation.Some? && l.allocation.value.amount > 0.0 {
      cores', nodes' := cores + {l.allocation.value.core}, nodes + {l.allocation.value.node};
    }
  }

  method ListProblem(faults: seq<string>, errors: seq<string>, l: Line, ghost seen: seq<Line>)
    returns (faults': seq<string>, errors': seq<string>)
    requires Lists(faults, errors, seen)
    ensures Lists(faults', errors', seen + [l])
  {
    faults', errors' := faults, errors;
    if l.fault && |faults| < MAX_LINES {
      faults' := faults + [Cropped(l.text)];
    } else if l.complaint && !l.stopOnErrorSetting && |errors| < MAX_LINES {
      errors' := errors + [Cropped(l.text)];
    }
    assert (seen + [l])[..|seen|] == seen;
  }

  method PushTail(tail: seq<string>, l: Line, ghost seen: seq<Line>) returns (tail': seq<string>)
    requires tail == LastOf(Texts(seen), MAX_TAIL)
    ensures tail' == LastOf(Texts(seen + [l]), MAX_TAIL)
  {
    tail' := tail + [Cropped(l.text)];
    if |tail'| > MAX_TAIL {
      tail' := tail'[1..];
    }
    assert (seen + [l])[..|seen|] == seen;
  }

  /** What one more line that is not blank changes. */
  method ReadLine(e: Evidence, l: Line, ghost seen: seq<Line>) returns (e': Evidence)
    requires Describes(e, seen)
    ensures Describes(e', seen + [l])
  {
    var tail := PushTail(e.tail, l, seen);
    var version := if l.version then l.text else e.version;
    var passed := CountPass(e.passed, l, seen);
    var cores, nodes := NoteAllocation(e.cores, e.nodes, l, seen);
    var faults, errors := ListProblem(e.faults, e.errors, l, seen);
    e' := Evidence(version, passed, cores, nodes, e.finished || l.marker, faults, errors, tail);
    assert (seen + [l])[..|seen|] == seen;
  }

  lemma {:induction false} NonBlankOfLonger(lines: seq<Line>, i: nat)
    requires i < |lines|
    ensures NonBlank(lines[..i + 1]) == NonBlank(lines[..i]) + if lines[i].text != "" then [lines[i]] else []
  {
    assert lines[..i + 1][..i] == lines[..i];
  }

  method ReadEvidence(lines: seq<Line>) returns (e: Evidence)
    ensures Describes(e, NonBlank(lines))
  {
    e := Evidence("", map[], {}, {}, false, [], [], []);
    ghost var seen: seq<Line> := [];
    for i := 0 to |lines|
      invariant seen == NonBlank(lines[..i])
      invariant Describes(e, seen)
    {
      NonBlankOfLonger(lines, i);
      if lines[i].text != "" {
        e := ReadLine(e, lines[i], seen);
        seen := seen + [lines[i]];
      }
    }
    assert lines[..|lines|] == lines;
  }

  // ---------- the decision

  /**
   What the phase knows of the workload; `rc` is None when it had to be stopped. An abort
   may be requested between the two times the phase looks.
   */
  datatype Workload = Workload(
    cores: set<nat>, seconds: nat, elapsed: real, rc: Option<int>, abortedAtFirst: bool, abortedLater: bool)

  const CRASH_SIGNALS := [11, 7, 4, 6, 8]

  predicate Crashed(rc: Option<int>) {
    rc.Some? && exists signal | signal in CRASH_SIGNALS :: rc.value == -signal || rc.value == 128 + signal
  }

  predicate RanShort(w: Workload) {
    w.elapsed < w.seconds as real * 0.9
  }

  function Untested(e: Evidence, n: nat): (missing: seq<string>)
    requires n <= |TESTS|
    ensures missing == [] <==> forall i | 0 <= i < n :: TESTS[i] in e.passed && e.passed[TESTS[i]] > 0
  {
    if n == 0 then []
    else Untested(e, n - 1) + if TESTS[n - 1] in e.passed && e.passed[TESTS[n - 1]] > 0 then [] else [TESTS[n - 1]]
  }

  function Joined(texts: seq<string>): string {
    if texts == [] then "" else if |texts| == 1 then texts[0] else Joined(texts[..|texts| - 1]) + ", " + texts[|texts| - 1]
  }

  /** Nothing is missing from the evidence of one run. */
  ghost predicate Complete(e: Evidence, w: Workload) {
    && w.rc == Some(0) && e.finished && !RanShort(w) && e.errors == []
    && (forall tag | tag in TESTS :: tag in e.passed && e.passed[tag] > 0)
    && w.cores <= e.cores
  }

  lemma {:induction false} UntestedIff(e: Evidence)
    ensures Untested(e, |TESTS|) == [] <==> forall tag | tag in TESTS :: tag in e.passed && e.passed[tag] > 0
  {
    if Untested(e, |TESTS|) == [] {
      forall tag | tag in TESTS ensures tag in e.passed && e.passed[tag] > 0 {
        var i :| 0 <= i < |TESTS| && TESTS[i] == tag;
      }
    } else {
      var i :| 0 <= i < |TESTS| && !(TESTS[i] in e.passed && e.passed[TESTS[i]] > 0);
      assert TESTS[i] in TESTS;
    }
  }

  lemma {:induction false} MissingIff(wanted: set<nat>, found: set<nat>)
    ensures wanted - found == {} <==> wanted <= found
  {
    if wanted - found == {} {
      forall core | core in wanted ensures core in found {
        assert core !in wanted - found;
      }
    }
  }

  const NO_EXIT := "Workload did not exit normally"
  const NO_MARKER := "Missing normal completion marker"
  const NO_RESULT := "No successful test result for: "
  const NO_MEMORY := "No memory allocation evidence for cores"
  const TOO_SHORT := "Workload ended early"

  /** What is missing says so, and every error is listed; the numbers in the wording are left out. */
  ghost predicate IsGap(e: Evidence, w: Workload, gap: string) {
    || (gap == NO_EXIT && w.rc != Some(0))
    || (gap == NO_MARKER && !e.finished)
    || (gap == NO_RESULT + Joined(Untested(e, |TESTS|)) && Untested(e, |TESTS|) != [])
    || (gap == NO_MEMORY && !(w.cores <= e.cores))
    || (gap == TOO_SHORT && RanShort(w))
    || gap in e.errors
  }

  method CoverageGaps(e: Evidence, w: Workload) returns (gaps: seq<string>)
    ensures gaps == [] <==> Complete(e, w)
    ensures forall gap :: gap in gaps <==> IsGap(e, w, gap)
  {
    gaps := [];
    if w.rc != Some(0) {
      gaps := gaps + [NO_EXIT];
    }
    if !e.finished {
      gaps := gaps + [NO_MARKER];
    }
    var missing := Untested(e, |TESTS|);
    if missing != [] {
      gaps := gaps + [NO_RESULT + Joined(missing)];
    }
    if w.cores - e.cores != {} {
      gaps := gaps + [NO_MEMORY];
    }
    if RanShort(w) {
      gaps := gaps + [TOO_SHORT];
    }
    gaps := gaps + e.errors;
    UntestedIff(e);
    MissingIff(w.cores, e.cores);
  }

  const FAILED := Named("ycruncher-fail")
  const INCOMPLETE := Named("ycruncher-incomplete")
  const OK := Named("ycruncher-ok")

  /** The three findings: their weight and evidence; their wording is left out. */
  function Outcome(key: Key, evidence: seq<string>): Event {
    Event(if key == FAILED then FAIL else if key == INCOMPLETE then WARN else INFO,
          "", "", "", "", 1, None, evidence, key == INCOMPLETE)
  }

  /** `after` is `before` with the finding added to, or `before` itself. */
  ghost predicate AddedIf(added: bool, key: Key, before: Items, after: Items) {
    if added then exists evidence :: after == AddItem(before, key, Outcome(key, evidence)) else after == before
  }

  ghost predicate FailsRun(e: Evidence, w: Workload) {
    e.faults != [] || (Crashed(w.rc) && !w.abortedAtFirst)
  }

  ghost predicate Unfinished(e: Evidence, w: Workload) {
    !Complete(e, w) || w.abortedLater
  }

  ghost predicate Decides(e: Evidence, w: Workload, before: Items, after: Items) {
    exists failed ::
      && AddedIf(FailsRun(e, w), FAILED, before, failed)
      && (if Unfinished(e, w) then AddedIf(true, INCOMPLETE, failed, after) else AddedIf(e.faults == [], OK, failed, after))
  }

  method RecordFailure(items: Items, e: Evidence, w: Workload) returns (items': Items)
    ensures AddedIf(FailsRun(e, w), FAILED, items, items')
  {
    items' := items;
    if e.faults != [] || (Crashed(w.rc) && !w.abortedAtFirst) {
      var evidence := if e.faults != [] then e.faults else ["exit code"] + e.tail;
      items' := AddItem(items, FAILED, Outcome(FAILED, evidence));
    }
  }

  method RecordCoverage(items: Items, e: Evidence, w: Workload) returns (items': Items)
    ensures if Unfinished(e, w) then AddedIf(true, INCOMPLETE, items, items') else AddedIf(e.faults == [], OK, items, items')
  {
    items' := items;
    var gaps := CoverageGaps(e, w);
    if gaps != [] || w.abortedLater {
      var evidence := if gaps != [] then gaps else ["Test interrupted by an abort request"];
      items' := AddItem(items, INCOMPLETE, Outcome(INCOMPLETE, evidence));
    } else if e.faults == [] {
      items' := AddItem(items, OK, Outcome(OK, [e.version]));
    }
  }

  method CheckResult(items: Items, e: Evidence, w: Workload) returns (items': Items)
    ensures Decides(e, w, items, items')
  {
    items' := RecordFailure(items, e, w);
    items' := RecordCoverage(items', e, w);
  }

  // ---------- what the decision says about the output

  ghost predicate Untouched(items: Items) {
    FAILED !in items && INCOMPLETE !in items && OK !in items
  }

  lemma {:induction false} NonBlankHasThem(lines: seq<Line>, l: Line)
    ensures l in NonBlank(lines) <==> l in lines && l.text != ""
  {
    if lines == [] {
    } else {
      NonBlankHasThem(lines[..|lines| - 1], l);
      assert lines == lines[..|lines| - 1] + [lines[|lines| - 1]];
    }
  }

  lemma {:induction false} PassedIff(lines: seq<Line>, tag: string)
    ensures Passed(lines, tag) > 0 <==> exists l | l in lines :: Passes(l, tag)
  {
    if lines == [] {
    } else {
      PassedIff(lines[..|lines| - 1], tag);
      assert lines == lines[..|lines| - 1] + [lines[|lines| - 1]];
    }
  }

  lemma {:induction false} FaultsIff(lines: seq<Line>)
    ensures Faults(lines) != [] <==> exists l | l in lines :: l.fault
  {
    if lines == [] {
    } else {
      FaultsIff(lines[..|lines| - 1]);
      assert lines == lines[..|lines| - 1] + [lines[|lines| - 1]];
    }
  }

  /** Without a fault every error is listed. */
  lemma {:induction false} ErrorsIff(lines: seq<Line>)
    requires Faults(lines) == []
    ensures Errors(lines) != [] <==> exists l | l in lines :: IsError(l)
  {
    if lines == [] {
    } else {
      var front, last := lines[..|lines| - 1], lines[|lines| - 1];
      assert Faults(front) == [] && !last.fault;
      ErrorsIff(front);
      assert Errors(lines) == Errors(front) + if IsError(last) then [Cropped(last.text)] else [];
      assert lines == front + [last];
    }
  }

  /** The evidence of completeness, in terms of the output and the run alone. */
  ghost predicate Shown(lines: seq<Line>, w: Workload) {
    && (forall l | l in lines && l.text != "" :: l.complaint ==> l.stopOnErrorSetting)
    && (exists l | l in lines :: l.text != "" && l.marker)
    && SomePass(lines, "SFTv4", "") && SomePass(lines, "SNT", "") && SomePass(lines, "SVT", "")
    && SomePass(lines, "FFTv4", "") && SomePass(lines, "N63", "NTT63") && SomePass(lines, "VT3", "VSTv3")
    && (forall core | core in w.cores :: GetsMemory(lines, core))
    && w.rc == Some(0) && 10.0 * w.elapsed >= 9.0 * w.seconds as real
  }

  /** All the evidence a success needs. */
  ghost predicate Proven(lines: seq<Line>, w: Workload) {
    Shown(lines, w) && (forall l | l in lines && l.text != "" :: !l.fault) && !w.abortedLater
  }

  /** Some line says that this test passed, under its name or its other name. */
  ghost predicate SomePass(lines: seq<Line>, tag: string, alias: string) {
    exists l | l in lines :: l.text != "" && l.passed.Some? && (l.passed.value == tag || (alias != "" && l.passed.value == alias))
  }

  ghost predicate GetsMemory(lines: seq<Line>, core: nat) {
    exists l | l in lines :: l.text != "" && GivesTo(l, core)
  }

  predicate GivesTo(l: Line, core: nat) {
    l.allocation.Some? && l.allocation.value.amount > 0.0 && l.allocation.value.core == core
  }

  /** The aliases tell of no other test, and the tests of the list are the six. */
  lemma {:induction false} PassesIff(l: Line)
    ensures Passes(l, TESTS[0]) <==> l.passed == Some("SFTv4")
    ensures Passes(l, TESTS[1]) <==> l.passed == Some("SNT")
    ensures Passes(l, TESTS[2]) <==> l.passed == Some("SVT")
    ensures Passes(l, TESTS[3]) <==> l.passed == Some("FFTv4")
    ensures Passes(l, TESTS[4]) <==> l.passed == Some("N63") || l.passed == Some("NTT63")
    ensures Passes(l, TESTS[5]) <==> l.passed == Some("VT3") || l.passed == Some("VSTv3")
  {
  }

  ghost predicate TestPasses(lines: seq<Line>, tag: string) {
    exists l | l in lines :: l.text != "" && Passes(l, tag)
  }

  lemma {:induction false} AllPassIff(lines: seq<Line>)
    ensures (forall tag | tag in TESTS :: TestPasses(lines, tag)) <==>
      && SomePass(lines, "SFTv4", "") && SomePass(lines, "SNT", "") && SomePass(lines, "SVT", "")
      && SomePass(lines, "FFTv4", "") && SomePass(lines, "N63", "NTT63") && SomePass(lines, "VT3", "VSTv3")
  {
    forall l {
      PassesIff(l);
    }
    assert (forall tag | tag in TESTS :: TestPasses(lines, tag)) <==> forall i | 0 <= i < |TESTS| :: TestPasses(lines, TESTS[i]);
    assert TestPasses(lines, TESTS[0]) <==> SomePass(lines, "SFTv4", "");
    assert TestPasses(lines, TESTS[1]) <==> SomePass(lines, "SNT", "");
    assert TestPasses(lines, TESTS[2]) <==> SomePass(lines, "SVT", "");
    assert TestPasses(lines, TESTS[3]) <==> SomePass(lines, "FFTv4", "");
    assert TestPasses(lines, TESTS[4]) <==> SomePass(lines, "N63", "NTT63");
    assert TestPasses(lines, TESTS[5]) <==> SomePass(lines, "VT3", "VSTv3");
  }

  lemma {:induction false} FindingsOfDecision(e: Evidence, w: Workload, before: Items, after: Items)
    requires Decides(e, w, before, after) && Untouched(before)
    ensures FAILED in after <==> FailsRun(e, w)
    ensures INCOMPLETE in after <==> Unfinished(e, w)
    ensures OK in after <==> !Unfinished(e, w) && e.faults == []
    ensures FAILED in after ==> after[FAILED].severity == FAIL
    ensures INCOMPLETE in after ==> after[INCOMPLETE].incomplete
  {
  }

  /** The same without the caps: nothing is missing, on the lines that are not blank. */
  lemma {:induction false} CompleteIff(e: Evidence, w: Workload, seen: seq<Line>)
    requires Describes(e, seen) && Faults(seen) == []
    ensures Complete(e, w) <==>
      && w.rc == Some(0) && !RanShort(w)
      && (exists l | l in seen :: l.marker) && (forall l | l in seen :: !IsError(l))
      && (forall tag | tag in TESTS :: exists l | l in seen :: Passes(l, tag))
      && (forall core | core in w.cores :: exists l | l in seen :: Allocates(l) && l.allocation.value.core == core)
  {
    ErrorsIff(seen);
    forall tag | tag in TESTS
      ensures (tag in e.passed && e.passed[tag] > 0) <==> exists l | l in seen :: Passes(l, tag)
    {
      PassedIff(seen, tag);
    }
    assert w.cores <= Cores(seen) <==> forall core | core in w.cores :: core in Cores(seen);
    forall core
      ensures core in Cores(seen) <==> exists l | l in seen :: Allocates(l) && l.allocation.value.core == core
    {
    }
  }

  /**
   Success is recorded exactly when the output shows no fault and no error, every test
   passed, every core got memory and the end was reached, and the workload exited normally
   after at least nine tenths of its time with no abort.
   */
  lemma {:induction false} OkIffProven(lines: seq<Line>, e: Evidence, w: Workload, before: Items, after: Items)
    requires Describes(e, NonBlank(lines)) && Decides(e, w, before, after) && Untouched(before)
    ensures OK in after <==> Proven(lines, w)
  {
    FindingsOfDecision(e, w, before, after);
    FaultShown(lines);
    if Faults(NonBlank(lines)) == [] {
      CompleteIffShown(lines, e, w);
    }
  }

  lemma {:induction false} CompleteIffShown(lines: seq<Line>, e: Evidence, w: Workload)
    requires Describes(e, NonBlank(lines)) && Faults(NonBlank(lines)) == []
    ensures Complete(e, w) <==> Shown(lines, w)
  {
    var seen := NonBlank(lines);
    forall l ensures l in seen <==> l in lines && l.text != "" {
      NonBlankHasThem(lines, l);
    }
    CompleteIff(e, w, seen);
    AllPassIff(lines);
    forall tag ensures (exists l | l in seen :: Passes(l, tag)) <==> TestPasses(lines, tag) {
    }
    forall core
      ensures (exists l | l in seen :: Allocates(l) && l.allocation.value.core == core) <==> GetsMemory(lines, core)
    {
    }
  }

  lemma {:induction false} FaultShown(lines: seq<Line>)
    ensures Faults(NonBlank(lines)) != [] <==> exists l | l in lines :: l.text != "" && l.fault
  {
    FaultsIff(NonBlank(lines));
    forall l ensures l in NonBlank(lines) <==> l in lines && l.text != "" {
      NonBlankHasThem(lines, l);
    }
  }

  /** A failure is recorded exactly for a fault in the output or a crash that no abort explains. */
  lemma {:induction false} FailIffFault(lines: seq<Line>, e: Evidence, w: Workload, before: Items, after: Items)
    requires Describes(e, NonBlank(lines)) && Decides(e, w, before, after) && Untouched(before)
    ensures FAILED in after <==>
      || (exists l | l in lines :: l.text != "" && l.fault)
      || (!w.abortedAtFirst && w.rc.Some? && w.rc.value in {-11, -7, -4, -6, -8, 139, 135, 132, 134, 136})
  {
    FindingsOfDecision(e, w, before, after);
    FaultShown(lines);
    CrashCodes(w.rc);
  }

  /** A launcher may turn a signal into 128 more. */
  lemma {:induction false} CrashCodes(rc: Option<int>)
    ensures Crashed(rc) <==> rc.Some? && rc.value in {-11, -7, -4, -6, -8, 139, 135, 132, 134, 136}
  {
    assert CRASH_SIGNALS[0] == 11 && CRASH_SIGNALS[1] == 7 && CRASH_SIGNALS[2] == 4;
    assert CRASH_SIGNALS[3] == 6 && CRASH_SIGNALS[4] == 8;
    assert forall signal | signal in CRASH_SIGNALS :: signal in {11, 7, 4, 6, 8};
    assert forall signal | signal in {11, 7, 4, 6, 8} :: signal in CRASH_SIGNALS;
    if rc.Some? && rc.value < 0 {
      assert Crashed(rc) <==> -rc.value in CRASH_SIGNALS;
    } else if rc.Some? {
      assert Crashed(rc) <==> rc.value - 128 in CRASH_SIGNALS;
    }
  }

  /** There is always a finding, and success excludes the other two. */
  lemma {:induction false} OneOutcome(e: Evidence, w: Workload, before: Items, after: Items)
    requires Decides(e, w, before, after) && Untouched(before)
    ensures OK in after <==> FAILED !in after && INCOMPLETE !in after
  {
    FindingsOfDecision(e, w, before, after);
    assert w.rc == Some(0) ==> !Crashed(w.rc);
  }

  /** For a run with no earlier findings: a failure fails it, and without one anything unfinished leaves it incomplete. */
  lemma {:induction false} RunVerdict(e: Evidence, w: Workload, after: Items)
    requires Decides(e, w, map[], after)
    ensures VerdictOf(after, false) == if FailsRun(e, w) then Fail else if Unfinished(e, w) then Incomplete else Pass
  {
    FindingsOfDecision(e, w, map[], after);
    OneOutcome(e, w, map[], after);
    if FailsRun(e, w) {
      FaultIsFail(e, w, map[], after);
    } else if Unfinished(e, w) {
      assert after.Keys == {INCOMPLETE} && after[INCOMPLETE].incomplete;
    } else {
      assert after.Keys == {OK};
    }
  }

  // ---------- the caps

  /** The texts of the lines that are errors and no faults, in full. */
  function PlainErrors(lines: seq<Line>): seq<string> {
    if lines == [] then []
    else
      var l := lines[|lines| - 1];
      PlainErrors(lines[..|lines| - 1]) + if IsError(l) && !l.fault then [Cropped(l.text)] else []
  }

  /** What the pass would have returned with unlimited lists. */
  function Uncapped(e: Evidence, seen: seq<Line>): Evidence {
    e.(faults := Faults(seen), errors := PlainErrors(seen), tail := Texts(seen))
  }

  /** A fault beyond the cap that reads like an error as well. */
  predicate OverflowsAt(seen: seq<Line>, i: nat) {
    i < |seen| && seen[i].fault && IsError(seen[i]) && |Faults(seen[..i])| >= MAX_LINES
  }

  ghost predicate Overflows(seen: seq<Line>) {
    exists i: nat :: OverflowsAt(seen, i)
  }

  lemma {:induction false} OverflowsOfLonger(seen: seq<Line>)
    requires seen != []
    ensures Overflows(seen) <==> Overflows(seen[..|seen| - 1]) || OverflowsAt(seen, |seen| - 1)
  {
    var front := seen[..|seen| - 1];
    forall i: nat | i < |front| ensures OverflowsAt(front, i) <==> OverflowsAt(seen, i) {
      assert front[..i] == seen[..i] && front[i] == seen[i];
    }
  }

  lemma {:induction false} ErrorsDiffer(seen: seq<Line>)
    ensures Errors(seen) != [] <==> PlainErrors(seen) != [] || Overflows(seen)
  {
    if seen == [] {
    } else {
      ErrorsDiffer(seen[..|seen| - 1]);
      OverflowsOfLonger(seen);
    }
  }

  lemma {:induction false} OverflowNeedsFaults(seen: seq<Line>)
    requires Overflows(seen)
    ensures Faults(seen) != []
  {
    var i: nat :| OverflowsAt(seen, i);
    FaultsIff(seen);
    assert seen[i] in seen;
  }

  /** The caps change which findings there are only for output that overflows the fault list, and then only this one. */
  lemma {:induction false} CapsMatterOnlyIf(seen: seq<Line>, e: Evidence, w: Workload)
    requires Describes(e, seen)
    ensures var u := Uncapped(e, seen);
      && (FailsRun(e, w) <==> FailsRun(u, w)) && (e.faults == [] <==> u.faults == [])
      && ((Unfinished(e, w) <==> Unfinished(u, w)) <==> Unfinished(u, w) || !Overflows(seen))
  {
    ErrorsDiffer(seen);
  }

  lemma {:induction false} FaultIsFail(e: Evidence, w: Workload, before: Items, after: Items)
    requires Decides(e, w, before, after) && FailsRun(e, w)
    ensures AnyAt(after, FAIL)
  {
    assert FAILED in after && after[FAILED].severity == FAIL;
  }

  /** The same findings, up to their texts and evidence. */
  ghost predicate Alike(a: Items, b: Items) {
    a.Keys == b.Keys && forall k | k in a :: a[k].severity == b[k].severity && a[k].incomplete == b[k].incomplete
  }

  /** How an addition changes what the verdict looks at. */
  ghost predicate Marks(added: bool, key: Key, a: Items, a': Items) {
    var e := Outcome(key, []);
    && a'.Keys == (if added then a.Keys + {key} else a.Keys)
    && (forall k | k in a && (k != key || !added) :: a'[k] == a[k])
    && (added ==>
          && a'[key].severity == (if key in a && Rank(a[key].severity) >= Rank(e.severity) then a[key].severity else e.severity)
          && a'[key].incomplete == (e.incomplete || (key in a && a[key].incomplete)))
  }

  lemma {:induction false} AddingMarks(added: bool, key: Key, a: Items, a': Items)
    requires AddedIf(added, key, a, a')
    ensures Marks(added, key, a, a')
  {
  }

  lemma {:induction false} MarkingStaysAlike(added: bool, key: Key, a: Items, b: Items, a': Items, b': Items)
    requires Alike(a, b) && Marks(added, key, a, a') && Marks(added, key, b, b')
    ensures Alike(a', b')
  {
    assert forall k :: k in a <==> k in b;
    assert forall k :: k in a' <==> k in b';
  }

  lemma {:induction false} AlikeMeansSameVerdict(a: Items, b: Items, incomplete: bool)
    requires Alike(a, b)
    ensures VerdictOf(a, incomplete) == VerdictOf(b, incomplete)
  {
    forall s ensures AnyAt(a, s) <==> AnyAt(b, s) {
      assert forall k :: k in a <==> k in b;
    }
    assert AnyIncomplete(a) <==> AnyIncomplete(b) by {
      assert forall k :: k in a <==> k in b;
    }
  }

  /** With the caps or without, the verdict over all findings is the same. */
  lemma {:induction false} CapsNeverChangeVerdict(seen: seq<Line>, e: Evidence, w: Workload, before: Items,
          after: Items, after': Items, incomplete: bool)
    requires Describes(e, seen)
    requires Decides(e, w, before, after) && Decides(Uncapped(e, seen), w, before, after')
    ensures VerdictOf(after, incomplete) == VerdictOf(after', incomplete)
  {
    var u := Uncapped(e, seen);
    CapsMatterOnlyIf(seen, e, w);
    if FailsRun(e, w) {
      FaultIsFail(e, w, before, after);
      FaultIsFail(u, w, before, after');
    } else {
      if Overflows(seen) {
        OverflowNeedsFaults(seen);
      }
      assert Unfinished(e, w) <==> Unfinished(u, w);
      var key, added := if Unfinished(e, w) then INCOMPLETE else OK, Unfinished(e, w) || e.faults == [];
      AddingMarks(added, key, before, after);
      AddingMarks(added, key, before, after');
      MarkingStaysAlike(added, key, before, before, after, after');
      AlikeMeansSameVerdict(after, after', incomplete);
    }
  }

  // ---------- an output that overflows the fault list

  const FAULTY := Line("fault", None, None, true, true, false, false, false)
  const MARKER := Line("end", None, None, false, false, false, false, true)

  function PassLine(tag: string): Line {
    Line(tag, Some(tag), None, false, false, false, false, false)
  }

  function Repeated(l: Line, n: nat): (lines: seq<Line>)
    ensures |lines| == n && forall i | 0 <= i < n :: lines[i] == l
  {
    if n == 0 then [] else Repeated(l, n - 1) + [l]
  }

  /** One fault more than are listed, each reading like an error, then a full pass of all six tests. */
  function Overflowing(): seq<Line> {
    Repeated(FAULTY, MAX_LINES + 1) +
    [PassLine(TESTS[0]), PassLine(TESTS[1]), PassLine(TESTS[2]), PassLine(TESTS[3]), PassLine(TESTS[4]), PassLine(TESTS[5]), MARKER]
  }

  lemma {:induction false} FaultsOfRepeated(n: nat)
    ensures |Faults(Repeated(FAULTY, n))| == n
  {
    if n == 0 {
    } else {
      FaultsOfRepeated(n - 1);
      assert Repeated(FAULTY, n)[..n - 1] == Repeated(FAULTY, n - 1);
    }
  }

  lemma {:induction false} NoPlainErrors(lines: seq<Line>)
    requires forall l | l in lines :: IsError(l) ==> l.fault
    ensures PlainErrors(lines) == []
  {
    if lines == [] {
    } else {
      NoPlainErrors(lines[..|lines| - 1]);
    }
  }

  lemma {:induction false} OverflowingPasses(e: Evidence, i: nat)
    requires Describes(e, Overflowing()) && i < |TESTS|
    ensures TESTS[i] in e.passed && e.passed[TESTS[i]] > 0
  {
    var seen := Overflowing();
    assert seen[MAX_LINES + 1 + i] == PassLine(TESTS[i]);
    assert Passes(PassLine(TESTS[i]), TESTS[i]) && PassLine(TESTS[i]) in seen;
    PassedIff(seen, TESTS[i]);
  }

  lemma {:induction false} OverflowingLists()
    ensures Errors(Overflowing()) != [] && PlainErrors(Overflowing()) == []
  {
    var seen := Overflowing();
    assert seen[..MAX_LINES] == Repeated(FAULTY, MAX_LINES);
    FaultsOfRepeated(MAX_LINES);
    assert OverflowsAt(seen, MAX_LINES);
    ErrorsDiffer(seen);
    NoPlainErrors(seen);
  }

  /** The caps do add a finding: this output is incomplete besides failing only because the fault list is full. */
  lemma {:induction false} CapsCanAddIncomplete(e: Evidence)
    requires Describes(e, Overflowing())
    ensures var w := Workload({}, 0, 0.0, Some(0), false, false);
      Unfinished(e, w) && !Unfinished(Uncapped(e, Overflowing()), w)
  {
    var seen := Overflowing();
    OverflowingLists();
    assert seen[MAX_LINES + 1 + 6] == MARKER && MARKER in seen;
    forall tag | tag in TESTS ensures tag in e.passed && e.passed[tag] > 0 {
      var i :| 0 <= i < |TESTS| && TESTS[i] == tag;
      OverflowingPasses(e, i);
    }
  }
}
