/**
 The deduplicating findings store of src/pccheck/findings.py: what repeated events make
 of one finding, the verdict it feeds, and which part of it survives a reset.
 */
module FindingStore {
  import opened Wrappers
  import opened Config
  import opened RotatingStore

  datatype Severity = INFO | WARN | FAIL

  function Rank(s: Severity): nat {
    match s case INFO => 1 case WARN => 2 case FAIL => 3
  }

  /** The keys the orchestrator itself uses, and every other text. */
  datatype Key =
    | UnexpectedReboot(n: nat) | PhaseError(name: PhaseName)
    | PowerCycleProgress | PowerCycleOk | PowerCycleSkipped | MonitorError | SelHistoric
    | ScanOpen(id: string) | ScanErrors(id: string) | ScanPartial(id: string)
    | Named(text: string)

  const MAX_EVIDENCE := 25

  /** `phase` is None for findings made outside the plan's phases. */
  datatype Finding = Finding(
    severity: Severity, component: string, title: string, detail: string, recommendation: string,
    count: nat, phase: Option<PhaseName>, evidence: seq<string>, incomplete: bool)

  /** The arguments of one `add` call apart from the key; evidence lines come stripped. */
  datatype Event = Event(
    severity: Severity, component: string, title: string, detail: string, recommendation: string,
    count: nat, phase: Option<PhaseName>, evidence: seq<string>, incomplete: bool)

  type Items = map<Key, Finding>

  // ---------- what one call does

  function AddLine(evidence: seq<string>, line: string): seq<string> {
    if line != "" && line !in evidence && |evidence| < MAX_EVIDENCE then evidence + [line] else evidence
  }

  function AddLines(evidence: seq<string>, lines: seq<string>): seq<string> {
    if lines == [] then evidence
    else AddLine(AddLines(evidence, lines[..|lines| - 1]), lines[|lines| - 1])
  }

  function First(e: Event): Finding {
    Finding(e.severity, e.component, e.title, e.detail, e.recommendation,
            if e.count > 1 then e.count else 1, e.phase, AddLines([], e.evidence), e.incomplete)
  }

  function Raised(f: Finding, severity: Severity, title: string, recommendation: string): Finding {
    if Rank(severity) <= Rank(f.severity) then f
    else f.(severity := severity, title := title,
            recommendation := if recommendation != "" then recommendation else f.recommendation)
  }

  function Merge(f: Finding, e: Event): Finding {
    Raised(f, e.severity, e.title, e.recommendation)
      .(incomplete := f.incomplete || e.incomplete, count := f.count + e.count,
        detail := if f.detail == "" then e.detail else f.detail,
        evidence := AddLines(f.evidence, e.evidence))
  }

  function AddItem(items: Items, key: Key, e: Event): Items {
    items[key := if key in items then Merge(items[key], e) else First(e)]
  }

  function EscalateItem(items: Items, key: Key, severity: Severity): Items {
    if key in items then items[key := items[key].(severity := if Rank(severity) > Rank(items[key].severity)
                                                              then severity else items[key].severity)]
    else items
  }

  /** New findings and failures are written at once; other changes wait for the next write. */
  predicate Urgent(items: Items, key: Key, e: Event) {
    key !in items || e.severity == FAIL
  }

  /** The store in memory together with its two files. */
  datatype Ledger = Ledger(items: Items, dirty: bool, num: Counter, store: Store<Items>)

  function Flushed(l: Ledger, force: bool): Ledger {
    if l.dirty || force then l.(dirty := false, num := l.num + 1, store := Write(l.store, l.items, l.num + 1))
    else l
  }

  function Added(l: Ledger, key: Key, e: Event): Ledger {
    var l' := l.(items := AddItem(l.items, key, e), dirty := true);
    if Urgent(l.items, key, e) then Flushed(l', false) else l'
  }

  function Escalated(l: Ledger, key: Key, severity: Severity): Ledger {
    var items := EscalateItem(l.items, key, severity);
    Flushed(l.(items := items, dirty := l.dirty || items != l.items), false)
  }

  function Durable(store: Store<Items>): Items {
    match Read(store).best case None => map[] case Some(items) => items
  }

  /** What a new process finds. */
  function Reloaded(store: Store<Items>): Ledger {
    Ledger(Durable(store), false, Read(store).num, store)
  }

  class Findings {
    var items: Items
    var dirty: bool
    var num: Counter
    const file: RotatingFile<Items>

    ghost function Abs(): Ledger
      reads this, file
    {
      Ledger(items, dirty, num, file.store)
    }

    constructor (file: RotatingFile<Items>)
      ensures this.file == file
      ensures Abs() == Reloaded(file.store)
    {
      this.file := file;
      new;
      var existing, found := file.ReadRotating();
      items := if existing.Some? then existing.value else map[];
      dirty, num := false, found;
    }

    method Add(key: Key, e: Event) returns (f: Finding)
      modifies this, file
      ensures Abs() == Added(old(Abs()), key, e)
      ensures f == items[key]
    {
      var isNew := key !in items;
      if isNew {
        f := Finding(e.severity, e.component, e.title, e.detail, e.recommendation,
                     if e.count > 1 then e.count else 1, e.phase, [], e.incomplete);
      } else {
        f := items[key];
        f := f.(incomplete := f.incomplete || e.incomplete, count := f.count + e.count);
        if Rank(e.severity) > Rank(f.severity) {
          f := f.(severity := e.severity, title := e.title);
          if e.recommendation != "" {
            f := f.(recommendation := e.recommendation);
          }
        }
        if f.detail == "" {
          f := f.(detail := e.detail);
        }
      }
      f := WithEvidence(f, e.evidence);
      assert f == if key in old(items) then Merge(old(items)[key], e) else First(e);
      items := items[key := f];
      dirty := true;
      if isNew || e.severity == FAIL {
        Flush(false);
      }
    }

    /** The loop over the call's evidence lines. */
    static method WithEvidence(f: Finding, lines: seq<string>) returns (f': Finding)
      ensures f' == f.(evidence := AddLines(f.evidence, lines))
    {
      f' := f;
      for i := 0 to |lines|
        invariant f' == f.(evidence := AddLines(f.evidence, lines[..i]))
      {
        assert lines[..i + 1][..i] == lines[..i];
        var line := lines[i];
        if line != "" && line !in f'.evidence {
          if |f'.evidence| < MAX_EVIDENCE {
            f' := f'.(evidence := f'.evidence + [line]);
          }
        }
      }
      assert lines[..|lines|] == lines;
    }

    method Escalate(key: Key, severity: Severity)
      modifies this, file
      ensures Abs() == Escalated(old(Abs()), key, severity)
    {
      if key in items && Rank(severity) > Rank(items[key].severity) {
        items := items[key := items[key].(severity := severity)];
        assert items[key] != old(items)[key];
        dirty := true;
      } else {
        assert EscalateItem(items, key, severity) == items;
      }
      Flush(false);
    }

    /** A write that fails is logged; it has taken its number and cleared the flag all the same. */
    method Flush(force: bool, fails: bool := false)
      modifies this, file
      ensures Abs() == if fails && (old(dirty) || force) then old(Abs()).(dirty := false, num := old(num) + 1)
                       else Flushed(old(Abs()), force)
    {
      if !(dirty || force) {
        return;
      }
      dirty := false;
      num := num + 1;
      if !fails {
        file.WriteRotating(items, num);
      }
    }
  }

  // ---------- a finding as a function of its events

  /** The finding that the events of one key build. */
  function Built(events: seq<Event>): Finding
    requires events != []
  {
    if |events| == 1 then First(events[0])
    else Merge(Built(events[..|events| - 1]), events[|events| - 1])
  }

  function AddAll(items: Items, calls: seq<(Key, Event)>): Items {
    if calls == [] then items
    else AddItem(AddAll(items, calls[..|calls| - 1]), calls[|calls| - 1].0, calls[|calls| - 1].1)
  }

  function EventsOf(calls: seq<(Key, Event)>, key: Key): seq<Event> {
    if calls == [] then []
    else EventsOf(calls[..|calls| - 1], key) +
         if calls[|calls| - 1].0 == key then [calls[|calls| - 1].1] else []
  }

  /** Calls for other keys do not touch a finding. */
  lemma {:induction false} AddAllSplitsByKey(calls: seq<(Key, Event)>, key: Key)
    ensures key in AddAll(map[], calls) <==> EventsOf(calls, key) != []
    ensures key in AddAll(map[], calls) ==> AddAll(map[], calls)[key] == Built(EventsOf(calls, key))
  {
    if calls == [] {
    } else {
      AddAllSplitsByKey(calls[..|calls| - 1], key);
      var earlier := EventsOf(calls[..|calls| - 1], key);
      var now := EventsOf(calls, key);
      if calls[|calls| - 1].0 == key {
        assert now[..|now| - 1] == earlier;
      } else {
        assert now == earlier;
      }
    }
  }

  function SumOfCounts(events: seq<Event>): nat {
    if events == [] then 0 else SumOfCounts(events[..|events| - 1]) + events[|events| - 1].count
  }

  /** All evidence lines in the order they were offered. */
  function Lines(events: seq<Event>): seq<string> {
    if events == [] then [] else Lines(events[..|events| - 1]) + events[|events| - 1].evidence
  }

  /** The non-empty lines, each at its first occurrence. */
  function Distinct(lines: seq<string>): seq<string> {
    if lines == [] then []
    else
      var d := Distinct(lines[..|lines| - 1]);
      if lines[|lines| - 1] == "" || lines[|lines| - 1] in d then d else d + [lines[|lines| - 1]]
  }

  function Capped(lines: seq<string>): seq<string> {
    if |lines| <= MAX_EVIDENCE then lines else lines[..MAX_EVIDENCE]
  }

  lemma {:induction false} AddLinesIsCapped(before: seq<string>, lines: seq<string>)
    ensures AddLines(Capped(Distinct(before)), lines) == Capped(Distinct(before + lines))
    decreases |lines|
  {
    if lines == [] {
      assert before + lines == before;
    } else {
      var front := lines[..|lines| - 1];
      AddLinesIsCapped(before, front);
      assert (before + lines)[..|before + lines| - 1] == before + front;
    }
  }

  /** The first event of the greatest severity. */
  function Worst(events: seq<Event>): (i: nat)
    requires events != []
    ensures i < |events|
    ensures forall j | 0 <= j < |events| :: Rank(events[j].severity) <= Rank(events[i].severity)
    ensures forall j | 0 <= j < i :: Rank(events[j].severity) < Rank(events[i].severity)
  {
    if |events| == 1 then 0
    else
      var w := Worst(events[..|events| - 1]);
      assert forall j | 0 <= j < |events| - 1 :: events[..|events| - 1][j] == events[j];
      if Rank(events[|events| - 1].severity) > Rank(events[w].severity) then |events| - 1 else w
  }

  /** The first non-empty detail, if there is one. */
  function FirstDetail(events: seq<Event>): (detail: string)
    ensures detail == "" <==> forall e | e in events :: e.detail == ""
    ensures detail != "" ==> exists i | 0 <= i < |events| ::
      events[i].detail == detail && forall j | 0 <= j < i :: events[j].detail == ""
  {
    if events == [] then ""
    else
      var front, last := events[..|events| - 1], events[|events| - 1];
      assert events == front + [last];
      if FirstDetail(front) != "" then FirstDetail(front) else last.detail
  }

  lemma {:induction false} BuiltSeverity(events: seq<Event>)
    requires events != []
    ensures Built(events).severity == events[Worst(events)].severity
    ensures Built(events).title == events[Worst(events)].title
    ensures Built(events).component == events[0].component && Built(events).phase == events[0].phase
  {
    if |events| <= 1 {
    } else {
      BuiltSeverity(events[..|events| - 1]);
    }
  }

  lemma {:induction false} BuiltTotals(events: seq<Event>)
    requires events != []
    ensures Built(events).count == SumOfCounts(events) + (if events[0].count == 0 then 1 else 0)
    ensures Built(events).incomplete <==> exists e | e in events :: e.incomplete
    ensures Built(events).detail == FirstDetail(events)
  {
    if |events| == 1 {
      assert events[..0] == [];
    } else {
      BuiltTotals(events[..|events| - 1]);
      assert events == events[..|events| - 1] + [events[|events| - 1]];
    }
  }

  lemma {:induction false} BuiltEvidence(events: seq<Event>)
    requires events != []
    ensures Built(events).evidence == Capped(Distinct(Lines(events)))
  {
    var last := events[|events| - 1].evidence;
    if |events| == 1 {
      assert Lines(events[..0]) == [] && [] + last == last;
      AddLinesIsCapped([], last);
    } else {
      BuiltEvidence(events[..|events| - 1]);
      AddLinesIsCapped(Lines(events[..|events| - 1]), last);
    }
  }

  /**
   Severity is the maximum and the title that of the first event reaching it; counts add
   up, with one more when the first event counted nothing; incompleteness is sticky; the
   evidence is the first 25 distinct lines of everything offered. Calls for other keys
   do not matter.
   */
  lemma {:induction false} ClosedForm(calls: seq<(Key, Event)>, key: Key)
    requires EventsOf(calls, key) != []
    ensures key in AddAll(map[], calls)
    ensures var f, own := AddAll(map[], calls)[key], EventsOf(calls, key);
      && f.severity == own[Worst(own)].severity && f.title == own[Worst(own)].title
      && f.count == SumOfCounts(own) + (if own[0].count == 0 then 1 else 0)
      && (f.incomplete <==> exists e | e in own :: e.incomplete)
      && f.evidence == Capped(Distinct(Lines(own)))
      && f.component == own[0].component && f.phase == own[0].phase && f.detail == FirstDetail(own)
  {
    AddAllSplitsByKey(calls, key);
    BuiltSeverity(EventsOf(calls, key));
    BuiltTotals(EventsOf(calls, key));
    BuiltEvidence(EventsOf(calls, key));
  }

  // ---------- the verdict

  datatype Verdict = Pass | PassWithWarnings | Incomplete | Fail

  function Severeness(v: Verdict): nat {
    match v case Pass => 0 case PassWithWarnings => 1 case Incomplete => 2 case Fail => 3
  }

  predicate AnyAt(items: Items, s: Severity) {
    exists k | k in items :: items[k].severity == s
  }

  predicate AnyIncomplete(items: Items) {
    exists k | k in items :: items[k].incomplete
  }

  function VerdictOf(items: Items, incomplete: bool): Verdict {
    if AnyAt(items, FAIL) then Fail
    else if incomplete || AnyIncomplete(items) then Incomplete
    else if AnyAt(items, WARN) then PassWithWarnings
    else Pass
  }

  /** No finding vanishes, loses severity, or stops being incomplete. */
  ghost predicate NoBetter(before: Items, after: Items) {
    forall k | k in before ::
      && k in after
      && Rank(before[k].severity) <= Rank(after[k].severity)
      && (before[k].incomplete ==> after[k].incomplete)
  }

  datatype Call = AddCall(key: Key, event: Event) | EscalateCall(key: Key, severity: Severity)

  function Called(l: Ledger, c: Call): Ledger {
    match c
    case AddCall(key, e) => Added(l, key, e)
    case EscalateCall(key, s) => Escalated(l, key, s)
  }

  function CalledAll(l: Ledger, calls: seq<Call>): Ledger
    decreases |calls|
  {
    if calls == [] then l else CalledAll(Called(l, calls[0]), calls[1..])
  }

  lemma {:induction false} NoBetterIsWorseVerdict(before: Items, after: Items, incomplete: bool)
    requires NoBetter(before, after)
    ensures Severeness(VerdictOf(before, incomplete)) <= Severeness(VerdictOf(after, incomplete))
  {
    forall k | k in before && before[k].severity != INFO
      ensures AnyAt(after, FAIL) || (before[k].severity == WARN && AnyAt(after, WARN))
    {
      assert after[k].severity == FAIL || after[k].severity == WARN;
    }
    if AnyIncomplete(before) {
      var k :| k in before && before[k].incomplete;
      assert after[k].incomplete;
    }
  }

  lemma {:induction false} CallNeverImproves(l: Ledger, c: Call)
    ensures NoBetter(l.items, Called(l, c).items)
  {
  }

  lemma {:induction false} CallsNeverImprove(l: Ledger, calls: seq<Call>)
    ensures NoBetter(l.items, CalledAll(l, calls).items)
    decreases |calls|
  {
    if calls == [] {
    } else {
      CallNeverImproves(l, calls[0]);
      CallsNeverImprove(Called(l, calls[0]), calls[1..]);
    }
  }

  /** Over any interleaving of `add` and `escalate` the verdict can only worsen. */
  lemma {:induction false} VerdictIsMonotone(l: Ledger, calls: seq<Call>, incomplete: bool)
    ensures Severeness(VerdictOf(l.items, incomplete))
         <= Severeness(VerdictOf(CalledAll(l, calls).items, incomplete))
  {
    CallsNeverImprove(l, calls);
    NoBetterIsWorseVerdict(l.items, CalledAll(l, calls).items, incomplete);
  }

  // ---------- what survives a reset

  /** Memory and disk hold the same findings, and the same of them are failures. */
  ghost predicate Agree(items: Items, durable: Items) {
    && items.Keys == durable.Keys
    && (forall k | k in items :: items[k].severity == FAIL <==> durable[k].severity == FAIL)
    && NoBetter(durable, items)
  }

  /** Moreover the same of them are at least warnings. */
  ghost predicate AgreeOnWarnings(items: Items, durable: Items) {
    && items.Keys == durable.Keys
    && (forall k | k in items :: items[k].severity == INFO <==> durable[k].severity == INFO)
  }

  ghost predicate Synced(l: Ledger) {
    && Parity(l.store) && l.num == Read(l.store).num
    && Agree(l.items, Durable(l.store))
    && (!l.dirty ==> l.items == Durable(l.store))
  }

  lemma {:induction false} FlushKeepsSynced(l: Ledger, force: bool)
    requires Parity(l.store) && l.num == Read(l.store).num
    requires !l.dirty ==> l.items == Durable(l.store)
    ensures Synced(Flushed(l, force))
    ensures Durable(Flushed(l, force).store) == l.items
  {
    if l.dirty || force {
      WriteIsRead(l.store, l.items, l.num + 1);
    }
  }

  lemma {:induction false} AddKeepsSynced(l: Ledger, key: Key, e: Event)
    requires Synced(l)
    ensures Synced(Added(l, key, e))
    ensures NoBetter(Durable(l.store), Durable(Added(l, key, e).store))
    ensures Urgent(l.items, key, e) ==> Durable(Added(l, key, e).store) == Added(l, key, e).items
  {
    assert NoBetter(l.items, AddItem(l.items, key, e));
    FlushKeepsSynced(l.(items := AddItem(l.items, key, e), dirty := true), false);
  }

  lemma {:induction false} EscalateKeepsSynced(l: Ledger, key: Key, s: Severity)
    requires Synced(l)
    ensures Synced(Escalated(l, key, s))
    ensures NoBetter(Durable(l.store), Durable(Escalated(l, key, s).store))
    ensures Durable(Escalated(l, key, s).store) == Escalated(l, key, s).items
  {
    var items := EscalateItem(l.items, key, s);
    assert NoBetter(l.items, items);
    FlushKeepsSynced(l.(items := items, dirty := l.dirty || items != l.items), false);
  }

  lemma {:induction false} CallsKeepSynced(l: Ledger, calls: seq<Call>)
    requires Synced(l)
    ensures Synced(CalledAll(l, calls))
    decreases |calls|
  {
    if calls == [] {
    } else {
      var c := calls[0];
      if c.AddCall? {
        AddKeepsSynced(l, c.key, c.event);
      } else {
        EscalateKeepsSynced(l, c.key, c.severity);
      }
      CallsKeepSynced(Called(l, c), calls[1..]);
    }
  }

  /**
   A reset, even one inside the write of a further call, loses no finding and no failure:
   what a reload finds has every key and every failure the calls before it had.
   */
  lemma {:induction false} ResetLosesNoFailure(l: Ledger, calls: seq<Call>, next: Call, how: Outcome)
    requires Synced(l)
    ensures var now := CalledAll(l, calls);
            var after := Reloaded(Cut(now.store, Called(now, next).items, now.num + 1, how));
            && Synced(after)
            && now.items.Keys <= after.items.Keys
            && forall k | k in now.items && now.items[k].severity == FAIL :: after.items[k].severity == FAIL
  {
    CallsKeepSynced(l, calls);
    var now := CalledAll(l, calls);
    CutIsOldOrNew(now.store, Called(now, next).items, how);
    CallNeverImproves(now, next);
  }

  /** From a clean store one `add` is fully durable unless it changes a known finding without failing it. */
  lemma {:induction false} AddIsDurableIff(l: Ledger, key: Key, e: Event)
    requires Synced(l) && !l.dirty
    ensures Durable(Added(l, key, e).store) == Added(l, key, e).items
       <==> key !in l.items || e.severity == FAIL || Merge(l.items[key], e) == l.items[key]
  {
    FlushKeepsSynced(l.(items := AddItem(l.items, key, e), dirty := true), false);
    if !Urgent(l.items, key, e) {
      if Merge(l.items[key], e) == l.items[key] {
        assert AddItem(l.items, key, e) == l.items;
      } else {
        assert AddItem(l.items, key, e)[key] != l.items[key];
      }
    }
  }

  /** The adds whose severity a reset can forget: raising a known informational finding to a warning. */
  predicate RaisesQuietly(items: Items, key: Key, e: Event) {
    key in items && items[key].severity == INFO && e.severity == WARN
  }

  lemma {:induction false} WarningsAgreeIffNotRaisedQuietly(l: Ledger, key: Key, e: Event)
    requires Synced(l) && AgreeOnWarnings(l.items, Durable(l.store))
    ensures AgreeOnWarnings(Added(l, key, e).items, Durable(Added(l, key, e).store))
       <==> !RaisesQuietly(l.items, key, e)
  {
    FlushKeepsSynced(l.(items := AddItem(l.items, key, e), dirty := true), false);
    if RaisesQuietly(l.items, key, e) {
      assert Added(l, key, e).items[key].severity == WARN;
      assert Durable(l.store)[key].severity == INFO;
    }
  }
}
