/**
 The counter monitors of src/pccheck/monitors.py: kernel counters that only grow within a
 boot are turned into findings, and the kernel log may mention the same PCIe device.
 */
module CounterMonitors {
  import opened Wrappers
  import opened FindingStore

  /** One counter: its name, its finding, what an increase means, and the count that is a failure (0 for never). */
  datatype Counted = Counted(name: string, key: Key, severity: Severity, failAt: nat)

  function Increase(c: Counted, amount: nat): Event {
    Event(c.severity, "", "", "", "", amount, None, [], false)
  }

  /** Kernel log text about a counter that sysfs owns counts nothing, whatever its wording. */
  function Mention(c: Counted, wording: Event): Event {
    wording.(severity := c.severity, count := 0)
  }

  /** One comparison of a counter with its last reading. */
  function Compared(items: Items, c: Counted, seen: nat, reading: nat): Items {
    if reading <= seen then items
    else
      var added := AddItem(items, c.key, Increase(c, reading - seen));
      if c.failAt > 0 && added[c.key].count >= c.failAt then EscalateItem(added, c.key, FAIL) else added
  }

  /** A poll reads every counter once. */
  type Readings = seq<(Counted, nat)>

  function Seen(seen: map<string, nat>, name: string): nat {
    if name in seen then seen[name] else 0
  }

  function PolledItems(items: Items, seen: map<string, nat>, readings: Readings): Items {
    if readings == [] then items
    else
      var front := readings[..|readings| - 1];
      var (c, reading) := readings[|readings| - 1];
      Compared(PolledItems(items, seen, front), c, Seen(PolledSeen(seen, front), c.name), reading)
  }

  function PolledSeen(seen: map<string, nat>, readings: Readings): map<string, nat> {
    if readings == [] then seen
    else PolledSeen(seen, readings[..|readings| - 1])[readings[|readings| - 1].0.name := readings[|readings| - 1].1]
  }

  /** The monitor's memory of this boot beside the findings; durability is the ledger's business. */
  class CounterMonitor {
    var seen: map<string, nat>
    var items: Items

    /** The counters of a boot start unread; the findings are those of the session so far. */
    constructor (items: Items)
      ensures seen == map[] && this.items == items
    {
      seen, this.items := map[], items;
    }

    method Poll(readings: Readings)
      modifies this
      ensures items == PolledItems(old(items), old(seen), readings)
      ensures seen == PolledSeen(old(seen), readings)
    {
      for i := 0 to |readings|
        invariant items == PolledItems(old(items), old(seen), readings[..i])
        invariant seen == PolledSeen(old(seen), readings[..i])
      {
        assert readings[..i + 1][..i] == readings[..i];
        var (c, reading) := readings[i];
        Compare(c, reading);
      }
      assert readings[..|readings|] == readings;
    }

    /** The body of the loop over devices and kinds: report an increase, then remember the reading. */
    method Compare(c: Counted, reading: nat)
      modifies this
      ensures items == Compared(old(items), c, Seen(old(seen), c.name), reading)
      ensures seen == old(seen)[c.name := reading]
    {
      var before := if c.name in seen then seen[c.name] else 0;
      if reading > before {
        items := AddItem(items, c.key, Increase(c, reading - before));
        if c.failAt > 0 && items[c.key].count >= c.failAt {
          items := EscalateItem(items, c.key, FAIL);
        }
      }
      seen := seen[c.name := reading];
    }

    /** A kernel log line about the counter's device, while sysfs owns its count. */
    method KernelLog(c: Counted, wording: Event)
      modifies this`items
      ensures items == AddItem(old(items), c.key, Mention(c, wording))
    {
      items := AddItem(items, c.key, Mention(c, wording));
    }
  }

  // ---------- one counter's history, whatever the others do

  /** What concerns one counter: it was read, or the kernel log mentioned it. */
  datatype Sighting = Reading(value: nat) | Text(wording: Event)

  datatype Record = Record(finding: Option<Finding>, seen: nat)

  function Sighted(c: Counted, r: Record, s: Sighting): Record {
    var items: Items := if r.finding.Some? then map[c.key := r.finding.value] else map[];
    match s
    case Reading(v) =>
      var after := Compared(items, c, r.seen, v);
      Record(if c.key in after then Some(after[c.key]) else None, v)
    case Text(wording) => Record(Some(AddItem(items, c.key, Mention(c, wording))[c.key]), r.seen)
  }

  /** A boot starts with no reading and with the finding that earlier boots left, if any. */
  function History(c: Counted, prior: Option<Finding>, sightings: seq<Sighting>): Record {
    if sightings == [] then Record(prior, 0)
    else Sighted(c, History(c, prior, sightings[..|sightings| - 1]), sightings[|sightings| - 1])
  }

  function LastReading(sightings: seq<Sighting>): nat {
    if sightings == [] then 0
    else
      match sightings[|sightings| - 1]
      case Reading(v) => v
      case Text(_) => LastReading(sightings[..|sightings| - 1])
  }

  ghost predicate NonDecreasing(sightings: seq<Sighting>) {
    forall i | 0 <= i < |sightings| && sightings[i].Reading? :: LastReading(sightings[..i]) <= sightings[i].value
  }

  /** The kernel log spoke before the counter had moved. */
  predicate TextFirst(sightings: seq<Sighting>) {
    exists i | 0 <= i < |sightings| :: sightings[i].Text? && LastReading(sightings[..i]) == 0
  }

  lemma {:induction false} TextFirstOfLonger(sightings: seq<Sighting>)
    requires sightings != []
    ensures var front := sightings[..|sightings| - 1];
      TextFirst(sightings) <==> TextFirst(front) || (sightings[|sightings| - 1].Text? && LastReading(front) == 0)
  {
    var front := sightings[..|sightings| - 1];
    assert forall i | 0 <= i < |front| :: front[..i] == sightings[..i] && front[i] == sightings[i];
    if TextFirst(front) {
      var i :| 0 <= i < |front| && front[i].Text? && LastReading(front[..i]) == 0;
      assert sightings[i].Text? && LastReading(sightings[..i]) == 0;
    }
  }

  lemma {:induction false} FrontOfNonDecreasing(sightings: seq<Sighting>)
    requires sightings != [] && NonDecreasing(sightings)
    ensures NonDecreasing(sightings[..|sightings| - 1])
  {
    var front := sightings[..|sightings| - 1];
    assert forall i | 0 <= i < |front| :: front[..i] == sightings[..i] && front[i] == sightings[i];
  }

  function Worse(a: Severity, b: Severity): Severity {
    if Rank(a) >= Rank(b) then a else b
  }

  /**
   The count a counter's finding should have: what was there, this boot's reading, and one for text that made
   the finding.
   */
  function ExpectedCount(prior: Option<Finding>, total: nat, textFirst: bool): nat {
    if prior.Some? then prior.value.count + total else total + if textFirst then 1 else 0
  }

  function ExpectedSeverity(c: Counted, prior: Option<Finding>, total: nat, mentioned: bool,
          textFirst: bool): Severity {
    var told := if prior.None? then c.severity else if total > 0 || mentioned then Worse(prior.value.severity, c.severity) else prior.value.severity;
    if c.failAt > 0 && total > 0 && ExpectedCount(prior, total, textFirst) >= c.failAt then FAIL else told
  }

  /** The record a counter should have after reading `total`, if anything was or is seen of it. */
  predicate Expected(c: Counted, prior: Option<Finding>, r: Record, total: nat, mentioned: bool, textFirst: bool) {
    && r.seen == total
    && (r.finding.Some? <==> prior.Some? || total > 0 || mentioned)
    && (r.finding.Some? ==>
          && r.finding.value.count == ExpectedCount(prior, total, textFirst)
          && r.finding.value.severity == ExpectedSeverity(c, prior, total, mentioned, textFirst))
  }

  lemma {:induction false} ReadingKeepsExpected(c: Counted, prior: Option<Finding>, r: Record, total: nat,
          mentioned: bool,
          textFirst: bool, v: nat)
    requires Expected(c, prior, r, total, mentioned, textFirst) && total <= v
    requires textFirst ==> mentioned
    requires total == 0 && mentioned ==> textFirst
    ensures Expected(c, prior, Sighted(c, r, Reading(v)), v, mentioned, textFirst)
  {
    var items: Items := if r.finding.Some? then map[c.key := r.finding.value] else map[];
    if v > total {
      var added := AddItem(items, c.key, Increase(c, v - total));
      assert added[c.key].count == ExpectedCount(prior, v, textFirst);
      assert added[c.key].severity == if r.finding.Some? then Worse(r.finding.value.severity, c.severity) else c.severity;
    }
  }

  lemma {:induction false} TextKeepsExpected(c: Counted, prior: Option<Finding>, r: Record, total: nat, mentioned: bool,
          textFirst: bool, wording: Event)
    requires Expected(c, prior, r, total, mentioned, textFirst)
    requires textFirst ==> mentioned
    requires total == 0 && mentioned ==> textFirst
    ensures Expected(c, prior, Sighted(c, r, Text(wording)), total, true, textFirst || total == 0)
  {
    var items: Items := if r.finding.Some? then map[c.key := r.finding.value] else map[];
    var added := AddItem(items, c.key, Mention(c, wording));
    assert added[c.key].count == ExpectedCount(prior, total, textFirst || total == 0);
    assert added[c.key].severity == if r.finding.Some? then Worse(r.finding.value.severity, c.severity) else c.severity;
  }

  predicate Mentioned(sightings: seq<Sighting>) {
    exists s | s in sightings :: s.Text?
  }

  /**
   For a counter that never decreases within a boot, the finding depends only on what
   earlier boots left, on the last reading, and on what the kernel log said: the count is
   the earlier count plus the reading, or without an earlier finding the reading plus one
   exactly when the kernel log spoke first; a warning becomes a failure exactly when the
   counter moved and that count reached the limit.
   */
  lemma {:induction false} CountIsScheduleIndependent(c: Counted, prior: Option<Finding>, sightings: seq<Sighting>)
    requires NonDecreasing(sightings)
    ensures TextFirst(sightings) ==> Mentioned(sightings)
    ensures LastReading(sightings) == 0 && Mentioned(sightings) ==> TextFirst(sightings)
    ensures Expected(c, prior, History(c, prior, sightings), LastReading(sightings), Mentioned(sightings), TextFirst(sightings))
  {
    if sightings == [] {
    } else {
      var front := sightings[..|sightings| - 1];
      var last := sightings[|sightings| - 1];
      var total, mentioned, textFirst := LastReading(front), Mentioned(front), TextFirst(front);
      FrontOfNonDecreasing(sightings);
      CountIsScheduleIndependent(c, prior, front);
      TextFirstOfLonger(sightings);
      assert sightings == front + [last];
      assert Mentioned(sightings) <==> mentioned || last.Text?;
      if last.Text? {
        TextKeepsExpected(c, prior, History(c, prior, front), total, mentioned, textFirst, last.wording);
      } else {
        ReadingKeepsExpected(c, prior, History(c, prior, front), total, mentioned, textFirst, last.value);
      }
    }
  }

  /** Two schedules that agree on the last reading and on who spoke first yield the same count and severity. */
  lemma {:induction false} SchedulesAgree(c: Counted, prior: Option<Finding>, a: seq<Sighting>, b: seq<Sighting>)
    requires NonDecreasing(a) && NonDecreasing(b)
    requires LastReading(a) == LastReading(b) > 0 && TextFirst(a) == TextFirst(b)
    ensures var x, y := History(c, prior, a).finding, History(c, prior, b).finding;
      x.Some? && y.Some? && x.value.count == y.value.count && x.value.severity == y.value.severity
  {
    CountIsScheduleIndependent(c, prior, a);
    CountIsScheduleIndependent(c, prior, b);
  }

  // ---------- the whole monitor, counter by counter

  /** What one poll shows of a counter. */
  function OwnSightings(readings: Readings, c: Counted): seq<Sighting> {
    if readings == [] then []
    else OwnSightings(readings[..|readings| - 1], c) +
         if readings[|readings| - 1].0 == c then [Reading(readings[|readings| - 1].1)] else []
  }

  ghost predicate Tracks(c: Counted, items: Items, seen: map<string, nat>, r: Record) {
    && Seen(seen, c.name) == r.seen
    && (c.key in items <==> r.finding.Some?)
    && (r.finding.Some? ==> items[c.key] == r.finding.value)
  }

  lemma {:induction false} OwnReadingTracks(c: Counted, items: Items, seen: map<string, nat>, r: Record, v: nat)
    requires Tracks(c, items, seen, r)
    ensures Tracks(c, Compared(items, c, Seen(seen, c.name), v), seen[c.name := v], Sighted(c, r, Reading(v)))
  {
  }

  lemma {:induction false} OtherReadingTracks(c: Counted, items: Items, seen: map<string, nat>, r: Record,
          d: Counted, v: nat)
    requires Tracks(c, items, seen, r) && d.key != c.key && d.name != c.name
    ensures Tracks(c, Compared(items, d, Seen(seen, d.name), v), seen[d.name := v], r)
  {
  }

  lemma {:induction false} OwnTextTracks(c: Counted, items: Items, seen: map<string, nat>, r: Record, wording: Event)
    requires Tracks(c, items, seen, r)
    ensures Tracks(c, AddItem(items, c.key, Mention(c, wording)), seen, Sighted(c, r, Text(wording)))
  {
  }

  /** A counter with its own name and finding is not disturbed by the other counters of a poll. */
  lemma {:induction false} PollTracksEachCounter(c: Counted, prior: Option<Finding>, items: Items, seen: map<string,
          nat>,
          before: seq<Sighting>, readings: Readings)
    requires Tracks(c, items, seen, History(c, prior, before))
    requires forall r | r in readings :: r.0.key == c.key || r.0.name == c.name ==> r.0 == c
    ensures Tracks(c, PolledItems(items, seen, readings), PolledSeen(seen, readings),
                   History(c, prior, before + OwnSightings(readings, c)))
  {
    if readings == [] {
      assert before + [] == before;
    } else {
      var front := readings[..|readings| - 1];
      var (d, v) := readings[|readings| - 1];
      PollTracksEachCounter(c, prior, items, seen, before, front);
      var items', seen' := PolledItems(items, seen, front), PolledSeen(seen, front);
      var earlier, now := before + OwnSightings(front, c), before + OwnSightings(readings, c);
      assert (d, v) in readings;
      if d == c {
        OwnReadingTracks(c, items', seen', History(c, prior, earlier), v);
        assert now == earlier + [Reading(v)] && now[..|now| - 1] == earlier;
      } else {
        OtherReadingTracks(c, items', seen', History(c, prior, earlier), d, v);
        assert now == earlier;
      }
    }
  }

  /** A poll, or a line of the kernel log about some counter's device. */
  datatype Step = Polls(readings: Readings) | Tells(counter: Counted, wording: Event)

  function SteppedItems(items: Items, seen: map<string, nat>, steps: seq<Step>): Items {
    if steps == [] then items
    else
      var front, last := steps[..|steps| - 1], steps[|steps| - 1];
      match last
      case Polls(readings) => PolledItems(SteppedItems(items, seen, front), SteppedSeen(seen, front), readings)
      case Tells(d, wording) => AddItem(SteppedItems(items, seen, front), d.key, Mention(d, wording))
  }

  function SteppedSeen(seen: map<string, nat>, steps: seq<Step>): map<string, nat> {
    if steps == [] then seen
    else
      match steps[|steps| - 1]
      case Polls(readings) => PolledSeen(SteppedSeen(seen, steps[..|steps| - 1]), readings)
      case Tells(_, _) => SteppedSeen(seen, steps[..|steps| - 1])
  }

  /** What all of this shows of one counter. */
  function StepSightings(steps: seq<Step>, c: Counted): seq<Sighting> {
    if steps == [] then []
    else
      StepSightings(steps[..|steps| - 1], c) +
      match steps[|steps| - 1]
      case Polls(readings) => OwnSightings(readings, c)
      case Tells(d, wording) => if d == c then [Text(wording)] else []
  }

  ghost predicate Alone(c: Counted, step: Step) {
    match step
    case Polls(readings) => forall r | r in readings :: r.0.key == c.key || r.0.name == c.name ==> r.0 == c
    case Tells(d, _) => d.key == c.key ==> d == c
  }

  /**
   Polls and kernel log lines in any order, over all counters at once: each counter with its
   own name and finding ends as its own history says.
   */
  lemma {:induction false} StepsTrackEachCounter(c: Counted, prior: Option<Finding>, items: Items, steps: seq<Step>)
    requires c.key in items <==> prior.Some?
    requires prior.Some? ==> items[c.key] == prior.value
    requires forall step | step in steps :: Alone(c, step)
    ensures Tracks(c, SteppedItems(items, map[], steps), SteppedSeen(map[], steps), History(c, prior, StepSightings(steps, c)))
  {
    if steps == [] {
    } else {
      var front, last := steps[..|steps| - 1], steps[|steps| - 1];
      StepsTrackEachCounter(c, prior, items, front);
      var items', seen', earlier := SteppedItems(items, map[], front), SteppedSeen(map[], front), StepSightings(front, c);
      assert last in steps;
      match last {
        case Polls(readings) => PollTracksEachCounter(c, prior, items', seen', earlier, readings);
        case Tells(d, wording) =>
          if d == c {
            OwnTextTracks(c, items', seen', History(c, prior, earlier), wording);
            var now := earlier + [Text(wording)];
            assert now[..|now| - 1] == earlier;
          } else {
            assert earlier + [] == earlier;
          }
      }
    }
  }
}
