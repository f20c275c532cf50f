/**
 The kernel log watcher of src/pccheck/kmsg.py: it copies /dev/kmsg into the session's log
 in batches, remembers how far it got, and turns classified messages into findings.
 */
module KernelLog {
  import opened Wrappers
  import opened Config
  import opened FindingStore
  import CounterMonitors

  // ---------- what a message means

  /** A classification rule; pattern matching is outside the model. */
  datatype Rule = Rule(
    id: string, severity: Severity, component: string, title: string, recommendation: string,
    counter: Option<string>, bootTitle: Option<string>, ignoreAtBoot: bool)

  /** The first rule that matched, and the device it was about ("" for none). */
  datatype Match = Match(rule: Rule, device: string)

  /** A parsed record; `early` is a time within two minutes of boot. */
  datatype Record = Record(
    num: nat, level: nat, early: bool, text: string, shape: string, match_: Option<Match>, namesBootDisk: bool)

  /** What the watcher knows of the session: counters owned by sysfs, the boot's history, the limits (0 for never). */
  datatype Site = Site(sysfs: set<string>, unexpectedReboot: bool, mceFail: nat, ceFail: nat, aerFail: nat, sataFail: nat)

  predicate EndsWith(s: string, suffix: string) {
    |suffix| <= |s| && s[|s| - |suffix|..] == suffix
  }

  function Limit(site: Site, id: string): nat {
    if id == "mce-corrected" || id == "ghes-corrected" then site.mceFail
    else if id == "edac-ce" then site.ceFail
    else if id == "aer-corrected" && "aer" !in site.sysfs then site.aerFail
    else if id == "sata-link" then site.sataFail
    else 0
  }

  predicate Owned(site: Site, rule: Rule) {
    rule.counter.Some? && rule.counter.value in site.sysfs
  }

  const DISK_RULES := ["disk-io-error", "disk-medium", "nvme-timeout", "sata-link"]
  const BERT_TITLE := "Firmware recorded the fatal hardware error that reset the machine (BERT)"
  const BOOT_DISK_TITLE := "I/O errors on the PC-Check USB boot device (USB stick/port, not the tested hardware)"

  /** Key, severity and title of a matched message. */
  function Label(site: Site, r: Record, m: Match): (string, Severity, string) {
    var rule := m.rule;
    var (key, severity, title) :=
      if r.early && rule.bootTitle.Some? then (rule.id + "-boot", WARN, rule.bootTitle.value)
      else if m.device == "" then (rule.id, rule.severity, rule.title)
      else (rule.id + ":" + m.device, rule.severity, rule.title + " (" + m.device + ")");
    if rule.id in DISK_RULES && r.namesBootDisk then ("bootdisk:" + rule.id, WARN, BOOT_DISK_TITLE)
    else if rule.id == "bert" && site.unexpectedReboot then (key, FAIL, BERT_TITLE)
    else (key, severity, title)
  }

  function CriticalEvent(r: Record): Event {
    Event(WARN, "System", "Critical kernel message", "", "", 1, None, [r.text], false)
  }

  /** The finding a matched message adds to, unless it is silent. */
  function MatchedKey(site: Site, r: Record, m: Match): string {
    if Owned(site, m.rule) && m.rule.counter.value == "throttle" then "thermal-throttle" else Label(site, r, m).0
  }

  function MatchedEvent(site: Site, r: Record, m: Match): Event {
    var (_, severity, title) := Label(site, r, m);
    Event(severity, m.rule.component, title, "", m.rule.recommendation,
          if Owned(site, m.rule) then 0 else 1, None, [r.text], false)
  }

  predicate Silent(site: Site, r: Record, rule: Rule) {
    || (r.early && rule.ignoreAtBoot)
    || (Owned(site, rule) && rule.counter.value == "edac" && rule.severity != FAIL)
  }

  /** A warning that keeps coming becomes a failure at its limit; one left over from the boot never does. */
  function Reported(items: Items, key: string, e: Event, limit: nat): Items {
    var added := AddItem(items, Named(key), e);
    if limit > 0 && e.severity == WARN && !EndsWith(key, "-boot") && added[Named(key)].count >= limit
    then EscalateItem(added, Named(key), FAIL) else added
  }

  function Processed(site: Site, items: Items, r: Record): Items {
    match r.match_
    case None =>
      if r.level <= 2 then AddItem(items, Named("kmsg-crit:" + r.shape), CriticalEvent(r)) else items
    case Some(m) =>
      if Silent(site, r, m.rule) then items
      else Reported(items, MatchedKey(site, r, m), MatchedEvent(site, r, m), Limit(site, m.rule.id))
  }

  // ---------- what a message does, told from the record and its rule alone

  /** The finding a message is named after: its rule, and the device if there is one. */
  function Place(m: Match): Key {
    Named(if m.device == "" then m.rule.id else m.rule.id + ":" + m.device)
  }

  predicate AtBoot(r: Record, m: Match) {
    r.early && m.rule.bootTitle.Some?
  }

  predicate AboutBootDisk(r: Record, m: Match) {
    && r.namesBootDisk
    && (m.rule.id == "disk-io-error" || m.rule.id == "disk-medium" || m.rule.id == "nvme-timeout" || m.rule.id == "sata-link")
  }

  /** Normal at boot, or a corrected memory error that the EDAC counters report. */
  predicate Ignored(site: Site, r: Record, m: Match) {
    || (r.early && m.rule.ignoreAtBoot)
    || (m.rule.counter == Some("edac") && "edac" in site.sysfs && m.rule.severity != FAIL)
  }

  predicate Fails(items: Items, key: Key) {
    key in items && items[key].severity == FAIL
  }

  /** Nothing is different but this finding, which is there. */
  ghost predicate Touches(before: Items, after: Items, key: Key) {
    && key in after
    && forall k | k != key :: (k in after <==> k in before) && (k in before ==> after[k] == before[k])
  }

  /** `n` warnings under this rule are a failure; the options say how many, 0 for never. */
  predicate TooMany(site: Site, id: string, n: nat) {
    || ((id == "mce-corrected" || id == "ghes-corrected") && 0 < site.mceFail <= n)
    || (id == "edac-ce" && 0 < site.ceFail <= n)
    || (id == "aer-corrected" && "aer" !in site.sysfs && 0 < site.aerFail <= n)
    || (id == "sata-link" && 0 < site.sataFail <= n)
  }

  /** A message whose finding is its rule's and device's own. */
  predicate Plain(r: Record, m: Match) {
    !AtBoot(r, m) && !AboutBootDisk(r, m) && m.rule.counter != Some("throttle")
  }

  lemma {:induction false} IgnoredIsSilent(site: Site, items: Items, r: Record)
    requires r.match_.Some? && Ignored(site, r, r.match_.value)
    ensures Processed(site, items, r) == items
  {
  }

  lemma {:induction false} DiskRulesAre(r: Record, m: Match)
    ensures AboutBootDisk(r, m) <==> m.rule.id in DISK_RULES && r.namesBootDisk
  {
  }

  lemma {:induction false} LimitIsReachedIff(site: Site, id: string, n: nat)
    ensures 0 < Limit(site, id) <= n <==> TooMany(site, id, n)
  {
  }

  /** A plain message adds one to its own finding, unless sysfs counts, and to no other; a new one has its rule's severity. */
  lemma {:induction false} PlainMessage(site: Site, items: Items, r: Record)
    requires r.match_.Some?
    requires Plain(r, r.match_.value) && !Ignored(site, r, r.match_.value)
    ensures var (m, key, after) := (r.match_.value, Place(r.match_.value), Processed(site, items, r));
      && Touches(items, after, key)
      && (m.rule.id != "bert" && key !in items && !TooMany(site, m.rule.id, 1) ==> after[key].severity == m.rule.severity)
      && var owned := m.rule.counter.Some? && m.rule.counter.value in site.sysfs;
         after[key].count == if key !in items then 1 else if owned then items[key].count else items[key].count + 1
  {
    var m := r.match_.value;
    DiskRulesAre(r, m);
    LimitIsReachedIff(site, m.rule.id, 1);
  }

  lemma {:induction false} OtherPlaces(m: Match)
    ensures Named(m.rule.id + "-boot") != Place(m)
    ensures ':' !in m.rule.id ==> forall rest :: Named(m.rule.id + "-boot") != Named("bootdisk:" + rest)
  {
    var text, n := m.rule.id + "-boot", |m.rule.id|;
    assert text[n] == '-' && |text| > n;
    if m.device != "" {
      assert (m.rule.id + ":" + m.device)[n] == ':';
    }
    forall rest | text == "bootdisk:" + rest ensures ':' in m.rule.id {
      assert text[8] == ':';
      assert forall i | n <= i < |text| :: text[i] == "-boot"[i - n];
      assert m.rule.id[8] == ':';
    }
  }

  lemma {:induction false} BootDiskPlace(r: Record, m: Match)
    requires AboutBootDisk(r, m)
    ensures Named("bootdisk:" + m.rule.id) != Place(m)
  {
    assert ("bootdisk:" + m.rule.id)[0] == 'b' && m.rule.id[0] != 'b';
  }

  lemma {:induction false} PlaceOffBootDisk(m: Match, rest: string)
    requires ':' !in m.rule.id && m.rule.id != "bootdisk"
    ensures Place(m) != Named("bootdisk:" + rest)
  {
    var text, n := "bootdisk:" + rest, |m.rule.id|;
    assert text[8] == ':' && text[8] in text && text[..8] == "bootdisk";
    if m.device != "" {
      var place := m.rule.id + ":" + m.device;
      assert place[n] == ':' && place[..n] == m.rule.id;
      if n < 8 {
        assert text[n] == "bootdisk"[n];
      } else if n > 8 {
        assert place[8] == m.rule.id[8] && m.rule.id[8] in m.rule.id;
      }
    }
  }

  /**
   A message of a rule that fails does fail its rule's and device's finding, unless it is
   normal at boot, only left over from the boot, or about the disk the system runs from.
   */
  lemma {:induction false} FailingRuleFailsIff(site: Site, items: Items, r: Record)
    requires r.match_.Some? && r.match_.value.rule.severity == FAIL && r.match_.value.rule.counter != Some("throttle")
    ensures var (m, key) := (r.match_.value, Place(r.match_.value));
      Fails(Processed(site, items, r), key) <==>
        Fails(items, key) || (!(r.early && m.rule.ignoreAtBoot) && !AtBoot(r, m) && !AboutBootDisk(r, m))
  {
    var m := r.match_.value;
    DiskRulesAre(r, m);
    OtherPlaces(m);
    if AboutBootDisk(r, m) {
      BootDiskPlace(r, m);
    }
  }

  /** A warning fails its finding exactly if it is one too many for its rule. */
  lemma {:induction false} WarningFailsIff(site: Site, items: Items, r: Record)
    requires r.match_.Some? && r.match_.value.rule.severity == WARN
    requires r.match_.value.rule.id != "bert" || !site.unexpectedReboot
    requires Plain(r, r.match_.value) && !Ignored(site, r, r.match_.value)
    ensures var (m, key, after) := (r.match_.value, Place(r.match_.value), Processed(site, items, r));
      Fails(after, key) <==>
        Fails(items, key) || (!EndsWith(key.text, "-boot") && key in after && TooMany(site, m.rule.id, after[key].count))
  {
    var m, key, after := r.match_.value, Place(r.match_.value), Processed(site, items, r);
    DiskRulesAre(r, m);
    LimitIsReachedIff(site, m.rule.id, if key in after then after[key].count else 0);
  }

  /** Whatever a warning is about, it fails no finding otherwise, and none at all when it is left over from the boot. */
  lemma {:induction false} WarningFailsOnlyByNumber(site: Site, items: Items, r: Record, key: Key)
    requires r.match_.Some? && r.match_.value.rule.severity == WARN
    requires r.match_.value.rule.id != "bert" || !site.unexpectedReboot
    requires Fails(Processed(site, items, r), key) && !Fails(items, key)
    ensures TooMany(site, r.match_.value.rule.id, Processed(site, items, r)[key].count)
    ensures !AtBoot(r, r.match_.value) || AboutBootDisk(r, r.match_.value) || r.match_.value.rule.counter.Some?
  {
    DiskRulesAre(r, r.match_.value);
    LimitIsReachedIff(site, r.match_.value.rule.id, Processed(site, items, r)[key].count);
    assert AtBoot(r, r.match_.value) ==> EndsWith(r.match_.value.rule.id + "-boot", "-boot");
  }

  /** A rule that only informs never makes a finding worse. */
  lemma {:induction false} InformingRuleNeverFails(site: Site, items: Items, r: Record)
    requires r.match_.Some? && r.match_.value.rule.severity == INFO && r.match_.value.rule.bootTitle.None?
    requires r.match_.value.rule.id != "bert" && !AboutBootDisk(r, r.match_.value)
    ensures forall k | k in items :: k in Processed(site, items, r) && Processed(site, items, r)[k].severity == items[k].severity
    ensures forall k | k in Processed(site, items, r) && k !in items :: Processed(site, items, r)[k].severity == INFO
  {
    DiskRulesAre(r, r.match_.value);
  }

  /** The findings about the boot disk are for messages that name it under a disk rule, and those touch no other finding. */
  lemma {:induction false} BootDiskMessage(site: Site, items: Items, r: Record, rest: string)
    requires r.match_.Some? && ':' !in r.match_.value.rule.id && r.match_.value.rule.id != "bootdisk"
    ensures var (m, key, after) := (r.match_.value, Named("bootdisk:" + rest), Processed(site, items, r));
      && (!AboutBootDisk(r, m) ==> (key in after <==> key in items) && (key in items ==> after[key] == items[key]))
      && (AboutBootDisk(r, m) && !Ignored(site, r, m) && m.rule.counter.None? && rest == m.rule.id ==>
            && Touches(items, after, key)
            && (Fails(after, key) <==> Fails(items, key) || (!EndsWith(key.text, "-boot") && TooMany(site, m.rule.id, after[key].count))))
  {
    var m := r.match_.value;
    DiskRulesAre(r, m);
    if AboutBootDisk(r, m) {
      forall n: nat ensures 0 < Limit(site, m.rule.id) <= n <==> TooMany(site, m.rule.id, n) {
        LimitIsReachedIff(site, m.rule.id, n);
      }
    } else {
      PlaceOffBootDisk(m, rest);
      OtherPlaces(m);
      assert ("bootdisk:" + rest)[0] == 'b';
    }
  }

  /** After a reset that nothing announced, a record the firmware kept from before it is a failure. */
  lemma {:induction false} BertFailsAfterReset(site: Site, items: Items, r: Record)
    requires r.match_.Some? && r.match_.value.rule.id == "bert" && Plain(r, r.match_.value)
    requires !Ignored(site, r, r.match_.value) && r.match_.value.rule.severity == WARN
    ensures var (key, after) := (Place(r.match_.value), Processed(site, items, r));
      Touches(items, after, key) && (Fails(after, key) <==> Fails(items, key) || site.unexpectedReboot)
  {
    var m := r.match_.value;
    DiskRulesAre(r, m);
    assert Limit(site, m.rule.id) == 0;
  }

  /** A message left over from the boot, of a rule with a title for that, touches that rule's finding for the boot alone. */
  lemma {:induction false} BootMessage(site: Site, items: Items, r: Record)
    requires r.match_.Some? && AtBoot(r, r.match_.value) && !AboutBootDisk(r, r.match_.value)
    requires !Ignored(site, r, r.match_.value) && r.match_.value.rule.counter.None? && r.match_.value.rule.id != "bert"
    ensures var (key, after) := (Named(r.match_.value.rule.id + "-boot"), Processed(site, items, r));
      && Touches(items, after, key)
      && (key !in items ==> after[key].severity == WARN && after[key].title == r.match_.value.rule.bootTitle.value)
  {
    DiskRulesAre(r, r.match_.value);
    assert EndsWith(r.match_.value.rule.id + "-boot", "-boot");
  }

  /** Throttling that sysfs counts is one finding for all CPUs, which text never adds to once it is there. */
  lemma {:induction false} ThrottlingMessage(site: Site, items: Items, r: Record)
    requires r.match_.Some? && !Ignored(site, r, r.match_.value) && r.match_.value.rule.severity == WARN
    requires r.match_.value.rule.counter == Some("throttle") && "throttle" in site.sysfs
    requires r.match_.value.rule.id != "bert"
    ensures var (key, after) := (Named("thermal-throttle"), Processed(site, items, r));
      && Touches(items, after, key)
      && after[key].count == if key in items then items[key].count else 1
  {
  }

  /** A message that no rule knows is a warning exactly if it is at least critical. */
  lemma {:induction false} UnmatchedMessage(site: Site, items: Items, r: Record)
    requires r.match_.None?
    ensures var (key, after) := (Named("kmsg-crit:" + r.shape), Processed(site, items, r));
      if r.level > 2 then after == items
      else Touches(items, after, key) && (key !in items ==> after[key].severity == WARN && after[key].count == 1)
  {
  }

  // ---------- what the loop makes of the reads

  datatype Input = Data(record: Record) | Malformed | NothingYet | EndOfFile(late: bool) | Overrun | ReadError

  const BATCH := 200

  /** The progress of one run: the accepted records, how many are in the log, and the two positions. */
  datatype Stream = Stream(accepted: seq<Record>, flushed: nat, cursor: int, last: int)

  function Opened(cursor: int): Stream {
    Stream([], 0, cursor, cursor)
  }

  function Flush(s: Stream): Stream {
    if s.flushed < |s.accepted| then s.(flushed := |s.accepted|, cursor := s.last) else s
  }

  /** Fewer than a batch of accepted records waits to be written. */
  predicate Bounded(s: Stream) {
    s.flushed <= |s.accepted| < s.flushed + BATCH
  }

  function Fed(s: Stream, i: Input): (s': Stream)
    requires Bounded(s)
    ensures Bounded(s')
  {
    match i
    case Data(r) =>
      if r.num <= s.last then s
      else
        var s' := s.(accepted := s.accepted + [r], last := r.num);
        if |s'.accepted| - s'.flushed < BATCH then s' else Flush(s')
    case NothingYet => Flush(s)
    case EndOfFile(late) => if late then Flush(s) else s
    case _ => s
  }

  function After(cursor: int, inputs: seq<Input>): (s: Stream)
    ensures Bounded(s)
  {
    if inputs == [] then Opened(cursor) else Fed(After(cursor, inputs[..|inputs| - 1]), inputs[|inputs| - 1])
  }

  const OVERRUN := Event(WARN, "Test", "Kernel log overflowed; hardware error messages may be missing", "", "", 1, None, [], true)

  function Noticed(site: Site, items: Items, s: Stream, i: Input): Items {
    match i
    case Data(r) => if r.num <= s.last then items else Processed(site, items, r)
    case Overrun => AddItem(items, Named("kmsg-overrun"), OVERRUN)
    case _ => items
  }

  function NoticedAll(site: Site, items: Items, cursor: int, inputs: seq<Input>): Items {
    if inputs == [] then items
    else
      var front := inputs[..|inputs| - 1];
      Noticed(site, NoticedAll(site, items, cursor, front), After(cursor, front), inputs[|inputs| - 1])
  }

  // ---------- nothing accepted goes unnoticed

  lemma {:induction false} NoticingNeverImproves(site: Site, items: Items, s: Stream, i: Input)
    ensures NoBetter(items, Noticed(site, items, s, i))
  {
    if i.Data? && i.record.match_.Some? {
      var m := i.record.match_.value;
      ReportedNeverImproves(items, MatchedKey(site, i.record, m), MatchedEvent(site, i.record, m), Limit(site, m.rule.id));
    }
  }

  lemma {:induction false} ReportedNeverImproves(items: Items, key: string, e: Event, limit: nat)
    ensures NoBetter(items, Reported(items, key, e, limit))
  {
  }

  lemma {:induction false} StillBad(a: Items, b: Items, key: Key)
    requires NoBetter(a, b)
    ensures Fails(a, key) ==> Fails(b, key)
    ensures AnyIncomplete(a) ==> AnyIncomplete(b)
  {
    if AnyIncomplete(a) {
      var k :| k in a && a[k].incomplete;
      assert b[k].incomplete;
    }
  }

  /** If the kernel's buffer was ever overwritten before it was read, the session is incomplete. */
  lemma {:induction false} OverrunLeavesIncomplete(site: Site, items: Items, cursor: int, inputs: seq<Input>)
    requires Overrun in inputs
    ensures AnyIncomplete(NoticedAll(site, items, cursor, inputs))
  {
    var front, last := inputs[..|inputs| - 1], inputs[|inputs| - 1];
    var before := NoticedAll(site, items, cursor, front);
    if last == Overrun {
      assert NoticedAll(site, items, cursor, inputs)[Named("kmsg-overrun")].incomplete;
    } else {
      assert Overrun in front;
      OverrunLeavesIncomplete(site, items, cursor, front);
      NoticingNeverImproves(site, before, After(cursor, front), last);
      StillBad(before, Noticed(site, before, After(cursor, front), last), Named(""));
    }
  }

  /** Every accepted record of a failing rule has failed its finding, whatever came with it. */
  lemma {:induction false} AcceptedFailureFails(site: Site, items: Items, cursor: int, inputs: seq<Input>, r: Record)
    requires r in After(cursor, inputs).accepted && r.match_.Some?
    requires var m := r.match_.value;
      && m.rule.severity == FAIL && m.rule.counter != Some("throttle")
      && !(r.early && m.rule.ignoreAtBoot) && !AtBoot(r, m) && !AboutBootDisk(r, m)
    ensures Fails(NoticedAll(site, items, cursor, inputs), Place(r.match_.value))
  {
    var front, last := inputs[..|inputs| - 1], inputs[|inputs| - 1];
    var s, before := After(cursor, front), NoticedAll(site, items, cursor, front);
    if r in s.accepted {
      AcceptedFailureFails(site, items, cursor, front, r);
      NoticingNeverImproves(site, before, s, last);
      StillBad(before, Noticed(site, before, s, last), Place(r.match_.value));
    } else {
      assert last == Data(r) && r.num > s.last;
      FailingRuleFailsIff(site, before, r);
    }
  }

  class KmsgMonitor {
    const site: Site
    var items: Items
    var log: seq<Record>
    var cursor: int
    var pending: seq<Record>
    var lastSeq: int

    constructor (site: Site, items: Items, log: seq<Record>, cursor: int)
      ensures this.site == site && this.items == items && this.log == log && this.cursor == cursor
    {
      this.site, this.items, this.log, this.cursor := site, items, log, cursor;
      pending, lastSeq := [], cursor;
    }

    method Process(r: Record)
      modifies this`items
      ensures items == Processed(site, old(items), r)
    {
      if r.match_.None? {
        if r.level <= 2 {
          items := AddItem(items, Named("kmsg-crit:" + r.shape), CriticalEvent(r));
        }
        return;
      }
      var rule, device := r.match_.value.rule, r.match_.value.device;
      if r.early && rule.ignoreAtBoot {
        return;
      }
      var key, title, severity := rule.id, rule.title, rule.severity;
      if device != "" {
        key, title := rule.id + ":" + device, title + " (" + device + ")";
      }
      if r.early && rule.bootTitle.Some? {
        key, title, severity := rule.id + "-boot", rule.bootTitle.value, WARN;
      }
      if rule.id == "bert" && site.unexpectedReboot {
        severity, title := FAIL, BERT_TITLE;
      }
      if rule.id in DISK_RULES && r.namesBootDisk {
        key, severity, title := "bootdisk:" + rule.id, WARN, BOOT_DISK_TITLE;
      }
      var count := 1;
      if rule.counter.Some? && rule.counter.value in site.sysfs {
        count := 0;
        if rule.counter.value == "edac" && rule.severity != FAIL {
          return;
        }
        if rule.counter.value == "throttle" {
          key := "thermal-throttle";
        }
      }
      var event := Event(severity, rule.component, title, "", rule.recommendation, count, None, [r.text], false);
      assert (key, event) == (MatchedKey(site, r, r.match_.value), MatchedEvent(site, r, r.match_.value));
      Report(key, event, Limit(site, rule.id));
    }

    method Report(key: string, e: Event, limit: nat)
      modifies this`items
      ensures items == Reported(old(items), key, e, limit)
    {
      items := AddItem(items, Named(key), e);
      if limit > 0 && e.severity == WARN && !EndsWith(key, "-boot") && items[Named(key)].count >= limit {
        items := EscalateItem(items, Named(key), FAIL);
      }
    }

    /** The fields show the progress `s` of a run that found `before` in the log. */
    ghost predicate Follows(s: Stream, before: seq<Record>)
      reads this
    {
      && Bounded(s) && pending == s.accepted[s.flushed..] && cursor == s.cursor && lastSeq == s.last
      && log == before + s.accepted[..s.flushed]
    }

    /** A new record waits for the next batch and is classified at once. */
    method Accept(r: Record)
      modifies this`items, this`pending, this`lastSeq
      ensures lastSeq == r.num && pending == old(pending) + [r] && items == Processed(site, old(items), r)
    {
      lastSeq := r.num;
      pending := pending + [r];
      Process(r);
    }

    /** The loop's body: what one read leads to. */
    method Handle(i: Input, ghost s: Stream, ghost before: seq<Record>) returns (ghost next: Stream)
      requires Follows(s, before)
      modifies this
      ensures next == Fed(s, i) && Follows(next, before)
      ensures items == Noticed(site, old(items), s, i)
    {
      next := Fed(s, i);
      FedExtends(s, i);
      match i {
        case Data(r) =>
          if r.num > lastSeq {
            Accept(r);
            assert pending == (s.accepted + [r])[s.flushed..];
          }
        case Overrun =>
          items := AddItem(items, Named("kmsg-overrun"), OVERRUN);
        case _ =>
      }
      if pending != [] && (i.NothingYet? || |pending| >= BATCH || (i.EndOfFile? && i.late)) {
        log := log + pending;
        pending := [];
        cursor := lastSeq;
      }
    }

    /**
     One life of the watcher over what its reads returned. It ends by a stop request, which
     writes the rest of the batch without moving the cursor, or because the process dies.
     */
    method Run(inputs: seq<Input>, killed: bool)
      modifies this
      ensures var s := After(old(cursor), inputs);
        && log == old(log) + s.accepted[..if killed then s.flushed else |s.accepted|]
        && cursor == s.cursor
      ensures items == NoticedAll(site, old(items), old(cursor), inputs)
    {
      lastSeq, pending := cursor, [];
      ghost var s, before := Opened(cursor), log;
      assert inputs[..0] == [];
      for i := 0 to |inputs|
        invariant s == After(old(cursor), inputs[..i]) && Follows(s, before)
        invariant items == NoticedAll(site, old(items), old(cursor), inputs[..i])
      {
        assert inputs[..i + 1][..i] == inputs[..i];
        s := Handle(inputs[i], s, before);
      }
      assert inputs[..|inputs|] == inputs;
      if !killed {
        log := log + pending;
      }
    }
  }

  /** Acceptance and writing only ever add at the end. */
  lemma {:induction false} FedExtends(s: Stream, i: Input)
    requires Bounded(s)
    ensures var s' := Fed(s, i);
      && s.accepted <= s'.accepted && s.flushed <= s'.flushed
      && s'.accepted[..s'.flushed] == s.accepted[..s.flushed] + s'.accepted[s.flushed..s'.flushed]
  {
  }

  // ---------- what the log holds, for any reads

  /** The accepted records are new, in order and distinct, and the cursor is the last of those written. */
  ghost predicate Faithful(cursor: int, s: Stream) {
    && Bounded(s)
    && (forall i, j | 0 <= i < j < |s.accepted| :: s.accepted[i].num < s.accepted[j].num)
    && (forall i | 0 <= i < |s.accepted| :: cursor < s.accepted[i].num <= s.last)
    && s.last == (if s.accepted == [] then cursor else s.accepted[|s.accepted| - 1].num)
    && s.cursor == (if s.flushed == 0 then cursor else s.accepted[s.flushed - 1].num)
  }

  lemma {:induction false} FedKeepsFaithful(cursor: int, s: Stream, i: Input)
    requires Faithful(cursor, s)
    ensures Faithful(cursor, Fed(s, i))
  {
  }

  /**
   Whatever the reads return, one life takes each record once, in increasing order, never
   more than a batch late; and the cursor is exactly the last record written, so it never
   runs ahead of the log.
   */
  lemma {:induction false} StreamIsFaithful(cursor: int, inputs: seq<Input>)
    ensures Faithful(cursor, After(cursor, inputs))
  {
    if inputs == [] {
    } else {
      StreamIsFaithful(cursor, inputs[..|inputs| - 1]);
      FedKeepsFaithful(cursor, After(cursor, inputs[..|inputs| - 1]), inputs[|inputs| - 1]);
    }
  }

  lemma {:induction false} PrefixIsWritten(cursor: int, inputs: seq<Input>, k: nat)
    requires k <= |inputs|
    ensures var early, late := After(cursor, inputs[..k]), After(cursor, inputs);
      early.accepted <= late.accepted && early.flushed <= late.flushed
    decreases |inputs|
  {
    if k == |inputs| {
      assert inputs[..k] == inputs;
    } else {
      var front := inputs[..|inputs| - 1];
      PrefixIsWritten(cursor, front, k);
      assert front[..k] == inputs[..k];
      FedExtends(After(cursor, front), inputs[|inputs| - 1]);
    }
  }

  // ---------- the kernel's side

  /** The kernel numbers its records; None is a record whose header cannot be parsed. */
  type Kernel = nat -> Option<Record>

  ghost predicate Numbered(kernel: Kernel) {
    forall n | kernel(n).Some? :: kernel(n).value.num == n
  }

  /** A read finds records `oldest` up to but excluding `next` in the ring buffer, or something else happens. */
  datatype Instant = Buffer(oldest: nat, next: nat) | ReadFails | ReadsNothing(late: bool)

  function Moved(at: nat, i: Instant): nat {
    match i
    case Buffer(oldest, next) => if at < oldest then oldest else if at < next then at + 1 else at
    case _ => at
  }

  function Position(open: nat, instants: seq<Instant>): nat {
    if instants == [] then open else Moved(Position(open, instants[..|instants| - 1]), instants[|instants| - 1])
  }

  /** The device's contract: overwritten records are reported once and skipped, every other record comes in turn. */
  function ReadAt(kernel: Kernel, at: nat, i: Instant): Input {
    match i
    case Buffer(oldest, next) =>
      if at < oldest then Overrun
      else if at < next then (match kernel(at) case None => Malformed case Some(r) => Data(r))
      else NothingYet
    case ReadFails => ReadError
    case ReadsNothing(late) => EndOfFile(late)
  }

  function Reads(kernel: Kernel, open: nat, instants: seq<Instant>): (inputs: seq<Input>)
    ensures |inputs| == |instants|
  {
    if instants == [] then []
    else
      var front := instants[..|instants| - 1];
      Reads(kernel, open, front) + [ReadAt(kernel, Position(open, front), instants[|instants| - 1])]
  }

  /** No record at or after `oldest` had been overwritten at any of these reads. */
  ghost predicate KeptFrom(instants: seq<Instant>, oldest: nat) {
    forall i | 0 <= i < |instants| && instants[i].Buffer? :: instants[i].oldest <= oldest
  }

  lemma {:induction false} ReadsOfPrefix(kernel: Kernel, open: nat, instants: seq<Instant>, k: nat)
    requires k <= |instants|
    ensures Reads(kernel, open, instants)[..k] == Reads(kernel, open, instants[..k])
    decreases |instants|
  {
    if k == |instants| {
      assert instants[..k] == instants;
    } else {
      var front := instants[..|instants| - 1];
      ReadsOfPrefix(kernel, open, front, k);
      assert front[..k] == instants[..k];
    }
  }

  /**
   A record the buffer still holds and the reader is past has been accepted, unless the cursor was past it
   already.
   */
  ghost predicate Caught(kernel: Kernel, cursor: int, s: Stream, at: nat, oldest: nat) {
    && Bounded(s) && (s.last == cursor || s.last < at)
    && forall n | oldest <= n < at && cursor < n && kernel(n).Some? :: kernel(n).value in s.accepted
  }

  lemma {:induction false} ReadKeepsCaught(kernel: Kernel, cursor: int, s: Stream, at: nat, oldest: nat, i: Instant)
    requires Numbered(kernel) && Caught(kernel, cursor, s, at, oldest)
    requires i.Buffer? ==> i.oldest <= oldest
    ensures Caught(kernel, cursor, Fed(s, ReadAt(kernel, at, i)), Moved(at, i), oldest)
  {
    var read := ReadAt(kernel, at, i);
    var s' := Fed(s, read);
    FedExtends(s, read);
    if read.Data? && s.last < at {
      assert s'.accepted == s.accepted + [kernel(at).value];
    }
    forall n | oldest <= n < Moved(at, i) && cursor < n && kernel(n).Some?
      ensures kernel(n).value in s'.accepted
    {
      if n < at {
        assert kernel(n).value in s.accepted;
      }
    }
  }

  lemma {:induction false} NothingIsSkipped(kernel: Kernel, cursor: int, open: nat, instants: seq<Instant>, oldest: nat)
    requires Numbered(kernel) && KeptFrom(instants, oldest) && open <= oldest
    ensures Caught(kernel, cursor, After(cursor, Reads(kernel, open, instants)), Position(open, instants), oldest)
  {
    if instants == [] {
    } else {
      var front := instants[..|instants| - 1];
      NothingIsSkipped(kernel, cursor, open, front, oldest);
      var inputs := Reads(kernel, open, instants);
      assert inputs[..|inputs| - 1] == Reads(kernel, open, front);
      ReadKeepsCaught(kernel, cursor, After(cursor, Reads(kernel, open, front)), Position(open, front), oldest,
                      instants[|instants| - 1]);
    }
  }

  // ---------- restarts on one boot

  /**
   One life on a boot: the reads, how it ended, how much of it the last save of the session
   covered, and the oldest record still in the buffer by its end.
   */
  datatype Life = Life(instants: seq<Instant>, open: nat, killed: bool, saved: nat, oldest: nat)

  datatype Kept = Kept(log: seq<Record>, cursor: int)

  /** Lives follow each other; a life opens the device at the oldest record of the moment. */
  ghost predicate InTurn(lives: seq<Life>) {
    && (forall i | 0 <= i < |lives| ::
          lives[i].saved <= |lives[i].instants| && KeptFrom(lives[i].instants, lives[i].oldest) && lives[i].open <= lives[i].oldest)
    && (forall i | 0 < i < |lives| :: lives[i - 1].oldest <= lives[i].open)
  }

  /** What a life writes: the records flushed, and the rest unless it is killed. */
  function Written(kernel: Kernel, cursor: int, l: Life): seq<Record> {
    var s := After(cursor, Reads(kernel, l.open, l.instants));
    s.accepted[..if l.killed then s.flushed else |s.accepted|]
  }

  /** The log and the saved cursor after some lives; a boot starts with no cursor. */
  function Lived(kernel: Kernel, lives: seq<Life>): Kept {
    if lives == [] then Kept([], -1)
    else
      var before, l := Lived(kernel, lives[..|lives| - 1]), lives[|lives| - 1];
      var inputs := Reads(kernel, l.open, l.instants);
      Kept(before.log + Written(kernel, before.cursor, l),
           After(before.cursor, if l.saved <= |inputs| then inputs[..l.saved] else inputs).cursor)
  }

  lemma {:induction false} PositionGrows(open: nat, instants: seq<Instant>, k: nat)
    requires k <= |instants|
    ensures open <= Position(open, instants[..k]) <= Position(open, instants)
    decreases |instants|
  {
    if k == |instants| {
      assert instants[..k] == instants;
      if k > 0 {
        PositionGrows(open, instants[..k - 1], k - 1);
        assert instants[..k - 1][..k - 1] == instants[..k - 1];
      }
    } else {
      var front := instants[..|instants| - 1];
      PositionGrows(open, front, k);
      assert front[..k] == instants[..k];
    }
  }

  lemma {:induction false} BehindCursorIsFlushed(cursor: int, s: Stream, r: Record)
    requires Faithful(cursor, s) && r in s.accepted && cursor < r.num <= s.cursor
    ensures r in s.accepted[..s.flushed]
  {
    var k :| 0 <= k < |s.accepted| && s.accepted[k] == r;
    assert k < s.flushed;
    assert s.accepted[..s.flushed][k] == r;
  }

  /** Records behind the saved cursor were written by this life or lie behind the cursor it started from. */
  lemma {:induction false} SavedIsWritten(kernel: Kernel, cursor: int, l: Life, n: nat)
    requires Numbered(kernel) && KeptFrom(l.instants, l.oldest) && l.open <= l.oldest && l.saved <= |l.instants|
    requires l.oldest <= n && cursor < n && kernel(n).Some?
    requires n <= After(cursor, Reads(kernel, l.open, l.instants)[..l.saved]).cursor
    ensures var s := After(cursor, Reads(kernel, l.open, l.instants)); kernel(n).value in s.accepted[..s.flushed]
  {
    var inputs, part := Reads(kernel, l.open, l.instants), l.instants[..l.saved];
    ReadsOfPrefix(kernel, l.open, l.instants, l.saved);
    var early, s := After(cursor, inputs[..l.saved]), After(cursor, inputs);
    StreamIsFaithful(cursor, inputs[..l.saved]);
    NothingIsSkipped(kernel, cursor, l.open, part, l.oldest);
    PrefixIsWritten(cursor, inputs, l.saved);
    var r := kernel(n).value;
    assert r in early.accepted && r.num == n;
    BehindCursorIsFlushed(cursor, early, r);
    var k :| 0 <= k < early.flushed && early.accepted[k] == r;
    assert s.accepted[..s.flushed][k] == r;
  }

  /** The saved cursor never runs ahead of the log, over any lives of one boot. */
  lemma {:induction false} CursorNeverAheadOfLog(kernel: Kernel, lives: seq<Life>)
    requires Numbered(kernel) && InTurn(lives)
    ensures var kept := Lived(kernel, lives);
      forall n: nat | kernel(n).Some? && n <= kept.cursor && (lives == [] || lives[|lives| - 1].oldest <= n) ::
        kernel(n).value in kept.log
  {
    if lives == [] {
    } else {
      var front, l := lives[..|lives| - 1], lives[|lives| - 1];
      CursorNeverAheadOfLog(kernel, front);
      var before, kept := Lived(kernel, front), Lived(kernel, lives);
      forall n: nat | kernel(n).Some? && n <= kept.cursor && l.oldest <= n
        ensures kernel(n).value in kept.log
      {
        if n <= before.cursor {
          assert front == [] || front[|front| - 1].oldest <= n;
          assert kernel(n).value in before.log;
        } else {
          SavedIsWritten(kernel, before.cursor, l, n);
        }
      }
    }
  }

  /**
   However often the watcher was killed or stopped before on this boot: once a life ends by
   a stop request, no record it read past and the buffer still holds is missing from the log.
   */
  lemma {:induction false} RestartMissesNothing(kernel: Kernel, lives: seq<Life>)
    requires Numbered(kernel) && InTurn(lives) && lives != [] && !lives[|lives| - 1].killed
    ensures var l := lives[|lives| - 1];
      forall n | l.oldest <= n < Position(l.open, l.instants) && kernel(n).Some? ::
        kernel(n).value in Lived(kernel, lives).log
  {
    var front, l := lives[..|lives| - 1], lives[|lives| - 1];
    var before := Lived(kernel, front);
    CursorNeverAheadOfLog(kernel, front);
    NothingIsSkipped(kernel, before.cursor, l.open, l.instants, l.oldest);
    forall n | l.oldest <= n < Position(l.open, l.instants) && kernel(n).Some?
      ensures kernel(n).value in Lived(kernel, lives).log
    {
      if n <= before.cursor {
        assert front == [] || front[|front| - 1].oldest <= n;
        assert kernel(n).value in before.log;
      }
    }
  }

  // ---------- when a record is logged twice

  /** The reads up to the last flush of a life, or all of them. */
  function LastFlush(cursor: int, inputs: seq<Input>): (k: nat)
    ensures k <= |inputs|
    ensures var early, late := After(cursor, inputs[..k]), After(cursor, inputs);
      early.flushed == late.flushed && early.accepted == late.accepted[..late.flushed]
  {
    if inputs == [] then 0
    else
      var front := inputs[..|inputs| - 1];
      FedExtends(After(cursor, front), inputs[|inputs| - 1]);
      if After(cursor, inputs).flushed == After(cursor, front).flushed then
        var k := LastFlush(cursor, front);
        assert front[..k] == inputs[..k];
        k
      else
        assert inputs[..|inputs|] == inputs;
        |inputs|
  }

  /** The reads of a life whose records it writes, if they are new to it. */
  function ReadForGood(kernel: Kernel, cursor: int, l: Life): seq<Input> {
    var inputs := Reads(kernel, l.open, l.instants);
    if l.killed then inputs[..LastFlush(cursor, inputs)] else inputs
  }

  /** Reads come in the order of the kernel's numbers. */
  lemma {:induction false} ReadsAreInOrder(kernel: Kernel, open: nat, instants: seq<Instant>, r: Record)
    requires Numbered(kernel) && Data(r) in Reads(kernel, open, instants)
    ensures r.num < Position(open, instants) && kernel(r.num) == Some(r)
  {
    var front, inputs := instants[..|instants| - 1], Reads(kernel, open, instants);
    PositionGrows(open, instants, |front|);
    var read := ReadAt(kernel, Position(open, front), instants[|instants| - 1]);
    assert inputs == Reads(kernel, open, front) + [read];
    if Data(r) in Reads(kernel, open, front) {
      ReadsAreInOrder(kernel, open, front, r);
    } else {
      assert read == Data(r);
    }
  }

  /** The loop accepts exactly the records read that lie above the cursor it started from. */
  lemma {:induction false} AcceptedIffRead(kernel: Kernel, cursor: int, open: nat, instants: seq<Instant>, r: Record)
    requires Numbered(kernel)
    ensures var inputs := Reads(kernel, open, instants); var s := After(cursor, inputs);
      && cursor <= s.last && (s.last == cursor || s.last < Position(open, instants))
      && (r in s.accepted <==> Data(r) in inputs && cursor < r.num)
  {
    if instants == [] {
    } else {
      var front, inputs := instants[..|instants| - 1], Reads(kernel, open, instants);
      var s, at := After(cursor, Reads(kernel, open, front)), Position(open, front);
      var i := ReadAt(kernel, at, instants[|instants| - 1]);
      AcceptedIffRead(kernel, cursor, open, front, r);
      assert inputs == Reads(kernel, open, front) + [i] && inputs[..|inputs| - 1] == Reads(kernel, open, front);
      AcceptedOfLonger(s, i, r);
      NewestRead(kernel, cursor, s, at, instants[|instants| - 1]);
    }
  }

  lemma {:induction false} NewestRead(kernel: Kernel, cursor: int, s: Stream, at: nat, i: Instant)
    requires Numbered(kernel) && Bounded(s) && cursor <= s.last && (s.last == cursor || s.last < at)
    ensures var read := ReadAt(kernel, at, i); var s' := Fed(s, read);
      && cursor <= s'.last && (s'.last == cursor || s'.last < Moved(at, i))
      && (read.Data? ==> (s.last < read.record.num <==> cursor < read.record.num))
  {
  }

  lemma {:induction false} AcceptedOfLonger(s: Stream, i: Input, r: Record)
    requires Bounded(s)
    ensures r in Fed(s, i).accepted <==> r in s.accepted || (i == Data(r) && s.last < r.num)
  {
    if i.Data? && i.record.num > s.last {
      assert Fed(s, i).accepted == s.accepted + [i.record];
    }
  }

  lemma {:induction false} WrittenIffRead(kernel: Kernel, cursor: int, l: Life, r: Record)
    requires Numbered(kernel)
    ensures r in Written(kernel, cursor, l) <==> Data(r) in ReadForGood(kernel, cursor, l) && cursor < r.num
  {
    var inputs := Reads(kernel, l.open, l.instants);
    var s := After(cursor, inputs);
    if l.killed {
      var k := LastFlush(cursor, inputs);
      ReadsOfPrefix(kernel, l.open, l.instants, k);
      AcceptedIffRead(kernel, cursor, l.open, l.instants[..k], r);
    } else {
      AcceptedIffRead(kernel, cursor, l.open, l.instants, r);
      assert s.accepted[..|s.accepted|] == s.accepted;
    }
  }

  /** A life reads for good a record above the saved cursor that is in the log already. */
  ghost predicate Rereads(kernel: Kernel, before: Kept, l: Life) {
    exists r :: r in before.log && before.cursor < r.num && Data(r) in ReadForGood(kernel, before.cursor, l)
  }

  lemma {:induction false} WrittenOnce(kernel: Kernel, cursor: int, l: Life)
    ensures NoDuplicates(Written(kernel, cursor, l))
  {
    StreamIsFaithful(cursor, Reads(kernel, l.open, l.instants));
  }

  lemma {:induction false} JoinedWithoutDuplicates<T>(a: seq<T>, b: seq<T>)
    ensures NoDuplicates(a + b) <==> NoDuplicates(a) && NoDuplicates(b) && forall x | x in a :: x !in b
  {
    var c := a + b;
    assert forall i | 0 <= i < |a| :: c[i] == a[i];
    assert forall i | 0 <= i < |b| :: c[|a| + i] == b[i];
    if NoDuplicates(a) && NoDuplicates(b) && forall x | x in a :: x !in b {
      forall i, j | 0 <= i < j < |c| ensures c[i] != c[j] {
        if i < |a| <= j {
          assert c[i] in a && c[j] == b[j - |a|] && c[j] in b;
        } else if |a| <= i {
          assert c[i] == b[i - |a|] && c[j] == b[j - |a|];
        }
      }
    }
  }

  ghost predicate NeverRereads(kernel: Kernel, lives: seq<Life>) {
    lives == [] ||
    (var front := lives[..|lives| - 1];
     NeverRereads(kernel, front) && !Rereads(kernel, Lived(kernel, front), lives[|lives| - 1]))
  }

  lemma {:induction false} RereadsIffShared(kernel: Kernel, before: Kept, l: Life)
    requires Numbered(kernel)
    ensures Rereads(kernel, before, l) <==> exists r :: r in before.log && r in Written(kernel, before.cursor, l)
  {
    forall r ensures r in Written(kernel, before.cursor, l) <==> Data(r) in ReadForGood(kernel, before.cursor, l) && before.cursor < r.num {
      WrittenIffRead(kernel, before.cursor, l, r);
    }
  }

  /**
   No record is in the log twice if and only if no life reads again, before its last flush
   if it dies, a record that is in the log but above the cursor that was saved: a batch that
   a stop wrote without moving the cursor, or a flush that no later save covered.
   */
  lemma {:induction false} LoggedOnceIff(kernel: Kernel, lives: seq<Life>)
    requires Numbered(kernel)
    ensures NoDuplicates(Lived(kernel, lives).log) <==> NeverRereads(kernel, lives)
  {
    if lives == [] {
    } else {
      var front, l := lives[..|lives| - 1], lives[|lives| - 1];
      var before := Lived(kernel, front);
      LoggedOnceIff(kernel, front);
      RereadsIffShared(kernel, before, l);
      WrittenOnce(kernel, before.cursor, l);
      JoinedWithoutDuplicates(before.log, Written(kernel, before.cursor, l));
    }
  }

  /**
   A life that reads the kernel's first record; it may see that nothing follows, die, and have its session saved
   after `saved` reads.
   */
  function Brief(quiet: bool, killed: bool, saved: nat): Life {
    Life(if quiet then [Buffer(0, 1), Buffer(0, 1)] else [Buffer(0, 1)], 0, killed, saved, 0)
  }

  lemma {:induction false} BriefReads(kernel: Kernel, quiet: bool)
    requires Numbered(kernel) && kernel(0).Some?
    ensures var r, inputs := kernel(0).value, Reads(kernel, 0, Brief(quiet, false, 0).instants);
      && inputs == (if quiet then [Data(r), NothingYet] else [Data(r)])
      && After(-1, inputs) == (if quiet then Stream([r], 1, 0, 0) else Stream([r], 0, -1, 0))
  {
    var r := kernel(0).value;
    FirstRead(kernel);
    FirstFed(r);
    if quiet {
      assert [Buffer(0, 1), Buffer(0, 1)][..1] == [Buffer(0, 1)] && [Data(r), NothingYet][..1] == [Data(r)];
    }
  }

  lemma {:induction false} FirstRead(kernel: Kernel)
    requires Numbered(kernel) && kernel(0).Some?
    ensures Position(0, [Buffer(0, 1)]) == 1 && Reads(kernel, 0, [Buffer(0, 1)]) == [Data(kernel(0).value)]
  {
    assert [Buffer(0, 1)][..0] == [];
    assert Position(0, []) == 0 && Reads(kernel, 0, []) == [];
  }

  lemma {:induction false} FirstFed(r: Record)
    requires r.num == 0
    ensures After(-1, [Data(r)]) == Stream([r], 0, -1, 0)
  {
    assert [Data(r)][..0] == [] && [] + [r] == [r];
    assert After(-1, []) == Opened(-1);
    assert After(-1, [Data(r)]) == Fed(Opened(-1), Data(r));
  }

  lemma {:induction false} BriefLifeAdds(kernel: Kernel, lives: seq<Life>, quiet: bool, killed: bool, saved: nat)
    requires Numbered(kernel) && kernel(0).Some?
    requires lives != [] && lives[|lives| - 1] == Brief(quiet, killed, saved)
    requires Lived(kernel, lives[..|lives| - 1]).cursor == -1
    requires (quiet || !killed) && (quiet ==> saved == 0)
    ensures Lived(kernel, lives) == Kept(Lived(kernel, lives[..|lives| - 1]).log + [kernel(0).value], -1)
  {
    BriefReads(kernel, quiet);
    var r := kernel(0).value;
    assert [r][..1] == [r] && [Data(r)][..1] == [Data(r)] && [Data(r)][..0] == [] && [Data(r), NothingYet][..0] == [];
    assert After(-1, []) == Opened(-1);
  }

  /** A record waiting when the watcher is stopped is written, but the cursor stays: the next life writes it again. */
  lemma {:induction false} LastBatchCanRepeat(kernel: Kernel)
    requires Numbered(kernel) && kernel(0).Some?
    ensures var lives := [Brief(false, false, 1), Brief(false, false, 1)];
      InTurn(lives) && Lived(kernel, lives).log == [kernel(0).value, kernel(0).value]
  {
    var l := Brief(false, false, 1);
    assert [l][..0] == [] && [l, l][..1] == [l];
    BriefLifeAdds(kernel, [l], false, false, 1);
    BriefLifeAdds(kernel, [l, l], false, false, 1);
  }

  /**
   A record that was flushed is written again too, if the session was not saved since, whether the watcher dies
   or is stopped.
   */
  lemma {:induction false} UnsavedFlushCanRepeat(kernel: Kernel, killed: bool)
    requires Numbered(kernel) && kernel(0).Some?
    ensures var lives := [Brief(true, killed, 0), Brief(false, false, 1)];
      InTurn(lives) && Lived(kernel, lives).log == [kernel(0).value, kernel(0).value]
  {
    var l, next := Brief(true, killed, 0), Brief(false, false, 1);
    assert [l][..0] == [] && [l, next][..1] == [l];
    BriefLifeAdds(kernel, [l], true, killed, 0);
    BriefLifeAdds(kernel, [l, next], false, false, 1);
  }

  // ---------- sharing counts with the counter monitors

  /**
   When sysfs owns a PCIe device's count, the text only tells of it: it counts nothing,
   fails nothing, and is the mention that the counter monitor's totals allow for.
   */
  lemma {:induction false} OwnedTextIsMention(site: Site, items: Items, r: Record, device: string, name: string,
          failAt: nat)
    requires r.match_.Some? && r.match_.value.rule.id == "aer-corrected" && r.match_.value.rule.severity == WARN
    requires r.match_.value.rule.counter == Some("aer") && "aer" in site.sysfs
    requires r.match_.value.rule.bootTitle.None? && !r.match_.value.rule.ignoreAtBoot
    requires device != "" && r.match_.value.device == device
    ensures var c := CounterMonitors.Counted(name, Named("aer-corrected" + ":" + device), WARN, failAt);
      Processed(site, items, r) == AddItem(items, c.key, CounterMonitors.Mention(c, MatchedEvent(site, r, r.match_.value)))
  {
  }

  /** A message adds at most one to one finding, nothing to any other, and nothing at all to a count that sysfs owns. */
  lemma {:induction false} TextCountsAtMostOnce(site: Site, items: Items, r: Record, key: Key)
    requires key in items
    ensures key in Processed(site, items, r)
    ensures var (before, after) := (items[key].count, Processed(site, items, r)[key].count);
      && before <= after <= before + 1
      && (after == before + 1 <==>
            match r.match_
            case None => r.level <= 2 && key == Named("kmsg-crit:" + r.shape)
            case Some(m) => !Silent(site, r, m.rule) && !Owned(site, m.rule) && key == Named(MatchedKey(site, r, m)))
  {
  }

  /**
   A message fails its finding exactly if its own severity or the finding's does, or if a warning not left
   over from the boot reached its limit.
   */
  lemma {:induction false} MessageFailsIff(site: Site, items: Items, r: Record)
    requires r.match_.Some? && !Silent(site, r, r.match_.value.rule)
    ensures var (m, after) := (r.match_.value, Processed(site, items, r));
      var (key, severity, limit) := (MatchedKey(site, r, m), MatchedEvent(site, r, m).severity, Limit(site, m.rule.id));
      && Named(key) in after
      && (after[Named(key)].severity == FAIL <==>
            || (Named(key) in items && items[Named(key)].severity == FAIL)
            || severity == FAIL
            || (severity == WARN && 0 < limit <= after[Named(key)].count && !EndsWith(key, "-boot")))
  {
    var key, e := Named(MatchedKey(site, r, r.match_.value)), MatchedEvent(site, r, r.match_.value);
    assert AddItem(items, key, e)[key] == if key in items then Merge(items[key], e) else First(e);
  }
}
