/**
 The producers that are modelled keep to the rule of FindingKeys: what they add under one
 key informs always or never. Orchestrator admits only adds of that kind.
 */
module Producers {
  import opened FindingStore
  import opened FindingKeys
  import C = CounterMonitors
  import K = KernelLog
  import R = RasEvents
  import Y = YCruncher

  /** The rules of the kernel log's table by severity. */
  const FAILING_RULES: set<string> := {
    "kernel-panic", "mce-fatal", "ghes-fatal", "edac-ue", "memory-failure", "nmi", "lockup", "stress-crash", "oops",
    "aer-uncorrected", "pcie-link-down", "gpu-lost", "disk-io-error", "disk-medium", "nvme-timeout", "thermal-critical"}

  const WARNING_RULES: set<string> := {
    "bert", "ghes-corrected", "mce-corrected", "edac-ce", "segfault", "aer-corrected", "sata-link", "sas-reset",
    "thermal-throttle", "clocksource", "hung-task", "oom", "nic-hang", "iommu-fault", "irq-nobody", "usb-overcurrent"}

  const INFORMING_RULE := "firmware-bug"

  /** What the table says of a rule's severity, of the title it has at boot, and of who owns its count. */
  predicate Listed(rule: K.Rule) {
    && (match rule.severity
        case FAIL => rule.id in FAILING_RULES
        case WARN => rule.id in WARNING_RULES
        case INFO => rule.id == INFORMING_RULE)
    && (rule.bootTitle.Some? ==> rule.id == "mce-corrected")
    && (rule.severity == INFO ==> rule.counter.None?)
  }

  /** The other families that warn or fail. */
  const OTHERS: set<string> := {
    "mce-corrected-boot", "bootdisk", "kmsg-crit", "kmsg-overrun", "ras", "memory-ce", "memory-ue",
    "ycruncher-fail", "ycruncher-incomplete"}

  predicate Warns(family: string) {
    ':' !in family && family !in INFORMATIONAL
  }

  lemma {:induction false} FailingRulesWarn(id: string)
    requires id in FAILING_RULES
    ensures Warns(id)
  {
  }

  lemma {:induction false} WarningRulesWarn(id: string)
    requires id in WARNING_RULES
    ensures Warns(id)
  {
  }

  lemma {:induction false} OthersWarn(family: string)
    requires family in OTHERS
    ensures Warns(family)
  {
  }

  lemma {:induction false} InformingRuleInforms(id: string)
    requires id == INFORMING_RULE
    ensures ':' !in id && id in INFORMATIONAL
  {
  }

  lemma {:induction false} PlainFits(family: string, e: Event)
    requires Warns(family) && e.severity != INFO
    ensures FitsKey(Named(family), e)
  {
    FamilyOfPlain(family);
  }

  lemma {:induction false} PrefixFits(family: string, rest: string, e: Event)
    requires Warns(family) && e.severity != INFO
    ensures FitsKey(Named(family + ":" + rest), e)
  {
    FamilyOfPrefix(family, rest);
  }

  lemma {:induction false} InformingFits(family: string, rest: string, e: Event)
    requires ':' !in family && family in INFORMATIONAL && e.severity == INFO
    ensures FitsKey(Named(family), e) && FitsKey(Named(family + ":" + rest), e)
  {
    FamilyOfPlain(family);
    FamilyOfPrefix(family, rest);
  }

  /**
   A matched message is called after its rule, or after its rule at boot, the boot disk, or the throttling
   counter.
   */
  lemma {:induction false} KernelKey(site: K.Site, r: K.Record, m: K.Match)
    requires Listed(m.rule)
    ensures var (key, severity) := (K.MatchedKey(site, r, m), K.MatchedEvent(site, r, m).severity);
      || (key == m.rule.id || key == m.rule.id + ":" + m.device)
      || (severity != INFO && (key == "mce-corrected" + "-boot" || key == "bootdisk" + ":" + m.rule.id || key == "thermal-throttle"))
    ensures K.MatchedEvent(site, r, m).severity == INFO <==> m.rule.severity == INFO
  {
  }

  /**
   Every finding from a matched kernel message, with or without a device, at boot or later, about the boot disk
   or not.
   */
  lemma {:induction false} KernelMessagesFit(site: K.Site, r: K.Record, m: K.Match)
    requires Listed(m.rule)
    ensures FitsKey(Named(K.MatchedKey(site, r, m)), K.MatchedEvent(site, r, m))
  {
    var id, key, e := m.rule.id, K.MatchedKey(site, r, m), K.MatchedEvent(site, r, m);
    KernelKey(site, r, m);
    if m.rule.severity == INFO {
      InformingKeyFits(id, m.device, key, e);
    } else {
      WarningKernelKeysFit(id, m.device, key, e);
    }
  }

  lemma {:induction false} InformingKeyFits(id: string, device: string, key: string, e: Event)
    requires id == INFORMING_RULE && e.severity == INFO
    requires key == id || key == id + ":" + device
    ensures FitsKey(Named(key), e)
  {
    InformingRuleInforms(id);
    InformingFits(id, device, e);
  }

  lemma {:induction false} WarningKernelKeysFit(id: string, device: string, key: string, e: Event)
    requires id in FAILING_RULES || id in WARNING_RULES
    requires e.severity != INFO
    requires key == id || key == id + ":" + device || key == "mce-corrected-boot" || key == "bootdisk" + ":" + id
      || key == "thermal-throttle"
    ensures FitsKey(Named(key), e)
  {
    if id in FAILING_RULES {
      FailingRulesWarn(id);
    } else {
      WarningRulesWarn(id);
    }
    if key == id + ":" + device {
      PrefixFits(id, device, e);
    } else if key == "bootdisk" + ":" + id {
      OthersWarn("bootdisk");
      PrefixFits("bootdisk", id, e);
    } else {
      if key == "mce-corrected-boot" {
        OthersWarn(key);
      } else if key == "thermal-throttle" {
        WarningRulesWarn(key);
      }
      PlainFits(key, e);
    }
  }

  lemma {:induction false} OtherKernelFindingsFit(r: K.Record, overrun: string)
    requires overrun == "kmsg-overrun"
    ensures FitsKey(Named("kmsg-crit:" + r.shape), K.CriticalEvent(r))
    ensures FitsKey(Named(overrun), K.OVERRUN)
  {
    OthersWarn("kmsg-crit");
    assert "kmsg-crit:" + r.shape == "kmsg-crit" + ":" + r.shape;
    PrefixFits("kmsg-crit", r.shape, K.CriticalEvent(r));
    OthersWarn(overrun);
    PlainFits(overrun, K.OVERRUN);
  }

  lemma {:induction false} RowFamily(t: R.Table, origin: string, corrected: bool) returns (family: string)
    ensures family in OTHERS
    ensures exists rest :: R.RowKey(t, origin, corrected) == family + ":" + rest
  {
    family := "ras";
    var rest := R.TableName(t) + ":" + origin + ":" + (if corrected then "corrected" else "uncorrected");
    assert R.RowKey(t, origin, corrected) == family + ":" + rest;
  }

  lemma {:induction false} RasFindingsFit(t: R.Table, row: R.Row, count: nat, corrected: bool, complaint: string)
    ensures FitsKey(Named(R.RowKey(t, row.origin, corrected)), R.RowEvent(t, row, count, corrected))
    ensures FitsKey(MonitorError, R.LostCoverage(complaint))
  {
    var family := RowFamily(t, row.origin, corrected);
    var rest :| R.RowKey(t, row.origin, corrected) == family + ":" + rest;
    OthersWarn(family);
    PrefixFits(family, rest, R.RowEvent(t, row, count, corrected));
  }

  /**
   The counter monitors: what their findings are called after, a DIMM or a device, and that an increase never
   just informs.
   */
  ghost predicate SysfsCounter(c: C.Counted) {
    && c.severity != INFO && c.key.Named?
    && (c.key.text == "thermal-throttle"
        || exists family, place | family in {"memory-ce", "memory-ue", "aer-corrected", "aer-uncorrected"} ::
             c.key.text == family + ":" + place)
  }

  lemma {:induction false} CountersFit(c: C.Counted, amount: nat, wording: Event)
    requires SysfsCounter(c)
    ensures FitsKey(c.key, C.Increase(c, amount)) && FitsKey(c.key, C.Mention(c, wording))
  {
    var e := C.Increase(c, amount);
    if c.key.text == "thermal-throttle" {
      WarningRulesWarn(c.key.text);
      PlainFits(c.key.text, e);
    } else {
      var family, place :| family in {"memory-ce", "memory-ue", "aer-corrected", "aer-uncorrected"} &&
        c.key.text == family + ":" + place;
      if family == "aer-uncorrected" {
        FailingRulesWarn(family);
      } else if family == "aer-corrected" {
        WarningRulesWarn(family);
      } else {
        OthersWarn(family);
      }
      PrefixFits(family, place, e);
    }
  }

  lemma {:induction false} OnlySuccessInforms(key: Key, evidence: seq<string>)
    requires key == Y.FAILED || key == Y.INCOMPLETE || key == Y.OK
    ensures key.Named? && (if key == Y.OK then ':' !in key.text && key.text in INFORMATIONAL else key.text in OTHERS)
    ensures Y.Outcome(key, evidence).severity == INFO <==> key == Y.OK
  {
  }

  lemma {:induction false} YCruncherFindingsFit(key: Key, evidence: seq<string>)
    requires key == Y.FAILED || key == Y.INCOMPLETE || key == Y.OK
    ensures FitsKey(key, Y.Outcome(key, evidence))
  {
    OnlySuccessInforms(key, evidence);
    var (text, e) := (key.text, Y.Outcome(key, evidence));
    if text in INFORMATIONAL {
      InformingFits(text, "", e);
    } else {
      OthersWarn(text);
      PlainFits(text, e);
    }
  }
}
