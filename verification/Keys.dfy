/**
 Which findings inform and which warn. Every producer of the repository adds under one key
 with informational events only, or never with any; the historic BMC log is the one
 exception, and its reading, the disk scans and the main thread are steps of their own in
 Orchestrator. Module Producers proves the rule for the producers that are modelled.
 */
module FindingKeys {
  import opened FindingStore

  /** The text before the first colon. */
  function Family(text: string): (f: string)
    ensures f <= text && ':' !in f
    ensures f == text || text[|f|] == ':'
  {
    if text == "" || text[0] == ':' then "" else [text[0]] + Family(text[1..])
  }

  /** The families of keys that are added with INFO, all over src/pccheck. */
  const INFORMATIONAL: set<string> := {
    "dmi-no-dimms", "memory-speed", "memory-non-ecc", "pcie-speed", "pre-os-memory", "storage-read-only",
    "writeverify-ok", "scan-ok", "firmware-bug", "sel-info", "destructive-cancelled",
    "ycruncher-ok", "transient-steps", "idle-cstates", "powercycle-time"}

  predicate Informs(key: Key) {
    match key
    case PowerCycleProgress => true
    case PowerCycleOk => true
    case Named(text) => Family(text) in INFORMATIONAL
    case _ => false
  }

  /** The adds of monitors, phase bodies and final checks. */
  predicate FitsKey(key: Key, e: Event) {
    && (key.Named? || key.MonitorError?)
    && (e.severity == INFO <==> Informs(key))
  }

  lemma {:induction false} FamilyOfPrefix(family: string, rest: string)
    requires ':' !in family
    ensures Family(family + ":" + rest) == family
  {
    var text := family + ":" + rest;
    if family == "" {
      assert text[0] == ':';
    } else {
      FamilyOfPrefix(family[1..], rest);
      assert text[0] == family[0] && family[0] in family;
      assert text[1..] == family[1..] + ":" + rest;
      assert [family[0]] + family[1..] == family;
    }
  }

  lemma {:induction false} FamilyOfPlain(text: string)
    requires ':' !in text
    ensures Family(text) == text
  {
    if text == "" {
    } else {
      assert text[0] in text;
      FamilyOfPlain(text[1..]);
      assert [text[0]] + text[1..] == text;
    }
  }
}
