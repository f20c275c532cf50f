/** Which disks src/pccheck/disks.py may overwrite, in the boot that chose them and after resumes. */
module DestructiveTests {
  import opened Wrappers

  /** A block device with everything stacked on it, as discovery reports it. */
  datatype Node = Node(name: string, mounted: bool, held: bool, children: seq<Node>)

  predicate Busy(n: Node) {
    n.mounted || n.held || exists c | c in n.children :: Busy(c)
  }

  ghost predicate Within(n: Node, root: Node)
    decreases root
  {
    n == root || exists c | c in root.children :: Within(n, c)
  }

  /** A device is busy exactly when some node of its whole tree is mounted or held. */
  lemma {:induction false} BusyIffAnyNodeInUse(root: Node)
    ensures Busy(root) <==> exists n :: Within(n, root) && (n.mounted || n.held)
    decreases root
  {
    forall c | c in root.children
      ensures Busy(c) <==> exists n :: Within(n, c) && (n.mounted || n.held)
    {
      BusyIffAnyNodeInUse(c);
    }
    if Busy(root) {
      if root.mounted || root.held {
        assert Within(root, root);
      } else {
        var c :| c in root.children && Busy(c);
        var n :| Within(n, c) && (n.mounted || n.held);
        assert Within(n, root);
      }
    }
  }

  datatype Device = Device(name: string, size: nat, serial: string, wwn: string)

  function DiskId(d: Device): string {
    if d.serial != "" then d.serial else if d.wwn != "" then d.wwn else d.name
  }

  /** What `wipefs` and `lsblk` say; no topology when its output could not be parsed. */
  datatype Discovery = Discovery(wipefsOk: bool, signatures: bool, lsblkOk: bool, topology: Option<seq<Node>>)

  /** The surroundings of one call: the boot disk is known or not, what is excluded, and what discovery would say. */
  datatype Site = Site(bootDiskKnown: bool, exclude: set<string>, force: bool, discover: Device -> Discovery)

  predicate InUse(t: Option<seq<Node>>) {
    t.None? || t.value == [] || exists n | n in t.value :: Busy(n)
  }

  predicate Partitioned(t: Option<seq<Node>>) {
    t.None? || exists n | n in t.value :: n.children != []
  }

  predicate Skips(site: Site, d: Device) {
    var found := site.discover(d);
    || !site.bootDiskKnown || d.name in site.exclude || InUse(found.topology)
    || !found.wipefsOk || !found.lsblkOk
    || ((found.signatures || Partitioned(found.topology)) && !site.force)
  }

  /** Nothing on the disk is in use, and all of that is known rather than assumed. */
  ghost predicate Safe(site: Site, d: Device) {
    var found := site.discover(d);
    && site.bootDiskKnown && d.name !in site.exclude
    && found.wipefsOk && found.lsblkOk && found.topology.Some? && found.topology.value != []
    && forall root, n | root in found.topology.value && Within(n, root) :: !n.mounted && !n.held
  }

  /** There is nothing to lose on the disk: no signature and nothing stacked on any discovered node. */
  ghost predicate Blank(site: Site, d: Device) {
    var found := site.discover(d);
    && !found.signatures && found.topology.Some?
    && forall root, n | root in found.topology.value && Within(n, root) :: n.children == []
  }

  /** The disks that may be offered for destruction: never those in use, and those with data only by force. */
  ghost predicate Expendable(site: Site, d: Device) {
    Safe(site, d) && (site.force || Blank(site, d))
  }

  lemma {:induction false} UsedIffAnyNodeInUse(site: Site, d: Device)
    requires site.discover(d).topology.Some?
    ensures (exists root | root in site.discover(d).topology.value :: Busy(root)) <==>
      exists root, n | root in site.discover(d).topology.value && Within(n, root) :: n.mounted || n.held
  {
    forall root | root in site.discover(d).topology.value
      ensures Busy(root) <==> exists n :: Within(n, root) && (n.mounted || n.held)
    {
      BusyIffAnyNodeInUse(root);
    }
  }

  lemma {:induction false} BarrenRoots(roots: seq<Node>)
    ensures (forall root | root in roots :: root.children == []) <==>
      forall root, n | root in roots && Within(n, root) :: n.children == []
  {
    forall root | root in roots && !forall n | Within(n, root) :: n.children == []
      ensures root.children != []
    {
      var n :| Within(n, root) && n.children != [];
      assert n == root || exists c | c in root.children :: Within(n, c);
    }
    assert forall root :: Within(root, root);
  }

  /** The rule of the source skips exactly the disks that are not expendable. */
  lemma {:induction false} EligibleIffExpendable(site: Site, d: Device)
    ensures !Skips(site, d) <==> Expendable(site, d)
  {
    var found := site.discover(d);
    if found.topology.Some? {
      UsedIffAnyNodeInUse(site, d);
      BarrenRoots(found.topology.value);
    }
  }

  /** A disk with a serial number or WWN, and no other one, keeps its identity under any name the kernel gives it. */
  lemma {:induction false} IdentitySurvivesRenamingIff(d: Device)
    ensures (forall name :: DiskId(d.(name := name)) == DiskId(d)) <==> d.serial != "" || d.wwn != ""
    ensures d.serial != "" ==> forall wwn :: DiskId(d.(wwn := wwn)) == DiskId(d)
  {
    if d.serial == "" && d.wwn == "" {
      assert DiskId(d.(name := d.name + "x")) == d.name + "x" != DiskId(d);
    }
  }

  datatype Mode = ReadOnly | WriteVerify

  datatype Entry = Entry(name: string, size: nat, offset: nat, done: bool, mode: Mode)

  ghost predicate UniqueNames(disks: seq<Device>) {
    forall i, j | 0 <= i < j < |disks| :: disks[i].name != disks[j].name
  }

  predicate Chosen(d: Device, destructive: seq<Device>) {
    exists c | c in destructive :: c.name == d.name
  }

  /**
   A disk may be written: nothing on it is in use or would be lost unforced, it was chosen, and
   after a resume it has an identity of its own.
   */
  ghost predicate MayWrite(site: Site, d: Device, destructive: seq<Device>, resumed: bool) {
    Expendable(site, d) && Chosen(d, destructive) && (resumed ==> d.wwn != "" || d.serial != "")
  }

  function NewEntry(d: Device, destructive: seq<Device>): Entry {
    Entry(d.name, d.size, 0, false, if Chosen(d, destructive) then WriteVerify else ReadOnly)
  }

  /**
   One boot's call of `start_disk_tests`: what it saw, the choice and the entries before and after, and who is
   written.
   */
  datatype Round = Round(
    site: Site, listing: seq<Device>, isDestructive: bool, confirmed: bool, resumed: bool,
    before: Option<map<string, nat>>, after: Option<map<string, nat>>,
    entries: map<string, Entry>, entries': map<string, Entry>, finished: bool, writers: seq<Device>)

  /**
   The operator confirmed this disk's identity and size in this boot, when nothing on it was in use
   and there was nothing to lose on it unless force was set.
   */
  ghost predicate Confirmed(r: Round, id: string, size: nat) {
    && r.isDestructive && r.confirmed
    && exists d | d in r.listing :: DiskId(d) == id && d.size == size && Expendable(r.site, d)
  }

  /** What holds of every call. */
  ghost predicate SoundRound(r: Round) {
    && (r.finished ==> r.writers == [] && r.after == r.before)
    && (!r.finished ==> r.after.Some?)
    && (r.before.Some? ==> r.after == r.before)
    && (r.before.None? && r.after.Some? ==> forall id | id in r.after.value :: Confirmed(r, id, r.after.value[id]))
    && (forall id | id in r.entries :: id in r.entries' && r.entries'[id] == r.entries[id])
    && (forall w | w in r.writers ::
          && w in r.listing && Expendable(r.site, w)
          && r.after.Some? && DiskId(w) in r.after.value && r.after.value[DiskId(w)] == w.size
          && DiskId(w) in r.entries' && r.entries'[DiskId(w)].mode == WriteVerify
          && (r.resumed ==> w.wwn != "" || w.serial != ""))
  }

  class DiskManager {
    var entries: map<string, Entry>
    var writers: seq<Device>
    var scans: seq<(Device, nat)>
    var refused: seq<Device>
    /** Identity and size of the disks chosen for destruction; None until that was decided. */
    var identities: Option<map<string, nat>>
    var finished: bool

    constructor (entries: map<string, Entry>, identities: Option<map<string, nat>>, finished: bool)
      ensures this.entries == entries && this.identities == identities && this.finished == finished
      ensures writers == [] && scans == [] && refused == []
    {
      this.entries, this.identities, this.finished := entries, identities, finished;
      writers, scans, refused := [], [], [];
    }

    static method DestructiveCandidates(site: Site, disks: seq<Device>) returns (eligible: seq<Device>,
            skipped: seq<Device>)
      ensures forall d :: d in eligible <==> d in disks && Expendable(site, d)
      ensures forall d :: d in skipped <==> d in disks && !Expendable(site, d)
      ensures |eligible| + |skipped| == |disks|
    {
      eligible, skipped := [], [];
      for i := 0 to |disks|
        invariant forall d :: d in eligible <==> d in disks[..i] && Expendable(site, d)
        invariant forall d :: d in skipped <==> d in disks[..i] && !Expendable(site, d)
        invariant |eligible| + |skipped| == i
      {
        EligibleIffExpendable(site, disks[i]);
        if Skips(site, disks[i]) {
          skipped := skipped + [disks[i]];
        } else {
          eligible := eligible + [disks[i]];
        }
      }
    }

    /** What one turn of `start_scans` does about a disk with this entry. */
    method StartOne(site: Site, disk: Device, destructive: seq<Device>, resumed: bool)
      modifies this`entries, this`writers, this`scans, this`refused
      ensures entries == if DiskId(disk) in old(entries) then old(entries)
                         else old(entries)[DiskId(disk) := NewEntry(disk, destructive)]
      ensures var e := entries[DiskId(disk)];
        && scans == old(scans) + (if !e.done && e.mode == ReadOnly then [(disk, e.offset)] else [])
        && var toWrite, may := !e.done && e.mode == WriteVerify, MayWrite(site, disk, destructive, resumed);
        && writers == old(writers) + (if toWrite && may then [disk] else [])
        && refused == old(refused) + (if toWrite && !may then [disk] else [])
    {
      var id := DiskId(disk);
      if id !in entries {
        entries := entries[id := NewEntry(disk, destructive)];
      }
      var entry := entries[id];
      if entry.done {
        return;
      }
      if entry.mode == WriteVerify {
        EligibleIffExpendable(site, disk);
        if Skips(site, disk) || !Chosen(disk, destructive) || (resumed && disk.wwn == "" && disk.serial == "") {
          refused := refused + [disk];
        } else {
          writers := writers + [disk];
        }
      } else {
        scans := scans + [(disk, entry.offset)];
      }
    }

    /** Every disk seen so far is finished, written, refused or scanned as its entry says. */
    ghost predicate Handled(site: Site, disks: seq<Device>, destructive: seq<Device>, resumed: bool)
      reads this
    {
      && (forall w | w in writers ::
            && w in disks && MayWrite(site, w, destructive, resumed)
            && DiskId(w) in entries && entries[DiskId(w)].mode == WriteVerify && !entries[DiskId(w)].done)
      && (forall r | r in refused ::
            && r in disks && !MayWrite(site, r, destructive, resumed)
            && DiskId(r) in entries && entries[DiskId(r)].mode == WriteVerify && !entries[DiskId(r)].done)
      && (forall s | s in scans ::
            && s.0 in disks && DiskId(s.0) in entries && s.1 == entries[DiskId(s.0)].offset
            && entries[DiskId(s.0)].mode == ReadOnly && !entries[DiskId(s.0)].done)
      && (forall d | d in disks ::
            && DiskId(d) in entries
            && (entries[DiskId(d)].done || d in writers || d in refused || (d, entries[DiskId(d)].offset) in scans))
    }

    /** Entries that were there are kept; others begin at zero, to be written exactly where that was chosen. */
    static ghost predicate Extends(before: map<string, Entry>, after: map<string, Entry>, disks: seq<Device>,
            destructive: seq<Device>) {
      && (forall id | id in before :: id in after && after[id] == before[id])
      && (forall id | id in after && id !in before ::
            exists d | d in disks :: DiskId(d) == id && after[id] == NewEntry(d, destructive))
    }

    /** `start_scans`: writes only where the choice was made for this very name, and re-checked now. */
    method StartScans(site: Site, disks: seq<Device>, destructive: seq<Device>, resumed: bool)
      requires writers == [] && scans == [] && refused == []
      modifies this`entries, this`writers, this`scans, this`refused
      ensures Handled(site, disks, destructive, resumed)
      ensures Extends(old(entries), entries, disks, destructive)
    {
      for i := 0 to |disks|
        invariant Handled(site, disks[..i], destructive, resumed)
        invariant Extends(old(entries), entries, disks[..i], destructive)
      {
        assert disks[..i + 1] == disks[..i] + [disks[i]];
        StartOne(site, disks[i], destructive, resumed);
      }
      assert disks[..|disks|] == disks;
    }

    /** `start_disk_tests` over a listing that stays the same during the call. */
    method StartDiskTests(site: Site, listing: seq<Device>, isDestructive: bool, confirmed: bool, resumed: bool)
      requires writers == [] && scans == [] && refused == [] && UniqueNames(listing)
      modifies this
      ensures SoundRound(Round(site, listing, isDestructive, confirmed, resumed, old(identities), identities,
                               old(entries), entries, finished, writers))
      ensures finished == old(finished) && (finished ==> scans == [])
      ensures old(identities).None? && !finished && isDestructive && confirmed ==>
        forall d | d in listing && Expendable(site, d) :: DiskId(d) in identities.value
      ensures !finished ==> forall d | d in listing ::
        && DiskId(d) in entries
        && (entries[DiskId(d)].done || d in writers || d in refused || (d, entries[DiskId(d)].offset) in scans)
    {
      if finished {
        return;
      }
      if identities.None? {
        var chosen: seq<Device> := [];
        if isDestructive {
          var eligible, _ := DestructiveCandidates(site, listing);
          if eligible != [] && confirmed {
            chosen := eligible;
          }
        }
        var sizes := Sizes(chosen);
        identities := Some(sizes);
      }
      var destructive := Matching(listing, identities.value);
      StartScans(site, listing, destructive, resumed);
    }

    static method Sizes(disks: seq<Device>) returns (m: map<string, nat>)
      ensures forall id | id in m :: exists d | d in disks :: DiskId(d) == id && d.size == m[id]
      ensures forall d | d in disks :: DiskId(d) in m
    {
      m := map[];
      for i := 0 to |disks|
        invariant forall id | id in m :: exists k | 0 <= k < i :: DiskId(disks[k]) == id && disks[k].size == m[id]
        invariant forall k | 0 <= k < i :: DiskId(disks[k]) in m
      {
        m := m[DiskId(disks[i]) := disks[i].size];
      }
    }

    static method Matching(disks: seq<Device>, sizes: map<string, nat>) returns (r: seq<Device>)
      ensures forall d :: d in r <==> d in disks && DiskId(d) in sizes && sizes[DiskId(d)] == d.size
    {
      r := [];
      for i := 0 to |disks|
        invariant forall d :: d in r <==> d in disks[..i] && DiskId(d) in sizes && sizes[DiskId(d)] == d.size
      {
        if DiskId(disks[i]) in sizes && sizes[DiskId(disks[i])] == disks[i].size {
          r := r + [disks[i]];
        }
      }
    }
  }
  // ---------- the boots of one session

  /** A boot's call, or a reset inside the save of its choice, before anything was written. */
  datatype BootOfDisks = Called(round: Round) | ChoiceLost(round: Round)

  ghost predicate SoundBoot(b: BootOfDisks) {
    SoundRound(b.round) && (b.ChoiceLost? ==> b.round.writers == [])
  }

  /** The choice the next boot finds: it was saved before the first write began. */
  function SavedChoice(b: BootOfDisks): Option<map<string, nat>> {
    if b.Called? then b.round.after else b.round.before
  }

  /** What a later boot finds of the entries saved so far: their progress may differ, their mode does not. */
  ghost predicate ModesKept(before: map<string, Entry>, after: map<string, Entry>) {
    forall id | id in before :: id in after && after[id].mode == before[id].mode
  }

  /** The boots of a session: the first finds no choice, each later one what the one before it saved. */
  ghost predicate Session(boots: seq<BootOfDisks>) {
    && (forall i | 0 <= i < |boots| :: SoundBoot(boots[i]))
    && (boots != [] ==> boots[0].round.before.None?)
    && (forall i | 0 < i < |boots| ::
          && boots[i].round.before == SavedChoice(boots[i - 1])
          && ModesKept(boots[i - 1].round.entries, boots[i].round.entries))
  }

  /** The boot that made the choice boot n works with. */
  lemma {:induction false} ChoiceHasOrigin(boots: seq<BootOfDisks>, n: nat) returns (k: nat)
    requires Session(boots) && n < |boots| && boots[n].round.after.Some?
    ensures k <= n && boots[k].round.before.None? && boots[k].round.after == boots[n].round.after
    ensures k < n ==> boots[n].round.before.Some?
  {
    if boots[n].round.before.None? {
      k := n;
    } else {
      k := ChoiceHasOrigin(boots, n - 1);
    }
  }

  /**
   Over any boots and resets of one session: a disk that is written in some boot has the
   identity and size of a disk that the operator confirmed in this boot or an earlier one.
   Then as now nothing on it was in use, and it held no data unless force was set.
   */
  lemma {:induction false} WrittenDiskWasConfirmed(boots: seq<BootOfDisks>, n: nat, w: Device)
    requires Session(boots) && n < |boots| && w in boots[n].round.writers
    ensures var site := boots[n].round.site; Safe(site, w) && (site.force || Blank(site, w))
    ensures exists k | 0 <= k <= n :: Confirmed(boots[k].round, DiskId(w), w.size)
  {
    var k := ChoiceHasOrigin(boots, n);
    assert SoundBoot(boots[k]) && SoundBoot(boots[n]);
    assert Confirmed(boots[k].round, DiskId(w), w.size);
  }

  lemma {:induction false} ChoiceStays(boots: seq<BootOfDisks>, m: nat, n: nat)
    requires Session(boots) && m <= n < |boots| && boots[m].Called? && boots[m].round.after.Some?
    ensures boots[n].round.after == boots[m].round.after
    ensures m < n ==> boots[n].round.before == boots[m].round.after
  {
    if m == n {
    } else {
      ChoiceStays(boots, m, n - 1);
      assert SoundBoot(boots[n]);
      assert boots[n].round.before == SavedChoice(boots[n - 1]);
    }
  }

  /** Whatever is written in a session was chosen at once: no boot chooses after another has written. */
  lemma {:induction false} OneChoiceForAllWrites(boots: seq<BootOfDisks>, m: nat, n: nat)
    requires Session(boots) && m <= n < |boots|
    requires boots[m].round.writers != [] && boots[n].round.writers != []
    ensures boots[m].round.after == boots[n].round.after && (m < n ==> boots[n].round.before.Some?)
  {
    assert SoundBoot(boots[m]) && boots[m].round.writers[0] in boots[m].round.writers;
    ChoiceStays(boots, m, n);
  }

  /** A disk on record to be read is not written in that boot or any later one. */
  lemma {:induction false} ReadDiskIsNeverWritten(boots: seq<BootOfDisks>, m: nat, n: nat, id: string)
    requires Session(boots) && m <= n < |boots|
    requires id in boots[m].round.entries && boots[m].round.entries[id].mode == ReadOnly
    ensures id in boots[n].round.entries && boots[n].round.entries[id].mode == ReadOnly
    ensures forall w | w in boots[n].round.writers :: DiskId(w) != id
  {
    assert SoundBoot(boots[n]);
    if m == n {
    } else {
      ReadDiskIsNeverWritten(boots, m, n - 1, id);
      assert ModesKept(boots[n - 1].round.entries, boots[n].round.entries);
    }
  }
}
