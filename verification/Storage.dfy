/**
 Where the data partition goes on the boot disk: the placement arithmetic of
 src/pccheck/storage.py.
 */
module PartitionPlanning {
  import opened Wrappers

  const MIB := 1024 * 1024
  const MIN_FREE_BYTES := 256 * MIB

  datatype TableKind = Dos | Gpt | OtherKind(name: string)

  /** In sectors. */
  datatype Partition = Partition(start: nat, size: nat)

  datatype PartitionTable = PartitionTable(kind: TableKind, sector: nat, partitions: seq<Partition>)

  predicate Full(t: PartitionTable) {
    t.kind == Dos && |t.partitions| >= 4
  }

  function LastEnd(partitions: seq<Partition>): nat {
    if partitions == [] then 0
    else
      var p, rest := partitions[|partitions| - 1], LastEnd(partitions[..|partitions| - 1]);
      if rest > p.start + p.size then rest else p.start + p.size
  }

  function LastUsable(t: PartitionTable, disk: nat): int
    requires t.sector > 0
  {
    disk / t.sector - (if t.kind == Gpt then 34 else 1)
  }

  /** A sector size of zero or above 1 MiB makes the division fail in the source. */
  function Plan(t: PartitionTable, disk: nat, iso: nat): Option<nat>
    requires 0 < t.sector <= MIB
  {
    if Full(t) then None
    else
      var isoEnd := (iso + t.sector - 1) / t.sector;
      var end := if LastEnd(t.partitions) > isoEnd then LastEnd(t.partitions) else isoEnd;
      var align := MIB / t.sector;
      var start := ((end + align - 1) / align) * align;
      if (LastUsable(t, disk) - start) * t.sector < MIN_FREE_BYTES then None else Some(start)
  }

  // ---------- what the plan promises

  /** A start on a 1 MiB boundary behind every partition and behind the ISO image. */
  ghost predicate Candidate(t: PartitionTable, iso: nat, start: nat) {
    && start * t.sector % MIB == 0
    && (forall p | p in t.partitions :: p.start + p.size <= start)
    && iso <= start * t.sector
  }

  /** At least 256 MiB lie between the start and the sectors the table keeps at the end, 34 of them for a GPT. */
  predicate HasRoom(t: PartitionTable, disk: nat, start: nat)
    requires t.sector > 0
  {
    var kept := match t.kind case Gpt => 34 case Dos => 1 case OtherKind(_) => 1;
    (disk / t.sector - kept - start) * t.sector >= 256 * 1024 * 1024
  }

  lemma {:induction false} LastEndIsLeast(partitions: seq<Partition>, start: nat)
    ensures LastEnd(partitions) <= start <==> forall p | p in partitions :: p.start + p.size <= start
  {
    if partitions == [] {
    } else {
      var front, last := partitions[..|partitions| - 1], partitions[|partitions| - 1];
      LastEndIsLeast(front, start);
      assert partitions == front + [last];
    }
  }

  lemma {:induction false} RoundedUpIsLeast(x: nat, n: nat, m: nat)
    requires n > 0
    ensures (x + n - 1) / n <= m <==> x <= m * n
  {
    var q, r := (x + n - 1) / n, (x + n - 1) % n;
    assert x + n - 1 == q * n + r;
    if q <= m {
      assert q * n <= m * n;
    } else {
      assert (m + 1) * n <= q * n;
    }
  }

  lemma {:induction false} MoreIsMore(a: int, b: int, n: nat)
    requires a <= b
    ensures a * n <= b * n
  {
    assert (b - a) * n >= 0;
    assert b * n == a * n + (b - a) * n;
  }

  lemma {:induction false} RemainderOfMultiple(q: nat, n: nat, r: nat)
    requires r < n
    ensures (q * n + r) % n == r && (q * n + r) / n == q
  {
    var x := q * n + r;
    var a, b := x / n, x % n;
    assert x == a * n + b;
    assert (q + 1) * n == q * n + n && (a + 1) * n == a * n + n;
    if a > q {
      MoreIsMore(q + 1, a, n);
    } else if a < q {
      MoreIsMore(a + 1, q, n);
    }
  }

  lemma {:induction false} InBytes(q: nat, align: nat, r: nat, sector: nat)
    requires r < align
    ensures (q * align + r) * sector == q * (align * sector) + r * sector
    ensures r * sector <= align * sector - sector
  {
    MoreIsMore(r, align - 1, sector);
    assert (align - 1) * sector == align * sector - sector;
    assert (q * align) * sector == q * (align * sector);
  }

  /** A sector is on a 1 MiB boundary exactly at the multiples of the alignment. */
  lemma {:induction false} AlignedIff(sector: nat, start: nat)
    requires 0 < sector <= MIB && MIB % sector == 0
    ensures start * sector % MIB == 0 <==> start % (MIB / sector) == 0
  {
    var align := MIB / sector;
    assert align * sector == MIB;
    var q, r := start / align, start % align;
    assert start == q * align + r;
    InBytes(q, align, r, sector);
    RemainderOfMultiple(q, MIB, r * sector);
    if r > 0 {
      MoreIsMore(1, r, sector);
    }
  }

  lemma {:induction false} LeastMultiple(end: nat, align: nat, start: nat)
    requires align > 0
    ensures var least := ((end + align - 1) / align) * align;
      && end <= least && least % align == 0
      && (end <= start && start % align == 0 ==> least <= start)
  {
    var m := (end + align - 1) / align;
    RoundedUpIsLeast(end, align, m);
    RemainderOfMultiple(m, align, 0);
    if end <= start && start % align == 0 {
      var k := start / align;
      assert start == k * align;
      RoundedUpIsLeast(end, align, k);
      assert m * align <= k * align;
    }
  }

  /** The start before the check for room. */
  function Rounded(t: PartitionTable, iso: nat): nat
    requires 0 < t.sector <= MIB
  {
    var isoEnd := (iso + t.sector - 1) / t.sector;
    var end := if LastEnd(t.partitions) > isoEnd then LastEnd(t.partitions) else isoEnd;
    (end + MIB / t.sector - 1) / (MIB / t.sector) * (MIB / t.sector)
  }

  lemma {:induction false} RoundedIsLeast(t: PartitionTable, iso: nat, other: nat)
    requires 0 < t.sector <= MIB && MIB % t.sector == 0
    ensures Candidate(t, iso, Rounded(t, iso))
    ensures Candidate(t, iso, other) ==> Rounded(t, iso) <= other
  {
    var isoEnd := (iso + t.sector - 1) / t.sector;
    var end := if LastEnd(t.partitions) > isoEnd then LastEnd(t.partitions) else isoEnd;
    var start := Rounded(t, iso);
    LeastMultiple(end, MIB / t.sector, other);
    forall s: nat ensures end <= s <==> (forall p | p in t.partitions :: p.start + p.size <= s) && iso <= s * t.sector {
      LastEndIsLeast(t.partitions, s);
      RoundedUpIsLeast(iso, t.sector, s);
    }
    AlignedIff(t.sector, start);
    AlignedIff(t.sector, other);
  }

  /**
   The plan is the least start on a 1 MiB boundary behind every partition and the ISO image,
   and at least 256 MiB lie behind it.
   */
  lemma {:induction false} PlanIsLeastStart(t: PartitionTable, disk: nat, iso: nat, start: nat)
    requires 0 < t.sector <= MIB && MIB % t.sector == 0
    ensures Plan(t, disk, iso) == Some(start) <==>
      && !(t.kind == Dos && |t.partitions| > 3) && Candidate(t, iso, start) && HasRoom(t, disk, start)
      && forall other | Candidate(t, iso, other) :: start <= other
  {
    var least := Rounded(t, iso);
    forall other ensures Candidate(t, iso, other) ==> least <= other {
      RoundedIsLeast(t, iso, other);
    }
    RoundedIsLeast(t, iso, start);
    assert Candidate(t, iso, least);
    assert !Full(t) ==> Plan(t, disk, iso) == if HasRoom(t, disk, least) then Some(least) else None;
  }

  /** There is no plan exactly when the table is full or no start whatever has room behind it. */
  lemma {:induction false} NoPlanIff(t: PartitionTable, disk: nat, iso: nat)
    requires 0 < t.sector <= MIB && MIB % t.sector == 0
    ensures Plan(t, disk, iso) == None <==> (t.kind == Dos && |t.partitions| > 3) || forall s | Candidate(t, iso, s) :: !HasRoom(t, disk, s)
  {
    var least := Rounded(t, iso);
    forall s | Candidate(t, iso, s) ensures HasRoom(t, disk, s) ==> HasRoom(t, disk, least) {
      RoundedIsLeast(t, iso, s);
      MoreIsMore(LastUsable(t, disk) - s, LastUsable(t, disk) - least, t.sector);
    }
    RoundedIsLeast(t, iso, least);
    assert Candidate(t, iso, least);
    assert !Full(t) ==> Plan(t, disk, iso) == if HasRoom(t, disk, least) then Some(least) else None;
  }

  /** The boundaries are kept for every table of a sector size exactly when that size divides 1 MiB. */
  lemma {:induction false} AlignedForAllIffDivides(sector: nat)
    requires 0 < sector <= MIB
    ensures (forall t: PartitionTable, disk, iso | t.sector == sector && Plan(t, disk, iso).Some? ::
               Plan(t, disk, iso).value * sector % MIB == 0) <==> MIB % sector == 0
  {
    if MIB % sector == 0 {
      forall t: PartitionTable, disk, iso | t.sector == sector && Plan(t, disk, iso).Some?
        ensures Plan(t, disk, iso).value * sector % MIB == 0
      {
        PlanIsLeastStart(t, disk, iso, Plan(t, disk, iso).value);
      }
    } else {
      MisalignedPlan(sector);
    }
  }

  /** A sector size that does not divide 1 MiB puts the partition behind a one-sector image off the boundary. */
  lemma {:induction false} MisalignedPlan(sector: nat)
    requires 0 < sector <= MIB && MIB % sector != 0
    ensures var t, disk := PartitionTable(Dos, sector, []), sector * (MIB + MIN_FREE_BYTES + 1);
      Plan(t, disk, sector).Some? && Plan(t, disk, sector).value * sector % MIB != 0
  {
    var t, room := PartitionTable(Dos, sector, []), MIB + MIN_FREE_BYTES + 1;
    var align := MIB / sector;
    RemainderOfMultiple(1, sector, sector - 1);
    assert (sector + sector - 1) / sector == 1;
    RemainderOfMultiple(1, align, 0);
    assert (1 + align - 1) / align == 1;
    RemainderOfMultiple(room, sector, 0);
    assert sector * room == room * sector;
    assert LastUsable(t, sector * room) == room - 1;
    assert align <= MIB by {
      assert align * sector <= MIB && align <= align * sector;
    }
    assert (room - 1 - align) * sector >= MIN_FREE_BYTES by {
      assert room - 1 - align >= MIN_FREE_BYTES;
      assert (room - 1 - align) * sector >= room - 1 - align;
    }
    assert Plan(t, sector * room, sector) == Some(align);
    assert align * sector + MIB % sector == MIB;
    assert 0 < align * sector < MIB;
  }
}
