/**
 The surface read of src/pccheck/disks.py: one scan loop over a disk, and the coverage
 that several boots of such scans add up to when each resumes where the last was saved.
 */
module SurfaceScanning {

  const CHUNK := 4 * 1024 * 1024
  const MAX_READ_ERRORS := 64

  /** What one `preadv` does: some bytes (0 at the end of the device), or an error. */
  datatype ReadResult = Got(bytes: nat, slow: bool) | Unreadable

  /** A device answers each read by its offset and by how many reads came before. */
  type Device = (nat, nat) -> ReadResult

  datatype Extent = Extent(start: nat, length: nat, good: bool)
  {
    function End(): nat {
      start + length
    }
  }

  function Min(a: nat, b: nat): nat {
    if a < b then a else b
  }

  /** No read returns more than was asked for. */
  ghost predicate Honest(device: Device, size: nat) {
    forall offset: nat, n: nat | offset < size :: device(offset, n).Got? ==> device(offset, n).bytes <= Min(CHUNK, size - offset)
  }

  /** The extents follow one another without gap or overlap from `lo` to `hi`. */
  ghost predicate Tiles(extents: seq<Extent>, lo: nat, hi: nat) {
    if extents == [] then lo == hi
    else
      var last := extents[|extents| - 1];
      last.length > 0 && last.End() == hi && Tiles(extents[..|extents| - 1], lo, last.start)
  }

  function GoodBytes(extents: seq<Extent>): nat {
    if extents == [] then 0
    else GoodBytes(extents[..|extents| - 1]) + if extents[|extents| - 1].good then extents[|extents| - 1].length else 0
  }

  function Bad(extents: seq<Extent>): nat {
    if extents == [] then 0 else Bad(extents[..|extents| - 1]) + if extents[|extents| - 1].good then 0 else 1
  }

  // ---------- one scan thread

  /** Reading, done with its loop, reported, or without a device to read. */
  datatype Stage = Reading | Over | Reported | Unopened

  /** A scan thread; `extents` is what it read or gave up so far, `partial` that it was stopped before it was done. */
  datatype Scanner = Scanner(
    size: nat, start: nat, offset: nat, extents: seq<Extent>, errors: nat,
    done: bool, aborted: bool, stage: Stage, partial: bool)

  function Begun(size: nat, start: nat): Scanner {
    Scanner(size, start, start, [], 0, false, false, Reading, false)
  }

  predicate Readable(s: Scanner) {
    s.stage == Reading && s.offset < s.size
  }

  /** No read returns more than was asked for. */
  predicate Fits(s: Scanner, r: ReadResult)
    requires Readable(s)
  {
    r.Got? ==> r.bytes <= Min(CHUNK, s.size - s.offset)
  }

  /** One round of the loop. */
  function ReadOnce(s: Scanner, r: ReadResult): Scanner
    requires Readable(s) && Fits(s, r)
  {
    match r
    case Unreadable =>
      var length := Min(CHUNK, s.size - s.offset);
      if s.errors + 1 >= MAX_READ_ERRORS then s.(errors := s.errors + 1, aborted := true, done := true, stage := Over)
      else s.(errors := s.errors + 1, offset := s.offset + length, extents := s.extents + [Extent(s.offset, length, false)])
    case Got(n, _) =>
      if n == 0 then s.(errors := s.errors + 1, stage := Over)
      else s.(offset := s.offset + n, extents := s.extents + [Extent(s.offset, n, true)])
  }

  /** The loop left at the end of the disk or at a stop request. */
  function Left(s: Scanner): Scanner {
    if s.stage == Reading then s.(stage := Over, done := s.offset >= s.size) else s
  }

  /** What holds of every scan thread at any time. */
  ghost predicate Sound(s: Scanner) {
    && Tiles(s.extents, s.start, s.offset) && Bad(s.extents) < MAX_READ_ERRORS
    && Bad(s.extents) <= s.errors <= Bad(s.extents) + 1
    && (s.start <= s.size ==> s.offset <= s.size)
    && (s.stage == Reading ==> s.errors == Bad(s.extents) && !s.done && !s.aborted)
    && (s.stage == Over || s.stage == Reported ==> (s.done <==> s.offset >= s.size || s.aborted))
    && (s.aborted ==> s.errors == MAX_READ_ERRORS)
    && (s.stage != Unopened && s.done && !s.aborted ==> s.errors == Bad(s.extents))
  }

  lemma {:induction false} BegunIsSound(size: nat, start: nat)
    ensures Sound(Begun(size, start))
  {
  }

  lemma {:induction false} ReadKeepsSound(s: Scanner, r: ReadResult)
    requires Sound(s) && Readable(s) && Fits(s, r)
    ensures Sound(ReadOnce(s, r))
  {
    var s' := ReadOnce(s, r);
    if s'.extents != s.extents {
      assert s'.extents[..|s.extents|] == s.extents;
    }
  }

  /** A round adds the bytes it returned to those that were read. */
  lemma {:induction false} ReadIsCounted(s: Scanner, r: ReadResult)
    requires Readable(s) && Fits(s, r)
    ensures GoodBytes(ReadOnce(s, r).extents) == GoodBytes(s.extents) + if r.Got? then r.bytes else 0
  {
    var s' := ReadOnce(s, r);
    if s'.extents != s.extents {
      assert s'.extents[..|s.extents|] == s.extents;
    }
  }

  lemma {:induction false} LeavingKeepsSound(s: Scanner)
    requires Sound(s)
    ensures Sound(Left(s))
  {
  }

  /** The whole loop over a device, with a stop request after `stop` rounds. */
  function Scanned(s: Scanner, device: Device, rounds: nat, stop: nat): Scanner
    requires Honest(device, s.size)
    decreases if s.stage == Reading && s.offset < s.size then s.size - s.offset + 1 else 0
  {
    if !Readable(s) || rounds >= stop then Left(s)
    else Scanned(ReadOnce(s, device(s.offset, rounds)), device, rounds + 1, stop)
  }

  lemma {:induction false} ScannedIsSound(s: Scanner, device: Device, rounds: nat, stop: nat)
    requires Honest(device, s.size) && Sound(s)
    ensures Sound(Scanned(s, device, rounds, stop))
    decreases if s.stage == Reading && s.offset < s.size then s.size - s.offset + 1 else 0
  {
    if !Readable(s) || rounds >= stop {
      LeavingKeepsSound(s);
    } else {
      ReadKeepsSound(s, device(s.offset, rounds));
      ScannedIsSound(ReadOnce(s, device(s.offset, rounds)), device, rounds + 1, stop);
    }
  }

  /**
   A scan without an error read all it asked for: it is done, or it was stopped after `stop`
   reads that each returned something. In particular a disk that ends early has an error.
   */
  lemma {:induction false} QuietScanWasStopped(s: Scanner, device: Device, rounds: nat, stop: nat)
    requires Honest(device, s.size) && s.stage == Reading && !s.done && rounds <= stop
    requires var end := Scanned(s, device, rounds, stop); end.errors == s.errors && !end.done
    ensures var end := Scanned(s, device, rounds, stop);
      && |end.extents| == |s.extents| + stop - rounds && s.extents <= end.extents
      && forall k | |s.extents| <= k < |end.extents| :: end.extents[k].good
    decreases if s.stage == Reading && s.offset < s.size then s.size - s.offset + 1 else 0
  {
    if Readable(s) && rounds < stop {
      var r := device(s.offset, rounds);
      var s' := ReadOnce(s, r);
      ErrorsOnlyGrow(s', device, rounds + 1, stop);
      QuietScanWasStopped(s', device, rounds + 1, stop);
    }
  }

  /** A device that always returns something is read to its end without an error, if the scan is not stopped before. */
  lemma {:induction false} AnsweringDeviceIsRead(s: Scanner, device: Device, rounds: nat, stop: nat)
    requires Honest(device, s.size) && s.stage == Reading && rounds <= stop
    requires forall offset: nat, n: nat | offset < s.size :: device(offset, n).Got? && device(offset, n).bytes > 0
    requires s.offset <= s.size && s.size - s.offset <= stop - rounds
    ensures var end := Scanned(s, device, rounds, stop); end.done && end.errors == s.errors
    decreases if s.stage == Reading && s.offset < s.size then s.size - s.offset + 1 else 0
  {
    if !Readable(s) || rounds >= stop {
    } else {
      AnsweringDeviceIsRead(ReadOnce(s, device(s.offset, rounds)), device, rounds + 1, stop);
    }
  }

  lemma {:induction false} ErrorsOnlyGrow(s: Scanner, device: Device, rounds: nat, stop: nat)
    requires Honest(device, s.size)
    ensures s.errors <= Scanned(s, device, rounds, stop).errors
    decreases if s.stage == Reading && s.offset < s.size then s.size - s.offset + 1 else 0
  {
    if !Readable(s) || rounds >= stop {
    } else {
      ErrorsOnlyGrow(ReadOnce(s, device(s.offset, rounds)), device, rounds + 1, stop);
    }
  }

  class SurfaceScan {
    const size: nat
    var offset: nat
    var errors: seq<nat>
    var slowReads: nat
    var bytesRead: nat
    var done: bool
    var aborted: bool
    /** Whether the loop was left, which the source knows by where it is. */
    var stage: Stage
    ghost var start: nat
    ghost var extents: seq<Extent>

    ghost function Abs(): Scanner
      reads this
    {
      Scanner(size, start, offset, extents, |errors|, done, aborted, stage, false)
    }

    constructor (size: nat, offset: nat)
      ensures Abs() == Begun(size, offset) && slowReads == 0 && bytesRead == 0
    {
      this.size, this.offset := size, offset;
      errors, slowReads, bytesRead, done, aborted := [], 0, 0, false, false;
      stage, start, extents := Reading, offset, [];
    }

    /** Reads until the end, 64 errors, an early end of the device, or `stop` rounds. */
    method Run(device: Device, stop: nat)
      requires Honest(device, size) && Abs().stage == Reading && Sound(Abs()) && bytesRead == GoodBytes(extents)
      modifies this
      ensures Abs() == Scanned(old(Abs()), device, 0, stop)
      ensures bytesRead == GoodBytes(extents)
    {
      var rounds := 0;
      while stage == Reading && offset < size && rounds < stop
        invariant Scanned(Abs(), device, rounds, stop) == Scanned(old(Abs()), device, 0, stop)
        invariant bytesRead == GoodBytes(extents) && (stage == Reading ==> !done && !aborted)
        invariant stage != Reading ==> offset < size && (aborted ==> done)
        decreases stage == Reading, size - offset
      {
        ReadIsCounted(Abs(), device(offset, rounds));
        Read(device(offset, rounds));
        rounds := rounds + 1;
      }
      if offset >= size || aborted {
        done := true;
      }
      stage := if stage == Reading then Over else stage;
    }

    /** The loop's body; a broken loop shows in `stage`. */
    method Read(r: ReadResult)
      requires Readable(Abs()) && Fits(Abs(), r) && !done && !aborted
      modifies this`offset, this`errors, this`slowReads, this`bytesRead, this`done, this`aborted, this`stage
      modifies this`extents
      ensures Abs() == ReadOnce(old(Abs()), r)
      ensures bytesRead == old(bytesRead) + if r.Got? then r.bytes else 0
      ensures slowReads == old(slowReads) + (if r.Got? && r.slow then 1 else 0)
    {
      match r {
        case Unreadable => GiveUp();
        case Got(n, slow) =>
          if slow {
            slowReads := slowReads + 1;
          }
          if n <= 0 {
            errors := errors + [offset];
            stage := Over;
            return;
          }
          Advance(n, true);
      }
    }

    /** What could not be read is an error, and the 64th ends the scan. */
    method GiveUp()
      requires Readable(Abs())
      modifies this`offset, this`errors, this`bytesRead, this`done, this`aborted, this`stage, this`extents
      ensures Abs() == ReadOnce(old(Abs()), Unreadable) && bytesRead == old(bytesRead)
    {
      errors := errors + [offset];
      if |errors| >= MAX_READ_ERRORS {
        aborted, done, stage := true, true, Over;
      } else {
        var length := Min(CHUNK, size - offset);
        Advance(length, false);
      }
    }

    /** Goes on behind a region that was read, or that could not be. */
    method Advance(length: nat, good: bool)
      modifies this`offset, this`bytesRead, this`extents
      ensures offset == old(offset) + length && extents == old(extents) + [Extent(old(offset), length, good)]
      ensures bytesRead == old(bytesRead) + if good then length else 0
    {
      extents := extents + [Extent(offset, length, good)];
      bytesRead := bytesRead + if good then length else 0;
      offset := offset + length;
    }
  }

  lemma {:induction false} TilesAreOrdered(extents: seq<Extent>, lo: nat, hi: nat)
    requires Tiles(extents, lo, hi)
    ensures lo <= hi
    ensures forall e | e in extents :: lo <= e.start && e.End() <= hi && e.length > 0
  {
    if extents == [] {
    } else {
      TilesAreOrdered(extents[..|extents| - 1], lo, extents[|extents| - 1].start);
    }
  }

  /** Tiling means that every byte lies in exactly one extent. */
  lemma {:induction false} EveryByteInOneExtent(extents: seq<Extent>, lo: nat, hi: nat, byte: nat)
    requires Tiles(extents, lo, hi) && lo <= byte < hi
    ensures exists i | 0 <= i < |extents| ::
      && extents[i].start <= byte < extents[i].End()
      && forall j | 0 <= j < |extents| && j != i :: !(extents[j].start <= byte < extents[j].End())
  {
    var front := extents[..|extents| - 1];
    var last := extents[|extents| - 1];
    TilesAreOrdered(front, lo, last.start);
    if byte < last.start {
      EveryByteInOneExtent(front, lo, last.start, byte);
      var i :| 0 <= i < |front| && front[i].start <= byte < front[i].End()
        && forall j | 0 <= j < |front| && j != i :: !(front[j].start <= byte < front[j].End());
      assert extents[i] == front[i];
      forall j | 0 <= j < |extents| && j != i
        ensures !(extents[j].start <= byte < extents[j].End())
      {
        if j < |front| { assert extents[j] == front[j]; }
      }
    } else {
      forall j | 0 <= j < |extents| - 1
        ensures extents[j].End() <= byte
      {
        assert extents[j] == front[j] && front[j] in front;
      }
    }
  }

  lemma {:induction false} NoBadMeansAllGood(extents: seq<Extent>)
    requires Bad(extents) == 0
    ensures forall e | e in extents :: e.good
  {
    if extents == [] {
    } else {
      NoBadMeansAllGood(extents[..|extents| - 1]);
      assert extents == extents[..|extents| - 1] + [extents[|extents| - 1]];
    }
  }

  /** A scan that reached its end and met no error. */
  predicate Clean(s: Scanner) {
    s.stage == Reported && s.done && s.errors == 0
  }

  /** A clean scan has successfully read every byte from its start. */
  lemma {:induction false} CleanScanReadEverything(s: Scanner, byte: nat)
    requires Sound(s) && Clean(s) && s.start <= byte < s.size
    ensures exists e | e in s.extents :: e.good && e.start <= byte < e.End()
  {
    EveryByteInOneExtent(s.extents, s.start, s.offset, byte);
    NoBadMeansAllGood(s.extents);
    var i :| 0 <= i < |s.extents| && s.extents[i].start <= byte < s.extents[i].End();
    assert s.extents[i] in s.extents;
  }

  // ---------- scans over several boots

  /** One boot's scan: its extents, where it ended, and how many of them the offset saved last accounts for. */
  datatype BootScan = BootScan(start: nat, extents: seq<Extent>, end: nat, saved: nat)

  function SavedOffset(b: BootScan): nat
    requires b.saved <= |b.extents|
  {
    if b.saved == 0 then b.start else b.extents[b.saved - 1].End()
  }

  /** Each boot resumes where the boot before was saved; the first begins at zero. */
  ghost predicate Chained(boots: seq<BootScan>) {
    boots == [] ||
    var last, front := boots[|boots| - 1], boots[..|boots| - 1];
    && Chained(front)
    && Tiles(last.extents, last.start, last.end) && Bad(last.extents) < MAX_READ_ERRORS
    && last.saved <= |last.extents|
    && last.start == ResumeOffset(front)
  }

  /** The offset on disk after these boots. */
  function ResumeOffset(boots: seq<BootScan>): nat {
    if boots == [] then 0
    else var last := boots[|boots| - 1]; if last.saved <= |last.extents| then SavedOffset(last) else last.start
  }

  /** What all boots together read up to the offsets they were saved at. */
  ghost function Covered(boots: seq<BootScan>): seq<Extent>
    requires Chained(boots)
  {
    if boots == [] then []
    else
      var last := boots[|boots| - 1];
      Covered(boots[..|boots| - 1]) + last.extents[..last.saved]
  }

  lemma {:induction false} TilesPrefix(extents: seq<Extent>, lo: nat, hi: nat, k: nat)
    requires Tiles(extents, lo, hi) && k <= |extents|
    ensures Tiles(extents[..k], lo, if k == 0 then lo else extents[k - 1].End())
  {
    if k == |extents| {
      assert extents[..k] == extents;
    } else {
      var front := extents[..|extents| - 1];
      TilesPrefix(front, lo, extents[|extents| - 1].start, k);
      assert front[..k] == extents[..k];
      if k > 0 { assert front[k - 1] == extents[k - 1]; }
    }
  }

  lemma {:induction false} TilesJoin(a: seq<Extent>, b: seq<Extent>, lo: nat, mid: nat, hi: nat)
    requires Tiles(a, lo, mid) && Tiles(b, mid, hi)
    ensures Tiles(a + b, lo, hi)
  {
    if b == [] {
      assert a + b == a;
    } else {
      TilesJoin(a, b[..|b| - 1], lo, mid, b[|b| - 1].start);
      assert (a + b)[..|a + b| - 1] == a + b[..|b| - 1];
    }
  }

  lemma {:induction false} ChainTiles(boots: seq<BootScan>)
    requires Chained(boots)
    ensures Tiles(Covered(boots), 0, ResumeOffset(boots))
  {
    if boots == [] {
    } else {
      var last := boots[|boots| - 1];
      var front := boots[..|boots| - 1];
      ChainTiles(front);
      TilesPrefix(last.extents, last.start, last.end, last.saved);
      TilesJoin(Covered(front), last.extents[..last.saved], 0, last.start, SavedOffset(last));
    }
  }

  lemma {:induction false} BadOfPrefix(extents: seq<Extent>, k: nat)
    requires k <= |extents|
    ensures Bad(extents[..k]) <= Bad(extents)
  {
    if k < |extents| {
      BadOfPrefix(extents[..|extents| - 1], k);
      assert extents[..|extents| - 1][..k] == extents[..k];
    } else {
      assert extents[..k] == extents;
    }
  }

  lemma {:induction false} BadOfJoin(a: seq<Extent>, b: seq<Extent>)
    ensures Bad(a + b) == Bad(a) + Bad(b)
  {
    if b == [] {
      assert a + b == a;
    } else {
      BadOfJoin(a, b[..|b| - 1]);
      assert (a + b)[..|a + b| - 1] == a + b[..|b| - 1];
    }
  }

  lemma {:induction false} BadPerBoot(boots: seq<BootScan>)
    requires Chained(boots)
    ensures Bad(Covered(boots)) <= (MAX_READ_ERRORS - 1) * |boots|
  {
    if boots == [] {
    } else {
      var last := boots[|boots| - 1];
      var front := boots[..|boots| - 1];
      BadPerBoot(front);
      BadOfPrefix(last.extents, last.saved);
      BadOfJoin(Covered(front), last.extents[..last.saved]);
    }
  }

  /**
   Over any number of resumes, a scan that reached the end of the disk has put every byte
   into exactly one extent it read or gave up, with at most 63 given up per boot.
   */
  lemma {:induction false} ResumedScanCoversDisk(boots: seq<BootScan>, size: nat, byte: nat)
    requires boots != [] && Chained(boots) && byte < size
    requires var last := boots[|boots| - 1]; last.end == size && last.saved == |last.extents|
    ensures Tiles(Covered(boots), 0, size)
    ensures Bad(Covered(boots)) <= (MAX_READ_ERRORS - 1) * |boots|
    ensures exists i | 0 <= i < |Covered(boots)| ::
      && Covered(boots)[i].start <= byte < Covered(boots)[i].End()
      && forall j | 0 <= j < |Covered(boots)| && j != i ::
           !(Covered(boots)[j].start <= byte < Covered(boots)[j].End())
  {
    ChainTiles(boots);
    BadPerBoot(boots);
    var last := boots[|boots| - 1];
    assert SavedOffset(last) == size;
    EveryByteInOneExtent(Covered(boots), 0, size, byte);
  }
}
