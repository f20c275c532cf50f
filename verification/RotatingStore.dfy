/**
 The two-slot crash-safe file of src/pccheck/util.py.

 A document is written alternately to slot `seq % 2`, so that a write which a reset
 cuts short can spoil at most the older copy. Reading picks the readable copy with the
 largest sequence number. The main result is that, seen through `Read`, the two files
 behave like one atomic register (StoreHistory.RefinesAtomicRegister).
 */
module RotatingStore {
  import opened Wrappers

  datatype Slot<T> = Unreadable | Copy(data: T, num: nat)

  /** The two slots and the single file older versions wrote. */
  datatype Store<T> = Store(even: Slot<T>, odd: Slot<T>, legacy: Slot<T>)
  {
    function Slots(): seq<Slot<T>> {
      [even, odd, legacy]
    }
  }

  function Empty<T>(): Store<T> {
    Store(Unreadable, Unreadable, Unreadable)
  }

  /** A sequence counter; -1 is what reading nothing yields. */
  type Counter = n: int | -1 <= n witness -1

  datatype Reading<T> = Reading(best: Option<T>, num: Counter)

  function Newer<T>(r: Reading<T>, s: Slot<T>): Reading<T> {
    if s.Copy? && s.num >= r.num then Reading(Some(s.data), s.num) else r
  }

  function Newest<T>(slots: seq<Slot<T>>): Reading<T> {
    if slots == [] then Reading(None, -1)
    else Newer(Newest(slots[..|slots| - 1]), slots[|slots| - 1])
  }

  function Read<T>(store: Store<T>): Reading<T> {
    Newer(Newer(Newer(Reading(None, -1), store.even), store.odd), store.legacy)
  }

  function Put<T>(store: Store<T>, num: nat, s: Slot<T>): Store<T> {
    if num % 2 == 0 then store.(even := s) else store.(odd := s)
  }

  /** A write that completed. */
  function Write<T>(store: Store<T>, data: T, num: nat): Store<T> {
    Put(store, num, Copy(data, num))
  }

  /** What a reset leaves in the slot being written. */
  datatype Outcome = KeptOld | LeftUnreadable | WroteNew

  function Cut<T>(store: Store<T>, data: T, num: nat, how: Outcome): Store<T> {
    match how
    case KeptOld => store
    case LeftUnreadable => Put(store, num, Unreadable)
    case WroteNew => Write(store, data, num)
  }

  /** Every readable slot carries a sequence number of its own parity. */
  predicate Parity<T>(store: Store<T>) {
    && (store.even.Copy? ==> store.even.num % 2 == 0)
    && (store.odd.Copy? ==> store.odd.num % 2 == 1)
  }

  /** The two files of one document; src/pccheck/util.py:142-167. */
  class RotatingFile<T> {
    var store: Store<T>

    constructor (store: Store<T>)
      ensures this.store == store
    {
      this.store := store;
    }

    method WriteRotating(data: T, num: nat)
      modifies this
      ensures store == Write(old(store), data, num)
    {
      if num % 2 == 0 {
        store := store.(even := Copy(data, num));
      } else {
        store := store.(odd := Copy(data, num));
      }
    }

    method ReadRotating() returns (best: Option<T>, bestSeq: Counter)
      ensures Reading(best, bestSeq) == Read(store)
      ensures best.None? <==> forall s | s in store.Slots() :: s.Unreadable?
      ensures best.Some? ==> Copy(best.value, bestSeq) in store.Slots()
      ensures forall s | s in store.Slots() :: s.Copy? ==> s.num <= bestSeq
    {
      best, bestSeq := None, -1;
      var paths := store.Slots();
      var i := 0;
      while i < |paths|
        invariant 0 <= i <= |paths|
        invariant Reading(best, bestSeq) == Newest(paths[..i])
      {
        assert paths[..i + 1][..i] == paths[..i];
        if paths[i].Copy? && paths[i].num >= bestSeq {
          best, bestSeq := Some(paths[i].data), paths[i].num;
        }
        i := i + 1;
      }
      assert paths[..|paths|] == paths;
      NewestIsRead(store);
      NewestIsGreatest(paths);
    }
  }

  lemma {:induction false} NewestIsRead<T>(store: Store<T>)
    ensures Newest(store.Slots()) == Read(store)
  {
    var s := store.Slots();
    assert s[..2] == [store.even, store.odd] && s[..2][..1] == [store.even] && [store.even][..0] == [];
    assert Newest([store.even]) == Newer(Reading(None, -1), store.even);
  }

  lemma {:induction false} NewestIsGreatest<T>(slots: seq<Slot<T>>)
    ensures var r := Newest(slots);
      && (r.best.None? <==> r.num == -1)
      && (r.best.None? <==> forall s | s in slots :: s.Unreadable?)
      && (r.best.Some? ==> r.num >= 0 && Copy(r.best.value, r.num) in slots)
      && forall s | s in slots :: s.Copy? ==> s.num <= r.num
  {
    if slots == [] {
    } else {
      var front, last := slots[..|slots| - 1], slots[|slots| - 1];
      NewestIsGreatest(front);
      assert slots == front + [last];
      assert forall s :: s in slots <==> s in front || s == last;
    }
  }

  // ---------- one write, completed or cut

  lemma {:induction false} WriteIsRead<T>(store: Store<T>, data: T, num: nat)
    requires Parity(store) && num > Read(store).num
    ensures Read(Write(store, data, num)) == Reading(Some(data), num)
    ensures Parity(Write(store, data, num))
  {
  }

  /** A cut write is invisible or complete, whatever it left in its slot. */
  lemma {:induction false} CutIsOldOrNew<T>(store: Store<T>, data: T, how: Outcome)
    requires Parity(store)
    ensures var n := Read(store).num + 1;
            && Parity(Cut(store, data, n, how))
            && Read(Cut(store, data, n, how)) ==
               if how == WroteNew then Reading(Some(data), n) else Read(store)
  {
  }

  /**
   A failed attempt consumes a number. With `lag` failed attempts since the newest copy,
   the slot being written is the one holding that copy exactly when `lag` is odd; then
   an unreadable outcome loses the last completed save, unless the copy is still the
   single file of an older version.
   */
  lemma {:induction false} LaggingCutIsSafeIffEven<T>(store: Store<T>, data: T, lag: nat)
    requires Parity(store) && Read(store).best.Some?
    ensures var n := Read(store).num;
      && Parity(Cut(store, data, n + lag + 1, LeftUnreadable))
      && (Read(Cut(store, data, n + lag + 1, LeftUnreadable)) == Read(store) <==>
          lag % 2 == 0 || (store.legacy.Copy? && store.legacy.num == n))
  {
    var n := Read(store).num;
    assert (n + lag + 1) % 2 == n % 2 <==> lag % 2 == 1;
  }

}

/** Whole histories of saves, resets and reopens of one two-slot file. */
module StoreHistory {
  import opened Wrappers
  import opened RotatingStore

  datatype SaveEvent<T> =
    | Saved(data: T)                  // a save that returned
    | SaveCut(data: T, how: Outcome)  // a reset inside a save, then a reopen
    | Reopened                        // a reset between saves, then a reopen
    | SaveFailed(data: T)                 // an attempt that raised; nothing was written

  datatype Writer<T> = Writer(store: Store<T>, num: Counter)
  {
    function Lag(): int {
      num - Read(store).num
    }

    predicate Valid() {
      Parity(store) && Lag() >= 0
    }
  }

  function Step<T>(w: Writer<T>, e: SaveEvent<T>): Writer<T> {
    match e
    case Saved(data) => Writer(Write(w.store, data, w.num + 1), w.num + 1)
    case SaveCut(data, how) =>
      var store := Cut(w.store, data, w.num + 1, how);
      Writer(store, Read(store).num)
    case Reopened => Writer(w.store, Read(w.store).num)
    case SaveFailed(_) => w.(num := w.num + 1)
  }

  function RunWriter<T>(w: Writer<T>, events: seq<SaveEvent<T>>): Writer<T>
    decreases |events|
  {
    if events == [] then w else RunWriter(Step(w, events[0]), events[1..])
  }

  /** The atomic register: a save replaces the value, and a cut save does so or not. */
  function Register<T>(r: Option<T>, events: seq<SaveEvent<T>>): Option<T>
    decreases |events|
  {
    if events == [] then r
    else
      var r' :=
        match events[0]
        case Saved(data) => Some(data)
        case SaveCut(data, how) => if how == WroteNew then Some(data) else r
        case Reopened => r
        case SaveFailed(_) => r;
      Register(r', events[1..])
  }

  /** No write is cut while an odd number of failed attempts precedes it. */
  predicate EvenLagAtCuts<T>(w: Writer<T>, events: seq<SaveEvent<T>>)
    decreases |events|
  {
    events == [] ||
    (&& (events[0].SaveCut? && events[0].how == LeftUnreadable ==> w.Lag() % 2 == 0)
     && EvenLagAtCuts(Step(w, events[0]), events[1..]))
  }

  lemma {:induction false} CutRefines<T>(w: Writer<T>, data: T, how: Outcome)
    requires w.Valid() && (how == LeftUnreadable ==> w.Lag() % 2 == 0)
    ensures var store := Cut(w.store, data, w.num + 1, how);
      && Parity(store)
      && Read(store).best == if how == WroteNew then Some(data) else Read(w.store).best
  {
    match how {
      case KeptOld =>
      case LeftUnreadable =>
        if Read(w.store).best.Some? {
          LaggingCutIsSafeIffEven(w.store, data, w.Lag());
        }
      case WroteNew =>
        WriteIsRead(w.store, data, w.num + 1);
    }
  }

  lemma {:induction false} RegisterOfOne<T>(r: Option<T>, e: SaveEvent<T>)
    ensures Register(r, [e]) ==
      if e.Saved? || (e.SaveCut? && e.how == WroteNew) then Some(e.data) else r
  {
    assert [e][1..] == [];
  }

  lemma {:induction false} StepRefines<T>(w: Writer<T>, e: SaveEvent<T>)
    requires w.Valid() && EvenLagAtCuts(w, [e])
    ensures Step(w, e).Valid()
    ensures Read(Step(w, e).store).best == Register(Read(w.store).best, [e])
    ensures w.Lag() == 0 && !e.SaveFailed? ==> Step(w, e).Lag() == 0
  {
    RegisterOfOne(Read(w.store).best, e);
    match e {
      case Saved(data) =>
        WriteIsRead(w.store, data, w.num + 1);
      case SaveCut(data, how) =>
        CutRefines(w, data, how);
      case Reopened =>
      case SaveFailed(_) =>
    }
  }

  /**
   Through any number of saves, failed attempts, resets inside or between saves and
   reopens, reading yields exactly the atomic register's value: the last save that
   completed, or the one in progress at a reset, never an older one.
   */
  lemma {:induction false} RefinesAtomicRegister<T>(w: Writer<T>, events: seq<SaveEvent<T>>)
    requires w.Valid() && EvenLagAtCuts(w, events)
    ensures RunWriter(w, events).Valid()
    ensures Read(RunWriter(w, events).store).best == Register(Read(w.store).best, events)
    decreases |events|
  {
    if events == [] {
    } else {
      StepRefines(w, events[0]);
      RefinesAtomicRegister(Step(w, events[0]), events[1..]);
    }
  }

  /** Without failed attempts the refinement needs no further condition. */
  lemma {:induction false} RefinesWithoutFailures<T>(w: Writer<T>, events: seq<SaveEvent<T>>)
    requires Parity(w.store) && w.Lag() == 0
    requires forall e | e in events :: !e.SaveFailed?
    ensures RunWriter(w, events).Lag() == 0
    ensures Read(RunWriter(w, events).store).best == Register(Read(w.store).best, events)
    decreases |events|
  {
    if events == [] {
    } else {
      StepRefines(w, events[0]);
      RefinesWithoutFailures(Step(w, events[0]), events[1..]);
    }
  }

  /** With a failed attempt before it, a cut save can bring back an older document. */
  lemma {:induction false} FailedAttemptCanLoseNewestSave()
    ensures var w := Writer(Empty(), 0);
            var events := [Saved(1), Saved(2), SaveFailed(3), SaveCut(4, LeftUnreadable)];
            && Register(None, events) == Some(2)
            && Read(RunWriter(w, events).store).best == Some(1)
  {
    var w: Writer<int> := Writer(Empty(), 0);
    var e := [Saved(1), Saved(2), SaveFailed(3), SaveCut(4, LeftUnreadable)];
    var w1 := Step(w, e[0]);
    var w2 := Step(w1, e[1]);
    var w3 := Step(w2, e[2]);
    var w4 := Step(w3, e[3]);
    assert e[1..] == [e[1], e[2], e[3]] && e[1..][1..] == [e[2], e[3]] && e[1..][1..][1..] == [e[3]];
    assert e[1..][1..][1..][1..] == [];
    assert RunWriter(w, e) == w4;
    assert Register(None, e) == Register(Some(1), e[1..]) == Register(Some(2), e[1..][1..]);
  }
}
