/** Option validation and the ordered test plan of src/pccheck/config.py. */
module Config {

  datatype PhaseName =
    Inventory | Cpu | Memory | Mprime | YCruncher | Transient | Idle | Combined | PowerCycle

  // ---------- validated ranges

  datatype OptionName =
    | Hours | DestructiveCountdown | RebootCycles | MaxUnexpectedReboots | CpuTempWarn | DriveTempWarn
    | SlowReadSeconds | CeFail | MceFail | AerFail | SataLinkFail

  /** A parsed number; `NotFinite` is an infinity or NaN. */
  datatype Number = Finite(value: real) | NotFinite

  datatype Range = Range(name: OptionName, minimum: real, maximum: real, default: real)

  const RANGES: seq<Range> := [
    Range(Hours, 0.0, 8760.0, 0.0), Range(DestructiveCountdown, 0.0, 3600.0, 120.0),
    Range(RebootCycles, 0.0, 50.0, 0.0), Range(MaxUnexpectedReboots, 1.0, 50.0, 3.0),
    Range(CpuTempWarn, 20.0, 150.0, 90.0), Range(DriveTempWarn, 20.0, 150.0, 70.0),
    Range(SlowReadSeconds, 0.001, 3600.0, 5.0), Range(CeFail, 1.0, 1000000.0, 1.0),
    Range(MceFail, 1.0, 1000000.0, 1.0), Range(AerFail, 1.0, 1000000.0, 20.0),
    Range(SataLinkFail, 1.0, 1000000.0, 10.0)]

  predicate Within(r: Range, v: Number) {
    v.Finite? && r.minimum <= v.value <= r.maximum
  }

  type Values = map<OptionName, Number>

  predicate Complete(values: Values) {
    forall i | 0 <= i < |RANGES| :: RANGES[i].name in values
  }

  /**
   A value outside its range is replaced by the default and reported; the report blocks
   a PASS later, so a bad value can neither weaken a threshold nor go unnoticed.
   */
  method Validate(given: Values) returns (opts: Values, errors: seq<OptionName>)
    requires Complete(given)
    ensures Complete(opts)
    ensures forall i | 0 <= i < |RANGES| ::
      var (r, v, v') := (RANGES[i], given[RANGES[i].name], opts[RANGES[i].name]);
      && v'.Finite? && r.minimum <= v'.value <= r.maximum
      && (r.name in errors <==> !(v.Finite? && r.minimum <= v.value <= r.maximum))
      && v' == if r.name in errors then Finite(r.default) else v
  {
    opts, errors := given, [];
    var i := 0;
    while i < |RANGES|
      invariant 0 <= i <= |RANGES|
      invariant Complete(opts)
      invariant forall k | 0 <= k < i ::
        && (RANGES[k].name in errors <==> !Within(RANGES[k], given[RANGES[k].name]))
        && opts[RANGES[k].name] == (if Within(RANGES[k], given[RANGES[k].name]) then given[RANGES[k].name]
                                    else Finite(RANGES[k].default))
      invariant forall k | i <= k < |RANGES| :: RANGES[k].name !in errors && opts[RANGES[k].name] == given[RANGES[k].name]
    {
      var r := RANGES[i];
      if !Within(r, opts[r.name]) {
        errors := errors + [r.name];
        opts := opts[r.name := Finite(r.default)];
      }
      i := i + 1;
    }
  }

  // ---------- the plan

  datatype Planned = Planned(name: PhaseName, duration: nat)

  /** Share of the time budget per stress phase, in hundredths. */
  const PHASE_WEIGHTS: seq<(PhaseName, nat)> := [
    (Cpu, 12), (Memory, 20), (Mprime, 14), (YCruncher, 12), (Transient, 12), (Idle, 8), (Combined, 22)]

  function Share(total: real, weight: nat): (d: nat)
    requires total >= 0.0
    ensures d >= 60
    ensures total * weight as real >= 6000.0 ==> d as real <= total * weight as real / 100.0 < d as real + 1.0
    ensures total * weight as real < 6000.0 ==> d == 60
  {
    var d := (total * weight as real / 100.0).Floor;
    if d < 60 then 60 else d
  }

  /** The stress phases of the first `n` weights that are not skipped. */
  function StressPlan(total: real, skip: set<PhaseName>, n: nat): seq<Planned>
    requires total >= 0.0 && n <= |PHASE_WEIGHTS|
  {
    if n == 0 then []
    else
      var (name, weight) := PHASE_WEIGHTS[n - 1];
      StressPlan(total, skip, n - 1) + if name in skip then [] else [Planned(name, Share(total, weight))]
  }

  function Names(plan: seq<Planned>): (names: seq<PhaseName>)
    ensures |names| == |plan|
    ensures forall i | 0 <= i < |plan| :: names[i] == plan[i].name
  {
    seq(|plan|, i requires 0 <= i < |plan| => plan[i].name)
  }

  ghost predicate NoDuplicates<T>(s: seq<T>) {
    forall i, j | 0 <= i < j < |s| :: s[i] != s[j]
  }

  /** Inventory first, power cycling only last, and no phase twice. */
  ghost predicate WellFormed(names: seq<PhaseName>) {
    && NoDuplicates(names)
    && |names| > 0 && names[0] == Inventory
    && (forall i | 0 <= i < |names| - 1 :: names[i] != PowerCycle)
  }

  function Sum(plan: seq<Planned>): nat {
    if plan == [] then 0 else Sum(plan[..|plan| - 1]) + plan[|plan| - 1].duration
  }

  /** The whole plan: inventory, the stress phases in the order of their weights, power cycling last if asked for. */
  function PlanFor(total: real, skip: set<PhaseName>, rebootCycles: int): seq<Planned>
    requires total >= 0.0
  {
    [Planned(Inventory, 0)] + StressPlan(total, skip, |PHASE_WEIGHTS|) +
    if rebootCycles > 0 && PowerCycle !in skip then [Planned(PowerCycle, 0)] else []
  }

  method BuildPlan(total: real, skip: set<PhaseName>, rebootCycles: int) returns (plan: seq<Planned>)
    requires total >= 0.0
    ensures plan == PlanFor(total, skip, rebootCycles)
    ensures WellFormed(Names(plan))
    ensures forall i | 0 <= i < |PHASE_WEIGHTS| ::
      PHASE_WEIGHTS[i].0 in Names(plan) <==> PHASE_WEIGHTS[i].0 !in skip
    ensures PowerCycle in Names(plan) <==> rebootCycles > 0 && PowerCycle !in skip
    ensures skip == {} && total >= 750.0 ==> total - 7.0 < Sum(plan) as real <= total
  {
    plan := [Planned(Inventory, 0)];
    var i := 0;
    while i < |PHASE_WEIGHTS|
      invariant 0 <= i <= |PHASE_WEIGHTS|
      invariant plan == [Planned(Inventory, 0)] + StressPlan(total, skip, i)
    {
      var (name, weight) := PHASE_WEIGHTS[i];
      if name !in skip {
        plan := plan + [Planned(name, Share(total, weight))];
      }
      i := i + 1;
    }
    if rebootCycles > 0 && PowerCycle !in skip {
      plan := plan + [Planned(PowerCycle, 0)];
    }
    PlanForShape(total, skip, rebootCycles);
  }

  lemma {:induction false} PlanForShape(total: real, skip: set<PhaseName>, rebootCycles: int)
    requires total >= 0.0
    ensures var plan := PlanFor(total, skip, rebootCycles);
      && WellFormed(Names(plan))
      && (forall i | 0 <= i < |PHASE_WEIGHTS| :: PHASE_WEIGHTS[i].0 in Names(plan) <==> PHASE_WEIGHTS[i].0 !in skip)
      && (PowerCycle in Names(plan) <==> rebootCycles > 0 && PowerCycle !in skip)
      && (skip == {} && total >= 750.0 ==> total - 7.0 < Sum(plan) as real <= total)
  {
    var stress, plan := [Planned(Inventory, 0)] + StressPlan(total, skip, |PHASE_WEIGHTS|), PlanFor(total, skip, rebootCycles);
    StressPlanShape(total, skip, |PHASE_WEIGHTS|);
    if skip == {} && total >= 750.0 {
      Budget(total);
    }
    if rebootCycles > 0 && PowerCycle !in skip {
      assert plan == stress + [Planned(PowerCycle, 0)] && plan[..|plan| - 1] == stress;
      assert Names(plan) == Names(stress) + [PowerCycle];
      OneNameMore(Names(stress), PowerCycle);
    } else {
      assert plan == stress;
    }
  }

  lemma {:induction false} OneNameMore(names: seq<PhaseName>, name: PhaseName)
    requires NoDuplicates(names) && name !in names
    ensures NoDuplicates(names + [name])
    ensures forall p :: p in names + [name] <==> p in names || p == name
  {
  }

  lemma {:induction false} StressPlanShape(total: real, skip: set<PhaseName>, n: nat)
    requires total >= 0.0 && n <= |PHASE_WEIGHTS|
    ensures var names := Names([Planned(Inventory, 0)] + StressPlan(total, skip, n));
            && NoDuplicates(names) && PowerCycle !in names
            && (forall i | 0 <= i < n :: PHASE_WEIGHTS[i].0 in names <==> PHASE_WEIGHTS[i].0 !in skip)
            && (forall i | n <= i < |PHASE_WEIGHTS| :: PHASE_WEIGHTS[i].0 !in names)
  {
    if n == 0 {
    } else {
      StressPlanShape(total, skip, n - 1);
      var before := Names([Planned(Inventory, 0)] + StressPlan(total, skip, n - 1));
      var after := Names([Planned(Inventory, 0)] + StressPlan(total, skip, n));
      var name := PHASE_WEIGHTS[n - 1].0;
      if name !in skip {
        assert after == before + [name];
        OneNameMore(before, name);
      } else {
        assert after == before;
      }
    }
  }

  predicate OfWeight(p: Planned, i: nat)
    requires i < |PHASE_WEIGHTS|
  {
    p.name == PHASE_WEIGHTS[i].0
  }

  /** Of two entries the earlier one is the phase with the earlier weight, and each has the share of its weight. */
  ghost predicate InWeightOrder(plan: seq<Planned>) {
    forall x, y, i, j |
      && 0 <= x < y < |plan| && 0 <= i < |PHASE_WEIGHTS| && 0 <= j < |PHASE_WEIGHTS|
      && OfWeight(plan[x], i) && OfWeight(plan[y], j) :: i < j
  }

  ghost predicate HasShares(total: real, plan: seq<Planned>)
    requires total >= 0.0
  {
    forall x, i | 0 <= x < |plan| && 0 <= i < |PHASE_WEIGHTS| && OfWeight(plan[x], i) ::
      plan[x].duration == Share(total, PHASE_WEIGHTS[i].1)
  }

  lemma {:induction false} WeightsAreDistinct(i: nat, j: nat)
    requires i < |PHASE_WEIGHTS| && j < |PHASE_WEIGHTS| && PHASE_WEIGHTS[i].0 == PHASE_WEIGHTS[j].0
    ensures i == j && PHASE_WEIGHTS[i].0 != Inventory && PHASE_WEIGHTS[i].0 != PowerCycle
  {
  }

  /** The entries of the first `n` weights. */
  ghost predicate FromFirst(plan: seq<Planned>, n: nat)
    requires n <= |PHASE_WEIGHTS|
  {
    forall x | 0 <= x < |plan| :: OfFirst(plan[x], n)
  }

  ghost predicate OfFirst(p: Planned, n: nat)
    requires n <= |PHASE_WEIGHTS|
  {
    exists i | 0 <= i < n :: OfWeight(p, i)
  }

  lemma {:induction false} FromMore(plan: seq<Planned>, n: nat)
    requires n < |PHASE_WEIGHTS| && FromFirst(plan, n)
    ensures FromFirst(plan, n + 1)
  {
    forall x | 0 <= x < |plan| ensures OfFirst(plan[x], n + 1) {
      assert OfFirst(plan[x], n);
      var i :| 0 <= i < n && OfWeight(plan[x], i);
      assert OfWeight(plan[x], i);
    }
  }

  lemma {:induction false} OneEntryMore(total: real, plan: seq<Planned>, k: nat)
    requires total >= 0.0 && k < |PHASE_WEIGHTS|
    requires FromFirst(plan, k) && InWeightOrder(plan) && HasShares(total, plan)
    ensures var longer := plan + [Planned(PHASE_WEIGHTS[k].0, Share(total, PHASE_WEIGHTS[k].1))];
      FromFirst(longer, k + 1) && InWeightOrder(longer) && HasShares(total, longer)
  {
    var longer := plan + [Planned(PHASE_WEIGHTS[k].0, Share(total, PHASE_WEIGHTS[k].1))];
    forall x, i | 0 <= x < |longer| && 0 <= i < |PHASE_WEIGHTS| && OfWeight(longer[x], i)
      ensures if x < |plan| then i < k else i == k
    {
      if x < |plan| {
        assert longer[x] == plan[x] && OfFirst(plan[x], k);
        var l :| 0 <= l < k && OfWeight(plan[x], l);
        WeightsAreDistinct(i, l);
      } else {
        WeightsAreDistinct(i, k);
      }
    }
    FromMore(plan, k);
    assert OfWeight(longer[|plan|], k) && OfFirst(longer[|plan|], k + 1);
    forall x | 0 <= x < |longer| ensures OfFirst(longer[x], k + 1) {
      assert x < |plan| ==> longer[x] == plan[x] && OfFirst(plan[x], k + 1);
    }
  }

  lemma {:induction false} StressPlanIsOrdered(total: real, skip: set<PhaseName>, n: nat)
    requires total >= 0.0 && n <= |PHASE_WEIGHTS|
    ensures var plan := StressPlan(total, skip, n); FromFirst(plan, n) && InWeightOrder(plan) && HasShares(total, plan)
  {
    if n == 0 {
    } else {
      var front := StressPlan(total, skip, n - 1);
      StressPlanIsOrdered(total, skip, n - 1);
      if PHASE_WEIGHTS[n - 1].0 in skip {
        assert StressPlan(total, skip, n) == front;
        FromMore(front, n - 1);
      } else {
        assert StressPlan(total, skip, n) == front + [Planned(PHASE_WEIGHTS[n - 1].0, Share(total, PHASE_WEIGHTS[n - 1].1))];
        OneEntryMore(total, front, n - 1);
      }
    }
  }

  /** The stress phases come in the order of their weights, each with its share of the time. */
  lemma {:induction false} PlanIsOrdered(total: real, skip: set<PhaseName>, rebootCycles: int)
    requires total >= 0.0
    ensures var plan := PlanFor(total, skip, rebootCycles); InWeightOrder(plan) && HasShares(total, plan)
  {
    var stress, plan := StressPlan(total, skip, |PHASE_WEIGHTS|), PlanFor(total, skip, rebootCycles);
    StressPlanIsOrdered(total, skip, |PHASE_WEIGHTS|);
    forall x, i | 0 <= x < |plan| && 0 <= i < |PHASE_WEIGHTS| && OfWeight(plan[x], i)
      ensures 1 <= x <= |stress| && plan[x] == stress[x - 1]
    {
      WeightsAreDistinct(i, i);
    }
  }

  /** The first `n` shares before rounding. */
  function ExactShare(total: real, n: nat): real
    requires n <= |PHASE_WEIGHTS|
  {
    if n == 0 then 0.0 else ExactShare(total, n - 1) + total * PHASE_WEIGHTS[n - 1].1 as real / 100.0
  }

  lemma {:induction false} ShareIsRoundedDown(total: real, weight: nat)
    requires total >= 750.0 && weight >= 8
    ensures total * weight as real / 100.0 - 1.0 < Share(total, weight) as real <= total * weight as real / 100.0
  {
    assert total * weight as real >= 750.0 * weight as real >= 6000.0;
  }

  lemma {:induction false} BudgetOfPrefix(total: real, n: nat)
    requires total >= 750.0 && n <= |PHASE_WEIGHTS|
    ensures var sum := Sum([Planned(Inventory, 0)] + StressPlan(total, {}, n)) as real;
            && ExactShare(total, n) - n as real <= sum <= ExactShare(total, n)
            && (n > 0 ==> ExactShare(total, n) - n as real < sum)
  {
    var p0 := [Planned(Inventory, 0)];
    if n == 0 {
      assert p0 + StressPlan(total, {}, 0) == p0 && p0[..0] == [];
    } else {
      BudgetOfPrefix(total, n - 1);
      var weight := PHASE_WEIGHTS[n - 1].1;
      ShareIsRoundedDown(total, weight);
      var longer := p0 + StressPlan(total, {}, n);
      assert longer[..|longer| - 1] == p0 + StressPlan(total, {}, n - 1);
    }
  }

  lemma {:induction false} WeightsSumToOneHundred(total: real)
    ensures ExactShare(total, |PHASE_WEIGHTS|) == total
  {
    assert ExactShare(total, 0) == 0.0 && PHASE_WEIGHTS[0].1 == 12 && PHASE_WEIGHTS[1].1 == 20;
    assert ExactShare(total, 1) == total * 12.0 / 100.0;
    assert ExactShare(total, 2) == total * 12.0 / 100.0 + total * 20.0 / 100.0;
    assert ExactShare(total, 4) == ExactShare(total, 2) + total * 14.0 / 100.0 + total * 12.0 / 100.0;
    assert ExactShare(total, 6) == ExactShare(total, 4) + total * 12.0 / 100.0 + total * 8.0 / 100.0;
  }

  /** The seven shares fill the budget up to rounding. */
  lemma {:induction false} Budget(total: real)
    requires total >= 750.0
    ensures total - 7.0 < Sum([Planned(Inventory, 0)] + StressPlan(total, {}, |PHASE_WEIGHTS|)) as real <= total
  {
    BudgetOfPrefix(total, |PHASE_WEIGHTS|);
    WeightsSumToOneHundred(total);
  }
}
