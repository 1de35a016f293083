/** When an open position is left: the rules of one evaluation, and what the trailing stop
    does over a whole sequence of evaluations. */
module PositionExit {
  import opened Blocks

  const BPS := 10000

  datatype Settings = Settings(
    stopLossBps: nat, takeProfitBps: nat, liquidityDropBps: nat, trailingEnabled: bool, activationBps: nat, drawdownBps: nat,
    maxHoldingMinutes: nat, targetBuys: nat, emergencyMaxGas: nat, maxGasValueBps: nat)
  {
    predicate Valid() {
      1 <= stopLossBps <= BPS && 1 <= liquidityDropBps <= BPS && 1 <= drawdownBps <= BPS
    }
  }

  datatype Probe = Safe | UnknownProbe | Blocked

  datatype Metrics = Metrics(net: nat, cost: nat, liquidity: nat, gas: nat, probe: Probe)

  datatype ExitState = ExitState(reference: Option<nat>, peak: Option<nat>, armedAt: Option<int>)

  datatype Rule =
    | SellabilityUncertain | SellabilityBlocked | LiquidityDrop | StopLoss | MaxHoldingTime
    | TrailingStop | TakeProfit | TargetBuys | EmergencyGasExceeded | GasRatioExceeded

  datatype Action = Hold | Sell | EmergencySell | ManualReview

  datatype Evaluation = Evaluation(action: Action, rules: seq<Rule>, primary: Option<Rule>, state: ExitState)

  // --------------------------------------------------------- prudent value

  function ApplyBps(value: nat, remaining: nat): nat { value * remaining / BPS }

  function PrudentNetExitValue(quote: nat, taxBps: nat, bufferBps: nat, gas: nat): nat
    requires taxBps <= BPS && bufferBps <= BPS
  {
    var left := ApplyBps(ApplyBps(quote, BPS - taxBps), BPS - bufferBps);
    if left > gas then left - gas else 0
  }

  lemma Floor(value: nat, remaining: nat)
    ensures ApplyBps(value, remaining) * BPS <= value * remaining < ApplyBps(value, remaining) * BPS + BPS
  {
  }

  lemma Scaled(a: nat, x: nat, y: nat, k: nat)
    requires a <= x < a + k && y <= k
    ensures a * y <= x * y < a * y + k * k
  {
    if y > 0 {
      assert x * y < (a + k) * y;
      assert (a + k) * y == a * y + k * y;
      assert k * y <= k * k;
    }
  }

  /** The two rounded cuts never overstate the value, and understate it by less than 2 wei. */
  lemma CutsLoseLessThanTwoWei(quote: nat, taxBps: nat, bufferBps: nat)
    requires taxBps <= BPS && bufferBps <= BPS
    ensures var exact := quote * (BPS - taxBps) * (BPS - bufferBps);
      var left := PrudentNetExitValue(quote, taxBps, bufferBps, 0);
      left * BPS * BPS <= exact < (left + 2) * BPS * BPS
  {
    var x, y := BPS - taxBps, BPS - bufferBps;
    var a := ApplyBps(quote, x);
    Floor(quote, x);
    Floor(a, y);
    Scaled(a * BPS, quote * x, y, BPS);
    assert a * BPS * y == a * y * BPS;
  }

  // ------------------------------------------------------------ evaluation

  predicate ReachedLoss(current: nat, reference: nat, lossBps: nat) {
    current * BPS <= reference * (BPS - lossBps)
  }

  predicate ReachedGain(current: nat, reference: nat, gainBps: nat) {
    current * BPS >= reference * (BPS + gainBps)
  }

  function Highest(peak: Option<nat>, net: nat): nat {
    if peak.Some? && peak.value > net then peak.value else net
  }

  predicate Armed(s: Settings, st: ExitState, m: Metrics) {
    st.armedAt.Some? || ReachedGain(m.net, m.cost, s.activationBps)
  }

  /** Does the rule apply, whatever the others do? */
  predicate Applies(rule: Rule, s: Settings, st: ExitState, m: Metrics, now: int, openedAt: int, buys: nat) {
    match rule
    case SellabilityUncertain => m.probe.UnknownProbe?
    case SellabilityBlocked => m.probe.Blocked?
    case LiquidityDrop => st.reference.Some? && ReachedLoss(m.liquidity, st.reference.value, s.liquidityDropBps)
    case StopLoss => ReachedLoss(m.net, m.cost, s.stopLossBps)
    case MaxHoldingTime => now - openedAt >= s.maxHoldingMinutes * 60000
    case TrailingStop => s.trailingEnabled && Armed(s, st, m) && ReachedLoss(m.net, Highest(st.peak, m.net), s.drawdownBps)
    case TakeProfit => !s.trailingEnabled && ReachedGain(m.net, m.cost, s.takeProfitBps)
    case TargetBuys => buys >= s.targetBuys
    case EmergencyGasExceeded => false
    case GasRatioExceeded => false
  }

  /** The remembered state after an evaluation. */
  function Advance(s: Settings, st: ExitState, m: Metrics, now: int): ExitState {
    ExitState(
      Some(if st.reference.Some? then st.reference.value else m.liquidity),
      if s.trailingEnabled then Some(Highest(st.peak, m.net)) else st.peak,
      if s.trailingEnabled && st.armedAt.None? && Armed(s, st, m) then Some(now) else st.armedAt)
  }

  predicate GasTooHigh(s: Settings, m: Metrics) {
    m.net == 0 || m.gas * BPS > m.net * s.maxGasValueBps
  }

  /** `rules` are the rules that apply, each once, the most pressing first. */
  ghost predicate AreRules(rules: seq<Rule>, s: Settings, st: ExitState, m: Metrics, now: int, openedAt: int, buys: nat) {
    && (forall rule :: rule in rules <==> Applies(rule, s, st, m, now, openedAt, buys))
    && (rules != [] && !m.probe.Safe? ==> rules[0].SellabilityUncertain? || rules[0].SellabilityBlocked?)
    && (rules != [] && m.probe.Safe? && LiquidityDrop in rules ==> rules[0].LiquidityDrop?)
  }

  /** The part about the trailing stop, or the fixed target when it is off. */
  method CollectGains(s: Settings, st: ExitState, m: Metrics, now: int, before: seq<Rule>) returns (rules: seq<Rule>, peak: Option<nat>, armedAt: Option<int>)
    ensures Advance(s, st, m, now).peak == peak && Advance(s, st, m, now).armedAt == armedAt
    ensures before <= rules
    ensures forall x :: x in rules <==> x in before || ((x.TrailingStop? || x.TakeProfit?) && Applies(x, s, st, m, now, now, 0))
  {
    rules, peak, armedAt := before, st.peak, st.armedAt;
    if s.trailingEnabled {
      var previous := if st.peak.Some? then st.peak.value else m.net;
      peak := Some(if m.net > previous then m.net else previous);
      var armed := st.armedAt.Some? || ReachedGain(m.net, m.cost, s.activationBps);
      if armed && armedAt.None? {
        armedAt := Some(now);
      }
      rules := Collect(rules, TrailingStop, armed && ReachedLoss(m.net, peak.value, s.drawdownBps));
    } else {
      rules := Collect(rules, TakeProfit, ReachedGain(m.net, m.cost, s.takeProfitBps));
    }
  }

  /** The part about sellability and liquidity. */
  method CollectDangers(s: Settings, st: ExitState, m: Metrics) returns (rules: seq<Rule>)
    ensures forall rule :: rule in rules <==> Dangerous(rule) && Applies(rule, s, st, m, 0, 0, 0)
    ensures rules != [] && !m.probe.Safe? ==> rules[0].SellabilityUncertain? || rules[0].SellabilityBlocked?
    ensures rules != [] && m.probe.Safe? ==> rules[0].LiquidityDrop?
    ensures rules == [] ==> m.probe.Safe?
  {
    rules := [];
    if m.probe.UnknownProbe? {
      rules := rules + [SellabilityUncertain];
    } else if m.probe.Blocked? {
      rules := rules + [SellabilityBlocked];
    }
    if st.reference.Some? && ReachedLoss(m.liquidity, st.reference.value, s.liquidityDropBps) {
      rules := rules + [LiquidityDrop];
    }
  }

  predicate Dangerous(rule: Rule) {
    rule.SellabilityUncertain? || rule.SellabilityBlocked? || rule.LiquidityDrop?
  }

  method CollectRules(s: Settings, st: ExitState, m: Metrics, now: int, openedAt: int, buys: nat) returns (rules: seq<Rule>, next: ExitState)
    ensures AreRules(rules, s, st, m, now, openedAt, buys)
    ensures next == Advance(s, st, m, now)
  {
    rules := CollectDangers(s, st, m);
    rules := Collect(rules, StopLoss, ReachedLoss(m.net, m.cost, s.stopLossBps));
    rules := Collect(rules, MaxHoldingTime, now - openedAt >= s.maxHoldingMinutes * 60000);
    var peak, armedAt;
    rules, peak, armedAt := CollectGains(s, st, m, now, rules);
    rules := Collect(rules, TargetBuys, buys >= s.targetBuys);
    next := ExitState(Some(if st.reference.Some? then st.reference.value else m.liquidity), peak, armedAt);
  }

  function Collect(rules: seq<Rule>, rule: Rule, applies: bool): (r: seq<Rule>)
    ensures forall x :: x in r <==> x in rules || (x == rule && applies)
    ensures rules <= r
  {
    if applies then rules + [rule] else rules
  }

  /** One evaluation.  What it orders is settled, both ways, by which rules apply. */
  method EvaluatePositionExit(s: Settings, st: ExitState, m: Metrics, now: int, openedAt: int, buys: nat)
    returns (r: Evaluation, ghost base: seq<Rule>)
    ensures r.state == Advance(s, st, m, now) && AreRules(base, s, st, m, now, openedAt, buys)
    ensures r.action.Hold? <==> base == []
    ensures r.action.EmergencySell? <==> m.probe.Safe? && LiquidityDrop in base && m.gas <= s.emergencyMaxGas
    ensures r.action.Sell? <==> m.probe.Safe? && LiquidityDrop !in base && base != [] && !GasTooHigh(s, m)
    ensures r.rules == base + (
      if m.probe.Safe? && LiquidityDrop in base && m.gas > s.emergencyMaxGas then [EmergencyGasExceeded]
      else if m.probe.Safe? && LiquidityDrop !in base && base != [] && GasTooHigh(s, m) then [GasRatioExceeded]
      else [])
    ensures r.primary == if r.action.Hold? then None else if |r.rules| > |base| then Some(r.rules[|base|]) else Some(base[0])
  {
    var rules, next := CollectRules(s, st, m, now, openedAt, buys);
    base := rules;
    assert !m.probe.Safe? ==> Applies(if m.probe.Blocked? then SellabilityBlocked else SellabilityUncertain, s, st, m, now, openedAt, buys);
    var primary := if rules == [] then None else Some(rules[0]);
    var action := Hold;
    if primary == Some(SellabilityUncertain) || primary == Some(SellabilityBlocked) {
      assert rules[0] in rules;
      action := ManualReview;
    } else if primary == Some(LiquidityDrop) {
      if m.gas > s.emergencyMaxGas {
        rules, primary, action := rules + [EmergencyGasExceeded], Some(EmergencyGasExceeded), ManualReview;
      } else {
        action := EmergencySell;
      }
    } else if primary.Some? {
      if GasTooHigh(s, m) {
        rules, primary, action := rules + [GasRatioExceeded], Some(GasRatioExceeded), ManualReview;
      } else {
        action := Sell;
      }
    }
    r := Evaluation(action, rules, primary, next);
  }

  // ------------------------------------------------- sequences of evaluations

  const UNTOUCHED := ExitState(None, None, None)

  datatype Sample = Sample(net: nat, liquidity: nat, gas: nat, probe: Probe, now: int)

  function MetricsOf(x: Sample, cost: nat): Metrics { Metrics(x.net, cost, x.liquidity, x.gas, x.probe) }

  /** The state after a sequence of evaluations under fixed settings. */
  function After(s: Settings, cost: nat, xs: seq<Sample>): ExitState {
    if xs == [] then UNTOUCHED else
      var n := |xs| - 1;
      Advance(s, After(s, cost, xs[..n]), MetricsOf(xs[n], cost), xs[n].now)
  }

  /** The evaluation at which the value first reaches the activation gain. */
  predicate ArmsAt(s: Settings, cost: nat, xs: seq<Sample>, i: nat) {
    i < |xs| && ReachedGain(xs[i].net, cost, s.activationBps)
    && forall k :: 0 <= k < i ==> !ReachedGain(xs[k].net, cost, s.activationBps)
  }

  /** What is remembered is exact: the peak is the highest value seen, the stop is armed from the
      first evaluation that reaches the activation gain on, with that evaluation's time. */
  lemma {:induction false} Remembered(s: Settings, cost: nat, xs: seq<Sample>)
    requires s.trailingEnabled && xs != []
    ensures var st := After(s, cost, xs);
      && st.peak.Some? && (exists i :: 0 <= i < |xs| && xs[i].net == st.peak.value)
      && (forall i :: 0 <= i < |xs| ==> xs[i].net <= st.peak.value)
      && (st.armedAt.None? ==> forall i :: 0 <= i < |xs| ==> !ReachedGain(xs[i].net, cost, s.activationBps))
      && (st.armedAt.Some? ==> exists i: nat :: ArmsAt(s, cost, xs, i) && st.armedAt.value == xs[i].now)
  {
    var n := |xs| - 1;
    var st := After(s, cost, xs);
    var before := After(s, cost, xs[..n]);
    if n == 0 {
      assert st.peak == Some(xs[0].net);
      assert st.armedAt.Some? ==> ArmsAt(s, cost, xs, 0);
    } else {
      Remembered(s, cost, xs[..n]);
      var i :| 0 <= i < n && xs[..n][i].net == before.peak.value;
      assert xs[i].net == before.peak.value;
      if before.armedAt.Some? {
        var k: nat :| ArmsAt(s, cost, xs[..n], k) && before.armedAt.value == xs[..n][k].now;
        assert ArmsAt(s, cost, xs, k);
      } else {
        forall k | 0 <= k < n ensures !ReachedGain(xs[k].net, cost, s.activationBps) {
          assert xs[..n][k] == xs[k];
        }
        assert st.armedAt.Some? ==> ArmsAt(s, cost, xs, n);
      }
    }
  }

  /** An armed stop has seen the activation gain. */
  lemma ArmedHasGained(s: Settings, cost: nat, xs: seq<Sample>)
    requires s.trailingEnabled && After(s, cost, xs).armedAt.Some?
    ensures After(s, cost, xs).peak.Some? && ReachedGain(After(s, cost, xs).peak.value, cost, s.activationBps)
  {
    Remembered(s, cost, xs);
    var st := After(s, cost, xs);
    var i: nat :| ArmsAt(s, cost, xs, i) && st.armedAt.value == xs[i].now;
    GainIsMonotone(xs[i].net, st.peak.value, cost, s.activationBps);
  }

  lemma GainIsMonotone(a: nat, b: nat, reference: nat, bps: nat)
    requires a <= b && ReachedGain(a, reference, bps)
    ensures ReachedGain(b, reference, bps)
  {
  }

  /** Arming is a latch: once armed, at whatever evaluation, the stop stays armed since then. */
  lemma {:induction false} ArmedStaysArmed(s: Settings, cost: nat, xs: seq<Sample>, n: nat)
    requires s.trailingEnabled && n <= |xs| && After(s, cost, xs[..n]).armedAt.Some?
    ensures After(s, cost, xs).armedAt == After(s, cost, xs[..n]).armedAt
    decreases |xs|
  {
    if n == |xs| {
      assert xs[..n] == xs;
    } else {
      var before := xs[..|xs| - 1];
      assert before[..n] == xs[..n];
      ArmedStaysArmed(s, cost, before, n);
    }
  }

  /** Exactly when the trailing stop fires: at an evaluation strictly later than the one that
      armed it, when the value has fallen by the drawdown from the highest ever seen. */
  lemma TrailingStopFires(s: Settings, cost: nat, xs: seq<Sample>, x: Sample, openedAt: int, buys: nat)
    requires s.Valid() && s.trailingEnabled && cost > 0
    ensures Applies(TrailingStop, s, After(s, cost, xs), MetricsOf(x, cost), x.now, openedAt, buys)
      <==> (exists i: nat :: ArmsAt(s, cost, xs, i)) && ReachedLoss(x.net, Highest(After(s, cost, xs).peak, x.net), s.drawdownBps)
  {
    var st := After(s, cost, xs);
    if xs != [] {
      Remembered(s, cost, xs);
    }
    if st.armedAt.None? {
      assert forall i: nat :: !ArmsAt(s, cost, xs, i);
      if ReachedGain(x.net, cost, s.activationBps) {
        ArmingIsNotFiring(s, cost, xs, x);
      }
    }
  }

  /** On the evaluation that arms the stop the value is itself the highest seen. */
  lemma ArmingIsNotFiring(s: Settings, cost: nat, xs: seq<Sample>, x: Sample)
    requires s.Valid() && s.trailingEnabled && cost > 0
    requires After(s, cost, xs).armedAt.None? && ReachedGain(x.net, cost, s.activationBps)
    ensures Highest(After(s, cost, xs).peak, x.net) == x.net && !ReachedLoss(x.net, x.net, s.drawdownBps)
  {
    var st := After(s, cost, xs);
    if xs != [] {
      Remembered(s, cost, xs);
      var i :| 0 <= i < |xs| && xs[i].net == st.peak.value;
      assert xs[i].net * BPS < cost * (BPS + s.activationBps) <= x.net * BPS;
    }
    assert x.net > 0 by {
      assert cost * (BPS + s.activationBps) > 0;
    }
    assert x.net * (BPS - s.drawdownBps) < x.net * BPS;
  }
}
