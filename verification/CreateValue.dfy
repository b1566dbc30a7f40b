/**
 The value arithmetic of an action: the funding target, the collector that accrues
 coins, fee and change shape, the split of the change, and the planned outputs with
 their final positions.
 */
module CreateValue {
  import opened Domain

  const CHANGE_OUTPUT_SIZE: nat := 34
  const MIN_SPEND_SIZE: nat := 192          // one P2PKH input and output

  datatype Output = Output(satoshis: nat, basket: Option<string>)

  datatype Fuel = Fuel(count: nat, satoshis: nat, basket: string)

  datatype Request = Request(outputs: seq<Output>, commission: Option<nat>, fuel: Option<Fuel>, providedSats: nat)

  datatype Origin = FromCaller | FromCommission | FromFuel | FromChange

  datatype Plan = Plan(satoshis: nat, basket: Option<string>, change: bool, origin: Origin, vout: nat)

  datatype Coin = Coin(satoshis: nat, inputSize: nat)

  datatype Funding = Funding(taken: seq<Coin>, fee: nat, change: nat, changeCount: nat, dustFloor: nat)

  // ---- sums ------------------------------------------------------------------------

  function Sum(values: seq<nat>): nat {
    if values == [] then 0 else values[0] + Sum(values[1..])
  }

  lemma {:induction false} SumConcat(a: seq<nat>, b: seq<nat>)
    ensures Sum(a + b) == Sum(a) + Sum(b)
    decreases |a|
  {
    if a == [] {
      assert a + b == b;
    } else {
      assert (a + b)[1..] == a[1..] + b;
      SumConcat(a[1..], b);
    }
  }

  lemma SumSnoc(a: seq<nat>, v: nat)
    ensures Sum(a + [v]) == Sum(a) + v
  {
    SumConcat(a, [v]);
    assert Sum([v]) == v + Sum([v][1..]) && [v][1..] == [];
  }

  lemma {:induction false} SumRepeat(n: nat, v: nat)
    ensures Sum(seq(n, _ => v)) == n * v
    decreases n
  {
    if n > 0 {
      assert seq(n, _ => v)[1..] == seq(n - 1, _ => v);
      SumRepeat(n - 1, v);
    }
  }

  function Values(plans: seq<Plan>): seq<nat> {
    seq(|plans|, i requires 0 <= i < |plans| => plans[i].satoshis)
  }

  function OutputValues(outputs: seq<Output>): seq<nat> {
    seq(|outputs|, i requires 0 <= i < |outputs| => outputs[i].satoshis)
  }

  function CoinValues(coins: seq<Coin>): seq<nat> {
    seq(|coins|, i requires 0 <= i < |coins| => coins[i].satoshis)
  }

  function CoinSizes(coins: seq<Coin>): seq<nat> {
    seq(|coins|, i requires 0 <= i < |coins| => coins[i].inputSize)
  }

  /** What the action pays out before change: caller's outputs, commission and fuel. */
  function Outgoing(r: Request): nat {
    Sum(OutputValues(r.outputs)) + FixedOutgoing(r)
  }

  function FixedOutgoing(r: Request): nat {
    (if r.commission.Some? then r.commission.value else 0) + FuelValue(r)
  }

  function FuelValue(r: Request): nat {
    if r.fuel.Some? then r.fuel.value.count * r.fuel.value.satoshis else 0
  }

  function FixedCount(r: Request): nat {
    |r.outputs| + (if r.commission.Some? then 1 else 0) + (if r.fuel.Some? then r.fuel.value.count else 0)
  }

  /** The net amount the funder must cover, and how many outputs it is told about. */
  method TargetAndCount(r: Request) returns (target: int, count: nat)
    ensures target == Outgoing(r) - r.providedSats
    ensures count == FixedCount(r)
  {
    var total := 0;
    for i := 0 to |r.outputs|
      invariant total == Sum(OutputValues(r.outputs[..i]))
    {
      assert OutputValues(r.outputs[..i + 1]) == OutputValues(r.outputs[..i]) + [r.outputs[i].satoshis];
      SumSnoc(OutputValues(r.outputs[..i]), r.outputs[i].satoshis);
      total := total + r.outputs[i].satoshis;
    }
    assert r.outputs[..|r.outputs|] == r.outputs;
    count := |r.outputs|;
    if r.commission.Some? {
      total := total + r.commission.value;
      count := count + 1;
    }
    if r.fuel.Some? {
      total := total + r.fuel.value.count * r.fuel.value.satoshis;
      count := count + r.fuel.value.count;
    }
    target := total - r.providedSats;
  }

  // ---- the collector ------------------------------------------------------------------

  /** The fee of so many bytes at a rate in satoshis per kilobyte, rounded up. */
  function FeeFor(rate: nat, size: nat): nat {
    (size * rate + 999) / 1000
  }

  lemma FeeGrows(rate: nat, a: nat, b: nat)
    requires a <= b
    ensures FeeFor(rate, a) <= FeeFor(rate, b)
  {
    assert b * rate == a * rate + (b - a) * rate && (b - a) * rate >= 0;
  }

  function DustFloor(rate: nat): nat {
    var floor := FeeFor(rate, MIN_SPEND_SIZE) * 2;
    if floor < 1 then 1 else floor
  }

  /** What a collector is set up with. */
  datatype Config = Config(
    target: int, baseSize: nat, rate: nat, outputCount: nat, requireChange: bool,
    desired: nat, minimumDesired: nat, maxPerTx: nat)

  /** What it has so far. */
  datatype Books = Books(txSize: nat, fee: nat, covered: nat, taken: seq<Coin>, changeCount: nat)

  predicate ValidConfig(g: Config) {
    g.desired >= 1 && g.minimumDesired >= 1 && g.maxPerTx >= 1
  }

  function ChangeOf(g: Config, b: Books): int {
    b.covered - (g.target + b.fee)
  }

  /** The largest count up to `n` whose shares reach the dust floor, and one if none does. */
  function CountDown(n: nat, change: nat, dust: nat): nat
    requires n >= 1
  {
    if n > 1 && change / n < dust then CountDown(n - 1, change, dust) else n
  }

  function ChangeCountOf(g: Config, change: nat): nat
    requires ValidConfig(g)
  {
    var wanted := change / g.minimumDesired + 1 - if change % g.minimumDesired < g.minimumDesired / 4 then 1 else 0;
    var cap := if g.maxPerTx < g.desired then g.maxPerTx else g.desired;
    CountDown(if wanted < 1 then 1 else if wanted > cap then cap else wanted, change, DustFloor(g.rate))
  }

  /** Plans the change the coins leave, and prices the outputs it takes. */
  function WithChange(g: Config, b: Books): Books
    requires ValidConfig(g)
  {
    if ChangeOf(g, b) <= 0 then b
    else
      var n := ChangeCountOf(g, ChangeOf(g, b));
      var size := b.txSize + n * CHANGE_OUTPUT_SIZE;
      b.(changeCount := n, txSize := size, fee := FeeFor(g.rate, size))
  }

  function Opened(g: Config): Books
    requires ValidConfig(g)
  {
    WithChange(g, Books(g.baseSize, FeeFor(g.rate, g.baseSize), 0, [], 0))
  }

  function WithCoin(g: Config, b: Books, coin: Coin): Books
    requires ValidConfig(g)
  {
    var size := b.txSize + coin.inputSize;
    WithChange(g, Books(size, FeeFor(g.rate, size), b.covered + coin.satoshis, b.taken + [coin], b.changeCount))
  }

  predicate Funded(g: Config, b: Books) {
    if g.outputCount == 0 || g.requireChange then b.changeCount > 0 && ChangeOf(g, b) >= DustFloor(g.rate)
    else ChangeOf(g, b) >= 0
  }

  /** Takes coins from what the store hands out until funded. */
  function Collected(g: Config, b: Books, coins: seq<Coin>): Books
    requires ValidConfig(g)
    decreases |coins|
  {
    if coins == [] || Funded(g, b) then b else Collected(g, WithCoin(g, b, coins[0]), coins[1..])
  }

  function ResultOf(g: Config, b: Books): Option<Funding> {
    if !Funded(g, b) then None
    else
      var change := ChangeOf(g, b);
      Some(Funding(b.taken, b.fee, change, if change < DustFloor(g.rate) then 0 else b.changeCount, DustFloor(g.rate)))
  }

  /** The books balance, the counted size covers what is in the transaction, and change without outputs is none. */
  ghost predicate Balanced(g: Config, b: Books) {
    && b.covered == Sum(CoinValues(b.taken))
    && b.fee == FeeFor(g.rate, b.txSize)
    && b.txSize >= g.baseSize + Sum(CoinSizes(b.taken)) + b.changeCount * CHANGE_OUTPUT_SIZE
    && (b.changeCount == 0 ==> ChangeOf(g, b) <= 0)
  }

  lemma {:induction false} CountDownIs(n: nat, change: nat, dust: nat)
    requires n >= 1
    ensures var m := CountDown(n, change, dust);
            1 <= m <= n && (m > 1 ==> change / m >= dust) && forall k :: m < k <= n ==> change / k < dust
    decreases n
  {
    if n > 1 && change / n < dust { CountDownIs(n - 1, change, dust); }
  }

  lemma OpenedBalanced(g: Config)
    requires ValidConfig(g)
    ensures Balanced(g, Opened(g))
  {
    assert Sum(CoinValues([])) == 0 && Sum(CoinSizes([])) == 0;
    var b := Books(g.baseSize, FeeFor(g.rate, g.baseSize), 0, [], 0);
    if ChangeOf(g, b) > 0 { WithChangePlansOutputs(g, b); }
  }

  lemma WithChangePlansOutputs(g: Config, b: Books)
    requires ValidConfig(g) && ChangeOf(g, b) > 0
    ensures 1 <= WithChange(g, b).changeCount <= g.desired && WithChange(g, b).changeCount <= g.maxPerTx
  {
    var change := ChangeOf(g, b);
    var wanted := change / g.minimumDesired + 1 - if change % g.minimumDesired < g.minimumDesired / 4 then 1 else 0;
    var cap := if g.maxPerTx < g.desired then g.maxPerTx else g.desired;
    CountDownIs(if wanted < 1 then 1 else if wanted > cap then cap else wanted, change, DustFloor(g.rate));
  }

  lemma WithCoinBalanced(g: Config, b: Books, coin: Coin)
    requires ValidConfig(g) && Balanced(g, b)
    ensures Balanced(g, WithCoin(g, b, coin))
  {
    assert CoinValues(b.taken + [coin]) == CoinValues(b.taken) + [coin.satoshis];
    assert CoinSizes(b.taken + [coin]) == CoinSizes(b.taken) + [coin.inputSize];
    SumSnoc(CoinValues(b.taken), coin.satoshis);
    SumSnoc(CoinSizes(b.taken), coin.inputSize);
    var size := b.txSize + coin.inputSize;
    var b1 := Books(size, FeeFor(g.rate, size), b.covered + coin.satoshis, b.taken + [coin], b.changeCount);
    if ChangeOf(g, b1) > 0 { WithChangePlansOutputs(g, b1); }
  }

  lemma {:induction false} CollectedBalanced(g: Config, b: Books, coins: seq<Coin>)
    requires ValidConfig(g) && Balanced(g, b)
    ensures Balanced(g, Collected(g, b, coins))
    decreases |coins|
  {
    if coins != [] && !Funded(g, b) {
      WithCoinBalanced(g, b, coins[0]);
      CollectedBalanced(g, WithCoin(g, b, coins[0]), coins[1..]);
    }
  }

  lemma {:induction false} CollectedTakes(g: Config, b: Books, coins: seq<Coin>)
    requires ValidConfig(g)
    ensures Collected(g, b, coins).taken <= b.taken + coins
    decreases |coins|
  {
    if coins != [] && !Funded(g, b) {
      var b1 := WithCoin(g, b, coins[0]);
      assert b1.taken == b.taken + [coins[0]];
      CollectedTakes(g, b1, coins[1..]);
      assert b1.taken + coins[1..] == b.taken + coins;
    }
  }

  /**
   What a funding result promises, whatever coins the store handed out: they cover
   target, fee and change; change comes with outputs exactly when it reaches the dust
   floor; the fee pays for every byte counted.
   */
  lemma FundingPromise(g: Config, coins: seq<Coin>)
    requires ValidConfig(g) && ResultOf(g, Collected(g, Opened(g), coins)).Some?
    ensures var r := ResultOf(g, Collected(g, Opened(g), coins)).value;
            && Sum(CoinValues(r.taken)) == g.target + r.fee + r.change
            && (r.changeCount > 0 <==> r.change >= DustFloor(g.rate))
            && r.fee >= FeeFor(g.rate, g.baseSize + Sum(CoinSizes(r.taken)) + r.changeCount * CHANGE_OUTPUT_SIZE)
            && r.dustFloor == DustFloor(g.rate) && r.taken <= coins
            && (g.outputCount == 0 || g.requireChange ==> r.changeCount > 0)
  {
    OpenedBalanced(g);
    CollectedBalanced(g, Opened(g), coins);
    CollectedTakes(g, Opened(g), coins);
    assert Opened(g).taken + coins == coins;
    var b := Collected(g, Opened(g), coins);
    var n := if ChangeOf(g, b) < DustFloor(g.rate) then 0 else b.changeCount;
    FeeGrows(g.rate, g.baseSize + Sum(CoinSizes(b.taken)) + n * CHANGE_OUTPUT_SIZE, b.txSize);
  }

  /** A payment of 1000 from a coin of 1236 at one satoshi a byte leaves 10: too little for an output. */
  lemma SmallChangeIsDonated()
    ensures var g := Config(1000, 44, 1000, 1, false, 1, 1000, 1);
            var r := ResultOf(g, Collected(g, Opened(g), [Coin(1236, 148)]));
            r.Some? && r.value.changeCount == 0 && r.value.change == 10
  {
    var g := Config(1000, 44, 1000, 1, false, 1, 1000, 1);
    var b := Books(44, FeeFor(1000, 44), 0, [], 0);
    assert Opened(g) == b;
    var coin := Coin(1236, 148);
    var b1 := Books(192, FeeFor(1000, 192), 1236, [] + [coin], 0);
    assert FeeFor(1000, 192) == 192;
    assert ChangeOf(g, b1) == 44;
    assert ChangeCountOf(g, 44) == 1;
    assert WithCoin(g, b, coin) == WithChange(g, b1);
    assert FeeFor(1000, 226) == 226;
    assert Collected(g, b, [coin]) == Collected(g, WithCoin(g, b, coin), [coin][1..]);
  }

  class Collector {
    const g: Config
    var txSize: nat
    var fee: nat
    var covered: nat
    var taken: seq<Coin>
    var changeCount: nat

    ghost function View(): Books
      reads this
    {
      Books(txSize, fee, covered, taken, changeCount)
    }

    constructor (g: Config)
      requires ValidConfig(g)
      ensures this.g == g && View() == Opened(g)
    {
      this.g := g;
      txSize, fee, covered, taken, changeCount := g.baseSize, FeeFor(g.rate, g.baseSize), 0, [], 0;
      new;
      CalculateChangeOutputs();
    }

    method CalculateChangeOutputs()
      requires ValidConfig(g)
      modifies this`txSize, this`fee, this`changeCount
      ensures View() == WithChange(g, old(View()))
    {
      var change := covered - (g.target + fee);
      if change <= 0 { return; }
      CalculateChangeCount(change);
      txSize := txSize + changeCount * CHANGE_OUTPUT_SIZE;
      fee := FeeFor(g.rate, txSize);
    }

    method CalculateChangeCount(change: nat)
      requires ValidConfig(g)
      modifies this`changeCount
      ensures changeCount == ChangeCountOf(g, change)
    {
      var n := change / g.minimumDesired + 1;
      if change % g.minimumDesired < g.minimumDesired / 4 { n := n - 1; }
      var cap := if g.maxPerTx < g.desired then g.maxPerTx else g.desired;
      n := if n < 1 then 1 else if n > cap then cap else n;
      ghost var first := n;
      while n > 1 && change / n < DustFloor(g.rate)
        invariant 1 <= n && CountDown(n, change, DustFloor(g.rate)) == CountDown(first, change, DustFloor(g.rate))
      {
        n := n - 1;
      }
      changeCount := n;
    }

    method Allocate(coin: Coin)
      requires ValidConfig(g)
      modifies this
      ensures View() == WithCoin(g, old(View()), coin)
    {
      taken := taken + [coin];
      txSize := txSize + coin.inputSize;
      fee := FeeFor(g.rate, txSize);
      covered := covered + coin.satoshis;
      CalculateChangeOutputs();
    }

    method Collect(coins: seq<Coin>) returns (r: Option<Funding>)
      requires ValidConfig(g)
      modifies this
      ensures View() == Collected(g, old(View()), coins)
      ensures r == ResultOf(g, View())
    {
      var i := 0;
      var funded := covered - (g.target + fee) >= if NeedsChange() then DustFloor(g.rate) else 0;
      funded := funded && (NeedsChange() ==> changeCount > 0);
      assert coins[0..] == coins;
      while i < |coins| && !funded
        invariant 0 <= i <= |coins| && (funded <==> Funded(g, View()))
        invariant Collected(g, View(), coins[i..]) == Collected(g, old(View()), coins)
      {
        assert coins[i..][1..] == coins[i + 1..];
        Allocate(coins[i]);
        i := i + 1;
        funded := covered - (g.target + fee) >= if NeedsChange() then DustFloor(g.rate) else 0;
        funded := funded && (NeedsChange() ==> changeCount > 0);
      }
      if !funded { return None; }
      var change := covered - (g.target + fee);
      r := Some(Funding(taken, fee, change, if change < DustFloor(g.rate) then 0 else changeCount, DustFloor(g.rate)));
    }

    predicate NeedsChange()
    {
      g.outputCount == 0 || g.requireChange
    }
  }

  // ---- the split of the change -----------------------------------------------------------

  /** Even shares; the last one takes the rest as well. */
  function Shares(total: nat, count: nat): seq<nat> {
    if count == 0 || total == 0 then []
    else seq(count, i => if i == count - 1 then total / count + total % count else total / count)
  }

  method DistributeChange(total: nat, count: nat) returns (values: seq<nat>)
    ensures values == Shares(total, count)
    ensures count > 0 && total > 0 ==> |values| == count && Sum(values) == total
    ensures forall i :: 0 <= i < |values| ==> values[i] >= total / count
  {
    if count == 0 || total == 0 { return []; }
    var share, rest := total / count, total % count;
    values := seq(count - 1, _ => share);
    SumRepeat(count - 1, share);
    SumSnoc(values, share + rest);
    values := values + [share + rest];
    assert total == count * share + rest;
    assert (count - 1) * share + share == count * share;
  }

  // ---- the planned outputs -----------------------------------------------------------------

  lemma ValuesSnoc(plans: seq<Plan>, p: Plan)
    ensures Sum(Values(plans + [p])) == Sum(Values(plans)) + p.satoshis
  {
    assert Values(plans + [p]) == Values(plans) + [p.satoshis];
    SumSnoc(Values(plans), p.satoshis);
  }

  function CallerOutputs(r: Request): seq<Plan> {
    seq(|r.outputs|, i requires 0 <= i < |r.outputs| => Plan(r.outputs[i].satoshis, r.outputs[i].basket, false, FromCaller, 0))
  }

  function CommissionOutputs(r: Request): seq<Plan> {
    if r.commission.Some? then [Plan(r.commission.value, None, false, FromCommission, 0)] else []
  }

  function FuelOutputs(f: Fuel): seq<Plan> {
    seq(f.count, _ => Plan(f.satoshis, Some(f.basket), true, FromFuel, 0))
  }

  function ChangeOutputs(values: seq<nat>, basket: string): seq<Plan> {
    seq(|values|, i requires 0 <= i < |values| => Plan(values[i], Some(basket), true, FromChange, 0))
  }

  /** Every output that does not depend on the funding, in order. */
  function FixedOutputs(r: Request): seq<Plan> {
    CallerOutputs(r) + CommissionOutputs(r) + if r.fuel.Some? then FuelOutputs(r.fuel.value) else []
  }

  /** Every planned output, in its first order: caller's, commission, fuel, then the funder's change in even shares. */
  function AllOutputs(r: Request, f: Funding, basket: string): seq<Plan> {
    FixedOutputs(r) + ChangeOutputs(Shares(f.change, f.changeCount), basket)
  }

  method CallerPlans(r: Request) returns (plans: seq<Plan>)
    ensures plans == CallerOutputs(r) && Sum(Values(plans)) == Sum(OutputValues(r.outputs))
  {
    plans := [];
    for i := 0 to |r.outputs|
      invariant plans == CallerOutputs(r)[..i]
    {
      plans := plans + [Plan(r.outputs[i].satoshis, r.outputs[i].basket, false, FromCaller, 0)];
    }
    assert Values(plans) == OutputValues(r.outputs);
  }

  method AddFuel(before: seq<Plan>, f: Fuel) returns (plans: seq<Plan>)
    ensures plans == before + FuelOutputs(f)
    ensures Sum(Values(plans)) == Sum(Values(before)) + f.count * f.satoshis
  {
    plans := before;
    for i := 0 to f.count
      invariant plans == before + FuelOutputs(f)[..i]
      invariant Sum(Values(plans)) == Sum(Values(before)) + i * f.satoshis
    {
      ValuesSnoc(plans, Plan(f.satoshis, Some(f.basket), true, FromFuel, 0));
      assert (i + 1) * f.satoshis == i * f.satoshis + f.satoshis;
      plans := plans + [Plan(f.satoshis, Some(f.basket), true, FromFuel, 0)];
    }
  }

  method AddChange(before: seq<Plan>, values: seq<nat>, basket: string) returns (plans: seq<Plan>)
    ensures plans == before + ChangeOutputs(values, basket)
    ensures Sum(Values(plans)) == Sum(Values(before)) + Sum(values)
  {
    plans := before;
    for i := 0 to |values|
      invariant plans == before + ChangeOutputs(values, basket)[..i]
      invariant Sum(Values(plans)) == Sum(Values(before)) + Sum(values[..i])
    {
      assert values[..i + 1] == values[..i] + [values[i]];
      SumSnoc(values[..i], values[i]);
      ValuesSnoc(plans, Plan(values[i], Some(basket), true, FromChange, 0));
      plans := plans + [Plan(values[i], Some(basket), true, FromChange, 0)];
    }
    assert values[..|values|] == values;
  }

  method FixedPlans(r: Request) returns (plans: seq<Plan>)
    ensures plans == FixedOutputs(r) && |plans| == FixedCount(r) && Sum(Values(plans)) == Outgoing(r)
  {
    plans := CallerPlans(r);
    if r.commission.Some? {
      ValuesSnoc(plans, Plan(r.commission.value, None, false, FromCommission, 0));
      plans := plans + [Plan(r.commission.value, None, false, FromCommission, 0)];
    }
    assert plans == CallerOutputs(r) + CommissionOutputs(r);
    if r.fuel.Some? {
      plans := AddFuel(plans, r.fuel.value);
    }
  }

  method BuildOutputPlans(r: Request, f: Funding, basket: string) returns (plans: seq<Plan>)
    ensures plans == AllOutputs(r, f, basket) && |plans| == FixedCount(r) + (if f.change > 0 then f.changeCount else 0)
    ensures Sum(Values(plans)) == Outgoing(r) + (if f.changeCount > 0 then f.change else 0)
  {
    var fixed := FixedPlans(r);
    var values := DistributeChange(f.change, f.changeCount);
    assert values == [] ==> Sum(values) == 0;
    plans := AddChange(fixed, values, basket);
  }

  // ---- positions -----------------------------------------------------------------------------

  function Unplaced(p: Plan): Plan {
    p.(vout := 0)
  }

  function UnplacedAll(plans: seq<Plan>): seq<Plan> {
    seq(|plans|, i requires 0 <= i < |plans| => Unplaced(plans[i]))
  }

  lemma TakeOut(b: seq<Plan>, i: nat)
    requires i < |b|
    ensures Sum(Values(b)) == b[i].satoshis + Sum(Values(b[..i] + b[i + 1..]))
  {
    var head, tail := Values(b[..i]), Values(b[i + 1..]);
    assert Values(b) == (head + [b[i].satoshis]) + tail;
    assert Values(b[..i] + b[i + 1..]) == head + tail;
    SumConcat(head + [b[i].satoshis], tail);
    SumSnoc(head, b[i].satoshis);
    SumConcat(head, tail);
  }

  /** Replacing one plan changes the total by the difference. */
  lemma ReplaceOne(b: seq<Plan>, i: nat, x: Plan)
    requires i < |b|
    ensures Sum(Values(b[i := x])) == Sum(Values(b)) - b[i].satoshis + x.satoshis
  {
    TakeOut(b, i);
    TakeOut(b[i := x], i);
    assert b[i := x][..i] == b[..i] && b[i := x][i + 1..] == b[i + 1..];
  }

  lemma SwapKeepsTotal(b: seq<Plan>, i: nat, j: nat)
    requires i < |b| && j < |b|
    ensures Sum(Values(b[i := b[j]][j := b[i]])) == Sum(Values(b))
  {
    ReplaceOne(b, i, b[j]);
    ReplaceOne(b[i := b[j]], j, b[i]);
  }

  /** Shuffles in place, from the last position down, with the draws of the random source. */
  method Shuffle(plans: array<Plan>, draw: nat -> nat)
    modifies plans
    ensures multiset(plans[..]) == multiset(old(plans[..]))
    ensures Sum(Values(plans[..])) == Sum(Values(old(plans[..])))
  {
    var i := plans.Length;
    while i > 1
      invariant 0 <= i <= plans.Length
      invariant multiset(plans[..]) == multiset(old(plans[..]))
      invariant Sum(Values(plans[..])) == Sum(Values(old(plans[..])))
    {
      i := i - 1;
      var j := draw(i) % (i + 1);
      ghost var b := plans[..];
      SwapKeepsTotal(b, i, j);
      plans[i], plans[j] := plans[j], plans[i];
      assert plans[..] == b[i := b[j]][j := b[i]];
    }
  }

  /** Numbers the outputs: the vouts are 0..n-1 and nothing else changes. */
  method AssignVouts(plans: array<Plan>)
    modifies plans
    ensures forall i :: 0 <= i < plans.Length ==> plans[i] == old(plans[i]).(vout := i)
  {
    for i := 0 to plans.Length
      invariant forall k :: 0 <= k < i ==> plans[k] == old(plans[k]).(vout := k)
      invariant forall k :: i <= k < plans.Length ==> plans[k] == old(plans[k])
    {
      plans[i] := plans[i].(vout := i);
    }
  }

  /** The positions a no-send caller is told about: exactly its change in the change basket. */
  method NoSendChangeVouts(isNoSend: bool, plans: seq<Plan>, basket: string) returns (vouts: seq<nat>)
    requires forall i :: 0 <= i < |plans| ==> plans[i].vout == i
    ensures !isNoSend ==> vouts == []
    ensures isNoSend ==> forall v: nat :: v in vouts <==> v < |plans| && plans[v].change && plans[v].basket == Some(basket)
    ensures forall i, j :: 0 <= i < j < |vouts| ==> vouts[i] < vouts[j]
  {
    vouts := [];
    if !isNoSend { return; }
    for i := 0 to |plans|
      invariant forall v: nat :: v in vouts <==> v < i && plans[v].change && plans[v].basket == Some(basket)
      invariant forall a :: 0 <= a < |vouts| ==> vouts[a] < i
      invariant forall a, b :: 0 <= a < b < |vouts| ==> vouts[a] < vouts[b]
    {
      if plans[i].change && plans[i].basket == Some(basket) {
        vouts := vouts + [plans[i].vout];
      }
    }
  }

  /** Shuffles and numbers the plans: the same outputs at positions 0..n-1. */
  method PlaceOutputs(ordered: seq<Plan>, randomize: bool, draw: nat -> nat) returns (plans: seq<Plan>)
    requires forall i :: 0 <= i < |ordered| ==> ordered[i].vout == 0
    ensures |plans| == |ordered| && multiset(UnplacedAll(plans)) == multiset(ordered)
    ensures forall i :: 0 <= i < |plans| ==> plans[i].vout == i
    ensures Sum(Values(plans)) == Sum(Values(ordered))
  {
    var a := new Plan[|ordered|](i requires 0 <= i < |ordered| => ordered[i]);
    assert a[..] == ordered;
    if randomize {
      Shuffle(a, draw);
    }
    ghost var shuffled := a[..];
    AssignVouts(a);
    plans := a[..];
    assert Values(plans) == Values(shuffled);
    forall i | 0 <= i < |plans| ensures UnplacedAll(plans)[i] == shuffled[i] {
      assert shuffled[i] in multiset(ordered);
    }
    assert UnplacedAll(plans) == shuffled;
  }

  // ---- the action ------------------------------------------------------------------------------

  /** The wallet's funding settings and the size of the transaction before funding. */
  datatype Settings = Settings(baseSize: nat, rate: nat, requireChange: bool, desired: int, minimumDesired: nat, maxPerTx: nat)

  function ConfigOf(r: Request, s: Settings): Config
    requires s.maxPerTx > 0
    ensures ValidConfig(ConfigOf(r, s))
  {
    Config(Outgoing(r) - r.providedSats, s.baseSize, s.rate, FixedCount(r), s.requireChange,
           if s.desired < 1 then 1 else s.desired, if s.minimumDesired < 1 then 1 else s.minimumDesired, s.maxPerTx)
  }

  /** Change below the dust floor gets no output and is left to the miner. */
  function Donated(f: Funding): nat {
    if f.changeCount == 0 then f.change else 0
  }

  /** Funds an action from the coins the store hands out. */
  method FundAction(r: Request, s: Settings, coins: seq<Coin>) returns (f: Option<Funding>)
    ensures f.Some? <==> s.maxPerTx > 0 && Funded(ConfigOf(r, s), Collected(ConfigOf(r, s), Opened(ConfigOf(r, s)), coins))
    ensures f.Some? ==>
              && r.providedSats + Sum(CoinValues(f.value.taken)) == Outgoing(r) + f.value.fee + f.value.change
              && (f.value.changeCount > 0 <==> f.value.change >= f.value.dustFloor)
              && f.value.dustFloor == DustFloor(s.rate) && f.value.taken <= coins
  {
    if s.maxPerTx == 0 { return None; }
    var target, count := TargetAndCount(r);
    var g := Config(target, s.baseSize, s.rate, count, s.requireChange,
                    if s.desired < 1 then 1 else s.desired, if s.minimumDesired < 1 then 1 else s.minimumDesired, s.maxPerTx);
    var c := new Collector(g);
    f := c.Collect(coins);
    if f.Some? { FundingPromise(g, coins); }
  }

  /**
   The whole action: funded, planned, shuffled and numbered. The outputs are exactly
   the caller's, the commission, the fuel and the even change. Provided plus allocated
   value is planned outputs plus fee plus what was donated; nothing is donated exactly
   when there is no change or it reaches the dust floor.
   */
  method PlanAction(r: Request, s: Settings, coins: seq<Coin>, basket: string, randomize: bool, draw: nat -> nat)
    returns (f: Option<Funding>, plans: seq<Plan>)
    ensures f.Some? <==> s.maxPerTx > 0 && Funded(ConfigOf(r, s), Collected(ConfigOf(r, s), Opened(ConfigOf(r, s)), coins))
    ensures f.Some? ==>
              && r.providedSats + Sum(CoinValues(f.value.taken)) == Sum(Values(plans)) + f.value.fee + Donated(f.value)
              && (Donated(f.value) == 0 <==> f.value.change == 0 || f.value.change >= f.value.dustFloor)
              && f.value.dustFloor == DustFloor(s.rate) && f.value.taken <= coins
    ensures f.Some? ==>
              && |plans| == FixedCount(r) + f.value.changeCount
              && (forall i :: 0 <= i < |plans| ==> plans[i].vout == i)
              && multiset(UnplacedAll(plans)) == multiset(AllOutputs(r, f.value, basket))
  {
    plans := [];
    f := FundAction(r, s, coins);
    if f.None? { return; }
    var ordered := BuildOutputPlans(r, f.value, basket);
    plans := PlaceOutputs(ordered, randomize, draw);
  }
}
