/** Win resolution (Application/Services/GameService.cs). A first draw picks
    one of three tiers; a winning tier takes a second draw to place the
    multiplier inside the tier's range; the win is the bet times the
    multiplier, rounded to cents. Draws and multipliers are exact reals. */
module Games {
  import opened Common
  import opened Money

  // Tier thresholds on the first draw.
  const LoseThreshold: real := 0.5
  const SmallWinThreshold: real := 0.9

  // Multiplier ranges, lower bound included, upper bound excluded.
  const SmallWinMinMultiplier: real := 1.0
  const SmallWinMaxMultiplier: real := 2.0
  const BigWinMinMultiplier: real := 2.0
  const BigWinMaxMultiplier: real := 10.0

  datatype Tier = Loss | SmallWin | BigWin

  /** The tier a first draw selects: a draw equal to a threshold belongs to
      the tier above it. */
  function TierOf(roll: real): Tier {
    if roll < LoseThreshold then Loss
    else if roll < SmallWinThreshold then SmallWin
    else BigWin
  }

  function MinMultiplier(tier: Tier): real
    requires tier != Loss
  {
    if tier == SmallWin then SmallWinMinMultiplier else BigWinMinMultiplier
  }

  function MaxMultiplier(tier: Tier): real
    requires tier != Loss
  {
    if tier == SmallWin then SmallWinMaxMultiplier else BigWinMaxMultiplier
  }

  /** The multiplier a second draw `r2` gives in a winning tier. */
  function Multiplier(tier: Tier, r2: real): real
    requires tier != Loss
  {
    MinMultiplier(tier) + r2 * (MaxMultiplier(tier) - MinMultiplier(tier))
  }

  /** The win for a bet at multiplier `m`: the bet times the multiplier,
      rounded to cents. */
  function Win(bet: real, m: real): real {
    Round2(bet * m)
  }

  /** A multiplier between `lo` and `hi` gives a win between the rounded
      `lo` and `hi` multiples of the bet, and never a negative one. */
  lemma WinBetween(bet: real, m: real, lo: real, hi: real)
    requires bet > 0.0 && 0.0 <= lo <= m <= hi
    ensures 0.0 <= Round2(lo * bet) <= Win(bet, m) <= Round2(hi * bet)
  {
    assert lo * bet <= bet * m by { assert bet * m - lo * bet == bet * (m - lo); }
    assert bet * m <= hi * bet by { assert hi * bet - bet * m == bet * (hi - m); }
    Round2Between(lo * bet, bet * m, hi * bet);
  }

  /** Every draw lies in [0, 1), as the production random source promises. */
  predicate AllUnit(draws: seq<real>) {
    forall i :: 0 <= i < |draws| ==> 0.0 <= draws[i] < 1.0
  }

  /** The lower end of the region of [0, 1) whose first draws select `tier`. */
  function RegionStart(tier: Tier): real {
    match tier
    case Loss => 0.0
    case SmallWin => LoseThreshold
    case BigWin => SmallWinThreshold
  }

  /** The upper end, excluded, of the region that selects `tier`. */
  function RegionEnd(tier: Tier): real {
    match tier
    case Loss => LoseThreshold
    case SmallWin => SmallWinThreshold
    case BigWin => 1.0
  }

  /** The three tiers split [0, 1) into the adjacent regions [0, 0.5),
      [0.5, 0.9) and [0.9, 1), of widths 0.5, 0.4 and 0.1: a draw selects a
      tier exactly when it lies in that tier's region, so both thresholds
      belong to the upper tier. */
  lemma TierRegions(roll: real, tier: Tier)
    requires 0.0 <= roll < 1.0
    ensures TierOf(roll) == tier <==> RegionStart(tier) <= roll < RegionEnd(tier)
    ensures RegionStart(Loss) == 0.0 && RegionEnd(Loss) == RegionStart(SmallWin)
    ensures RegionEnd(SmallWin) == RegionStart(BigWin) && RegionEnd(BigWin) == 1.0
    ensures RegionEnd(Loss) - RegionStart(Loss) == 0.5
    ensures RegionEnd(SmallWin) - RegionStart(SmallWin) == 0.4
    ensures RegionEnd(BigWin) - RegionStart(BigWin) == 0.1
    ensures TierOf(0.5) == SmallWin && TierOf(0.9) == BigWin
  {
  }

  /** Second draws r and 1 - r give multipliers symmetric about the one of
      r = 0.5, so for a uniform second draw the mean multiplier of a winning
      tier is its multiplier at 0.5. */
  lemma MultiplierSymmetric(tier: Tier, r: real)
    requires tier != Loss
    ensures Multiplier(tier, r) + Multiplier(tier, 1.0 - r) == 2.0 * Multiplier(tier, 0.5)
  {
  }

  /** The mean multiplier of a tier under a uniform second draw. */
  function MeanMultiplier(tier: Tier): real {
    if tier == Loss then 0.0 else Multiplier(tier, 0.5)
  }

  /** For a second draw in [0, 1) the small-win multiplier is 1 + r2 and
      lies in [1, 2), the big-win multiplier is 2 + 8 r2 and lies in [2, 10). */
  lemma MultiplierRange(tier: Tier, r2: real)
    requires tier != Loss && 0.0 <= r2 < 1.0
    ensures tier == SmallWin ==> Multiplier(tier, r2) == 1.0 + r2 && 1.0 <= Multiplier(tier, r2) < 2.0
    ensures tier == BigWin ==> Multiplier(tier, r2) == 2.0 + 8.0 * r2 && 2.0 <= Multiplier(tier, r2) < 10.0
  {
  }

  /** Before rounding, a small win lies in [bet, 2 bet) and a big win in
      [2 bet, 10 bet): a win is never less than the bet. */
  lemma UnroundedWinRange(tier: Tier, bet: real, r2: real)
    requires tier != Loss && bet > 0.0 && 0.0 <= r2 < 1.0
    ensures tier == SmallWin ==> bet <= bet * Multiplier(tier, r2) < 2.0 * bet
    ensures tier == BigWin ==> 2.0 * bet <= bet * Multiplier(tier, r2) < 10.0 * bet
  {
    var m := Multiplier(tier, r2);
    MultiplierRange(tier, r2);
    var lo, hi := MinMultiplier(tier), MaxMultiplier(tier);
    assert bet * m - lo * bet == bet * (m - lo);
    assert hi * bet - bet * m == bet * (hi - m);
  }

  /** Every multiplier of a tier's range is reached by exactly one second
      draw in [0, 1): the multiplier is an affine image of the draw. */
  lemma MultiplierInverse(tier: Tier, m: real)
    requires tier != Loss && MinMultiplier(tier) <= m < MaxMultiplier(tier)
    ensures var r2 := (m - MinMultiplier(tier)) / (MaxMultiplier(tier) - MinMultiplier(tier));
      0.0 <= r2 < 1.0 && Multiplier(tier, r2) == m
    ensures forall r :: Multiplier(tier, r) == m ==>
      r == (m - MinMultiplier(tier)) / (MaxMultiplier(tier) - MinMultiplier(tier))
  {
  }

  /** The probability of a tier under a uniform first draw: its region's width. */
  function TierWeight(tier: Tier): real {
    RegionEnd(tier) - RegionStart(tier)
  }

  /** The long-run return to player of a uniform source: each tier's
      probability times its mean multiplier, summed. The tier means are 1.5
      and 6, and the return is 1.2 times the bet. */
  function ExpectedMultiplier(): (e: real)
    ensures MeanMultiplier(SmallWin) == 1.5 && MeanMultiplier(BigWin) == 6.0
    ensures TierWeight(Loss) + TierWeight(SmallWin) + TierWeight(BigWin) == 1.0
    ensures e == 1.2
  {
    TierWeight(Loss) * MeanMultiplier(Loss)
    + TierWeight(SmallWin) * MeanMultiplier(SmallWin)
    + TierWeight(BigWin) * MeanMultiplier(BigWin)
  }

  /** A win, or the failure that stopped it, and the draws left over. */
  datatype Resolution = Resolution(win: Result<real>, rest: seq<real>)

  /** `GenerateWin(bet)` run against a source holding `draws`, consumed from
      the front. A non-positive bet is rejected before any draw is taken; a
      source that runs dry fails, with whatever draw was taken gone. */
  function Resolve(bet: real, draws: seq<real>): (r: Resolution)
    ensures bet <= 0.0 ==> r == Resolution(Err(InvalidArgument(NonPositiveBetMessage)), draws)
    ensures r.win.Err? <==>
      bet <= 0.0 || draws == [] || (TierOf(draws[0]) != Loss && |draws| == 1)
    ensures r.win.Err? && bet > 0.0 ==> r.win.error == DrawSourceExhausted && r.rest == []
    ensures r.win.Ok? ==> |r.rest| < |draws| && r.rest == draws[|draws| - |r.rest|..]
  {
    if bet <= 0.0 then Resolution(Err(InvalidArgument(NonPositiveBetMessage)), draws)
    else if draws == [] then Resolution(Err(DrawSourceExhausted), draws)
    else
      var tier := TierOf(draws[0]);
      if tier == Loss then Resolution(Ok(0.0), draws[1..])
      else if |draws| == 1 then Resolution(Err(DrawSourceExhausted), [])
      else Resolution(Ok(Win(bet, Multiplier(tier, draws[1]))), draws[2..])
  }

  /** A first draw below 0.5 loses: the win is 0 and exactly one draw is used. */
  lemma ResolveLoss(bet: real, draws: seq<real>)
    requires bet > 0.0 && draws != [] && draws[0] < 0.5
    ensures Resolve(bet, draws) == Resolution(Ok(0.0), draws[1..])
  {
  }

  /** A first draw in [0.5, 0.9), 0.5 included, is a small win of
      round2(bet * m) for the small-win multiplier m = 1 + r2, using two draws. */
  lemma ResolveSmallWin(bet: real, draws: seq<real>)
    requires bet > 0.0 && |draws| >= 2 && 0.5 <= draws[0] < 0.9
    ensures Resolve(bet, draws) == Resolution(Ok(Win(bet, Multiplier(SmallWin, draws[1]))), draws[2..])
  {
  }

  /** A first draw of 0.9 or more is a big win of round2(bet * m) for the
      big-win multiplier m = 2 + 8 r2, using two draws. */
  lemma ResolveBigWin(bet: real, draws: seq<real>)
    requires bet > 0.0 && |draws| >= 2 && draws[0] >= 0.9
    ensures Resolve(bet, draws) == Resolution(Ok(Win(bet, Multiplier(BigWin, draws[1]))), draws[2..])
  {
  }

  /** After rounding, a small win lies between round2(bet) and round2(2 bet). */
  lemma SmallWinRange(bet: real, r2: real)
    requires bet > 0.0 && 0.0 <= r2 < 1.0
    ensures 0.0 <= Round2(1.0 * bet) <= Win(bet, Multiplier(SmallWin, r2)) <= Round2(2.0 * bet)
  {
    var m := Multiplier(SmallWin, r2);
    MultiplierRange(SmallWin, r2);
    WinBetween(bet, m, 1.0, 2.0);
  }

  /** After rounding, a big win lies between round2(2 bet) and round2(10 bet). */
  lemma BigWinRange(bet: real, r2: real)
    requires bet > 0.0 && 0.0 <= r2 < 1.0
    ensures 0.0 <= Round2(2.0 * bet) <= Win(bet, Multiplier(BigWin, r2)) <= Round2(10.0 * bet)
  {
    var m := Multiplier(BigWin, r2);
    MultiplierRange(BigWin, r2);
    WinBetween(bet, m, 2.0, 10.0);
  }

  /** With draws from [0, 1), a win is zero on a loss, between round2(bet)
      and round2(2 bet) on a small win, and between round2(2 bet) and
      round2(10 bet) on a big win; in particular it is never negative. */
  lemma ResolveWinBounds(bet: real, draws: seq<real>)
    requires bet > 0.0 && AllUnit(draws) && Resolve(bet, draws).win.Ok?
    ensures var w := Resolve(bet, draws).win.value;
      w >= 0.0 &&
      (TierOf(draws[0]) == Loss ==> w == 0.0) &&
      (TierOf(draws[0]) == SmallWin ==> Round2(1.0 * bet) <= w <= Round2(2.0 * bet)) &&
      (TierOf(draws[0]) == BigWin ==> Round2(2.0 * bet) <= w <= Round2(10.0 * bet))
  {
    var tier := TierOf(draws[0]);
    if tier == SmallWin {
      SmallWinRange(bet, draws[1]);
    } else if tier == BigWin {
      BigWinRange(bet, draws[1]);
    }
  }

  /** With a bet of 10: a first draw of 0.3 loses; draws (0.6, 0.5) win 15;
      draws (0.95, 0.5) win 60; draws (0.6, 1.0), a second draw outside
      [0, 1), win 20. */
  lemma ResolveExamples()
    ensures Resolve(10.0, [0.3]) == Resolution(Ok(0.0), [])
    ensures Resolve(10.0, [0.6, 0.5]) == Resolution(Ok(15.0), [])
    ensures Resolve(10.0, [0.95, 0.5]) == Resolution(Ok(60.0), [])
    ensures Resolve(10.0, [0.6, 1.0]) == Resolution(Ok(20.0), [])
  {
    assert 10.0 * Multiplier(SmallWin, 1.0) == 2000 as real / 100.0;
    Round2OfCents(2000);
    assert Win(10.0, Multiplier(SmallWin, 1.0)) == 20.0;
    assert 10.0 * Multiplier(SmallWin, 0.5) == 1500 as real / 100.0;
    Round2OfCents(1500);
    assert Win(10.0, Multiplier(SmallWin, 0.5)) == 15.0;
    assert 10.0 * Multiplier(BigWin, 0.5) == 6000 as real / 100.0;
    Round2OfCents(6000);
    assert Win(10.0, Multiplier(BigWin, 0.5)) == 60.0;
  }

  /** The random source, as a queue of draws handed out front first; it fails
      once it is empty. Any draws are accepted, as by the test double; the
      production source only ever yields draws in [0, 1) (`AllUnit`). */
  class DrawSource {
    var pending: seq<real>

    constructor (draws: seq<real>)
      ensures pending == draws
    {
      pending := draws;
    }

    method NextDouble() returns (r: Result<real>)
      modifies this
      ensures old(pending) == [] ==> r == Err(DrawSourceExhausted) && pending == []
      ensures old(pending) != [] ==> r == Ok(old(pending)[0]) && pending == old(pending)[1..]
    {
      if pending == [] {
        return Err(DrawSourceExhausted);
      }
      r := Ok(pending[0]);
      pending := pending[1..];
    }
  }

  class GameService {
    const random: DrawSource

    constructor (random: DrawSource)
      ensures this.random == random
    {
      this.random := random;
    }

    /** Resolves a bet, taking the draws it needs from the source. */
    method GenerateWin(bet: real) returns (win: Result<real>)
      modifies random
      ensures Resolution(win, random.pending) == Resolve(bet, old(random.pending))
    {
      ghost var draws := random.pending;
      if bet <= 0.0 {
        return Err(InvalidArgument(NonPositiveBetMessage));
      }
      var roll := random.NextDouble();
      if roll.Err? {
        return Err(roll.error);
      }
      var tier := TierOf(roll.value);
      if tier == Loss {
        return Ok(0.0);
      }
      var r2 := random.NextDouble();
      if r2.Err? {
        return Err(r2.error);
      }
      win := Ok(Win(bet, Multiplier(tier, r2.value)));
      assert draws[1] == r2.value && random.pending == draws[2..];
    }
  }
}
