/** The five wellness sub-score formulas.

    Each formula turns three raw measurements into three components and
    returns their sum rounded to one decimal. A component is a clamped linear
    term, a step ("band") function over ranges, or a neutral default used
    when the raw input is missing. A numeric input is "missing" when it is 0
    (the formulas test it for truthiness); only organic farms and beach
    distance are compared with `None` instead, and are `Option`s here.
    No formula clamps its result into [1, 10]. */
module ScoringMetrics {
  import opened Wrappers
  import opened Rounding

  function Min(a: real, b: real): real { if a <= b then a else b }

  function Max(a: real, b: real): real { if a >= b then a else b }

  // ---------------------------------------------------------------------
  // Healthcare
  // ---------------------------------------------------------------------

  /** Healthcare-system rank (lower is better) on a 0..5 scale. */
  function RankComponent(rank: real): (s: real)
    ensures 0.0 <= s
    ensures rank >= 0.0 ==> s <= 5.0
    ensures rank == 0.0 ==> s == 2.5
    ensures rank != 0.0 ==> (s == 0.0 <==> rank >= 200.0)
  {
    if rank != 0.0 then Max(5.0 - rank / 40.0, 0.0) else 2.5
  }

  /** Hospital beds per 1000 people on a 0..3 scale. */
  function BedsComponent(beds: real): (s: real)
    ensures s <= 3.0
    ensures beds == 0.0 ==> s == 1.5
    ensures beds > 0.0 ==> 0.0 < s
    ensures beds != 0.0 ==> (s == 3.0 <==> beds >= 4.5)
  {
    if beds != 0.0 then Min(beds / 1.5, 3.0) else 1.5
  }

  /** Doctors per 1000 people on a 0..2 scale. */
  function DoctorsComponent(doctors: real): (s: real)
    ensures s <= 2.0
    ensures doctors == 0.0 ==> s == 1.0
    ensures doctors > 0.0 ==> 0.0 < s
    ensures doctors != 0.0 ==> (s == 2.0 <==> doctors >= 2.0)
  {
    if doctors != 0.0 then Min(doctors, 2.0) else 1.0
  }

  function HealthcareScore(rank: real, beds: real, doctors: real): (r: real)
    ensures IsTenths(r)
    ensures rank >= 0.0 ==> r <= 10.0
    ensures beds >= 0.0 && doctors >= 0.0 ==> 0.0 <= r
    ensures rank == 0.0 && beds == 0.0 && doctors == 0.0 ==> r == 5.0
  {
    var sum := RankComponent(rank) + BedsComponent(beds) + DoctorsComponent(doctors);
    RoundKeepsTenthsBounds(sum, 0.0, 10.0);
    RoundFixesTenths(5.0);
    Round1(sum)
  }

  /** Past rank 0 a worse (larger) rank never earns more rank points. */
  lemma RankComponentNonIncreasing(a: real, b: real)
    requires 0.0 < a <= b
    ensures RankComponent(b) <= RankComponent(a)
  {
  }

  /** The formula does not clamp into [1, 10]: a poor rank with few beds
      and doctors scores below 1. */
  lemma HealthcareCanFallBelowOne()
    ensures HealthcareScore(200.0, 0.1, 0.1) < 1.0
  {
  }

  lemma HealthcareExample()
    ensures HealthcareScore(12.0, 3.0, 2.0) == 8.7
  {
    RoundCharacterised(8.7, 8.7);
  }

  // ---------------------------------------------------------------------
  // Climate
  // ---------------------------------------------------------------------

  /** Sunny days per year on a 0..4 scale. */
  function SunnyComponent(days: real): (s: real)
    ensures s <= 4.0
    ensures days == 0.0 ==> s == 2.0
    ensures days > 0.0 ==> 0.0 < s
    ensures days != 0.0 ==> (s == 4.0 <==> days >= 365.0)
  {
    if days != 0.0 then Min(days / 91.25, 4.0) else 2.0
  }

  /** Temperature bands: 4 on [20,25]; 3 on [15,20) and (25,30]; 2 on
      [10,15) and (30,35]; 1 elsewhere. */
  function TemperatureBand(celsius: real): (s: real)
    ensures 1.0 <= s <= 4.0
  {
    if 20.0 <= celsius <= 25.0 then 4.0
    else if 15.0 <= celsius < 20.0 || 25.0 < celsius <= 30.0 then 3.0
    else if 10.0 <= celsius < 15.0 || 30.0 < celsius <= 35.0 then 2.0
    else 1.0
  }

  /** How far a temperature lies outside the comfort interval [20, 25]. */
  function ComfortGap(celsius: real): (g: real)
    ensures 0.0 <= g
    ensures g == 0.0 <==> 20.0 <= celsius <= 25.0
  {
    Max(Max(20.0 - celsius, celsius - 25.0), 0.0)
  }

  function Ceiling(x: real): (n: int)
    ensures n as real - 1.0 < x <= n as real
  {
    -((-x).Floor)
  }

  /** An independent reading of the temperature bands: one point is lost for
      each started 5 degrees outside the comfort interval, down to 1. */
  lemma TemperatureBandByComfortGap(celsius: real)
    ensures TemperatureBand(celsius) == Max(1.0, 4.0 - Ceiling(ComfortGap(celsius) / 5.0) as real)
  {
    var g := ComfortGap(celsius);
    var c := Ceiling(g / 5.0);
    if g == 0.0 {
      assert c == 0;
    } else if g <= 5.0 {
      assert c == 1;
    } else if g <= 10.0 {
      assert c == 2;
    } else {
      assert c >= 3;
    }
  }

  /** Up to the top of the comfort interval warmer is never worse, and from
      its bottom on warmer is never better. */
  lemma TemperatureBandUnimodal(a: real, b: real)
    requires a <= b
    ensures b <= 25.0 ==> TemperatureBand(a) <= TemperatureBand(b)
    ensures 20.0 <= a ==> TemperatureBand(b) <= TemperatureBand(a)
  {
  }

  /** Temperature component; 0 degrees counts as missing and scores 2. */
  function TemperatureComponent(celsius: real): (s: real)
    ensures 1.0 <= s <= 4.0
    ensures celsius != 0.0 ==> s == TemperatureBand(celsius)
  {
    if celsius != 0.0 then TemperatureBand(celsius) else 2.0
  }

  /** A consequence of treating 0 as missing: 0 degrees scores 2 while every
      other temperature strictly between -10 and 10 scores 1. */
  lemma ZeroDegreesScoresAsMissing(celsius: real)
    requires -10.0 < celsius < 10.0 && celsius != 0.0
    ensures TemperatureComponent(celsius) == 1.0
    ensures TemperatureComponent(0.0) == 2.0
  {
  }

  /** Rainfall bands: 2 on [500,1200]; 1.5 on [250,500) and (1200,2000];
      1 elsewhere. */
  function RainfallBand(mm: real): (s: real)
    ensures 1.0 <= s <= 2.0
  {
    if 500.0 <= mm <= 1200.0 then 2.0
    else if 250.0 <= mm < 500.0 || 1200.0 < mm <= 2000.0 then 1.5
    else 1.0
  }

  /** Up to 1200 mm more rain is never worse; from 500 mm on it is never
      better. */
  lemma RainfallBandUnimodal(a: real, b: real)
    requires a <= b
    ensures b <= 1200.0 ==> RainfallBand(a) <= RainfallBand(b)
    ensures 500.0 <= a ==> RainfallBand(b) <= RainfallBand(a)
  {
  }

  function RainfallComponent(mm: real): (s: real)
    ensures mm == 0.0 ==> s == 1.0
  {
    if mm != 0.0 then RainfallBand(mm) else 1.0
  }

  /** The missing-rainfall default coincides with the band of 0 mm, so the
      component is the band everywhere. */
  lemma RainfallDefaultIsBand(mm: real)
    ensures RainfallComponent(mm) == RainfallBand(mm)
  {
  }

  function ClimateScore(sunnyDays: real, celsius: real, rainfallMm: real): (r: real)
    ensures IsTenths(r)
    ensures r <= 10.0
    ensures sunnyDays >= 0.0 ==> 2.0 <= r
    ensures sunnyDays == 0.0 && celsius == 0.0 && rainfallMm == 0.0 ==> r == 5.0
  {
    var sum := SunnyComponent(sunnyDays) + TemperatureComponent(celsius) + RainfallComponent(rainfallMm);
    RoundKeepsTenthsBounds(sum, 2.0, 10.0);
    RoundFixesTenths(5.0);
    Round1(sum)
  }

  lemma ClimateExample()
    ensures ClimateScore(180.0, 22.0, 800.0) == 8.0
  {
    RoundCharacterised(180.0 / 91.25 + 6.0, 8.0);
  }

  // ---------------------------------------------------------------------
  // Food quality
  // ---------------------------------------------------------------------

  /** Organic farms per 100,000 people on a 0..3 scale. Only a missing
      value (`None`) gets the default; a recorded 0 scores 0. */
  function OrganicComponent(farms: Option<real>): (s: real)
    ensures s <= 3.0
    ensures farms == None ==> s == 1.5
    ensures farms == Some(0.0) ==> s == 0.0
    ensures farms.Some? && farms.value >= 0.0 ==> 0.0 <= s
  {
    if farms.Some? then Min(farms.value / 33.33, 3.0) else 1.5
  }

  /** Traditional-cuisine preservation (1..10) on a 0..4 scale. */
  function TraditionComponent(rating: real): (s: real)
    ensures s <= 4.0
    ensures rating == 0.0 ==> s == 2.0
    ensures rating > 0.0 ==> 0.0 < s
    ensures rating != 0.0 ==> (s == 4.0 <==> rating >= 10.0)
  {
    if rating != 0.0 then Min(rating * 0.4, 4.0) else 2.0
  }

  /** Food-safety rating (1..10) on a 0..3 scale. */
  function SafetyComponent(rating: real): (s: real)
    ensures s <= 3.0
    ensures rating == 0.0 ==> s == 1.5
    ensures rating > 0.0 ==> 0.0 < s
    ensures rating != 0.0 ==> (s == 3.0 <==> rating >= 10.0)
  {
    if rating != 0.0 then Min(rating * 0.3, 3.0) else 1.5
  }

  function FoodQualityScore(organicFarms: Option<real>, cuisine: real, safety: real): (r: real)
    ensures IsTenths(r)
    ensures r <= 10.0
    ensures (organicFarms.Some? ==> organicFarms.value >= 0.0) && cuisine >= 0.0 && safety >= 0.0 ==> 0.0 <= r
    ensures organicFarms == None && cuisine == 0.0 && safety == 0.0 ==> r == 5.0
    ensures organicFarms == Some(0.0) && cuisine == 0.0 && safety == 0.0 ==> r == 3.5
  {
    var sum := OrganicComponent(organicFarms) + TraditionComponent(cuisine) + SafetyComponent(safety);
    RoundKeepsTenthsBounds(sum, 0.0, 10.0);
    RoundFixesTenths(5.0);
    RoundFixesTenths(3.5);
    Round1(sum)
  }

  // ---------------------------------------------------------------------
  // Cost of living
  // ---------------------------------------------------------------------

  /** Monthly cost bands (USD): at most 700 scores 4, at most 1200 scores 3,
      at most 2000 scores 2, more scores 1. */
  function MonthlyCostBand(usd: real): (s: real)
    ensures 1.0 <= s <= 4.0
  {
    if usd <= 700.0 then 4.0
    else if usd <= 1200.0 then 3.0
    else if usd <= 2000.0 then 2.0
    else 1.0
  }

  /** A cheaper month never scores lower. */
  lemma MonthlyCostBandNonIncreasing(a: real, b: real)
    requires a <= b
    ensures MonthlyCostBand(b) <= MonthlyCostBand(a)
  {
  }

  function MonthlyCostComponent(usd: real): (s: real)
    ensures 1.0 <= s <= 4.0
    ensures usd == 0.0 ==> s == 2.0
    ensures usd != 0.0 ==> s == MonthlyCostBand(usd)
  {
    if usd != 0.0 then MonthlyCostBand(usd) else 2.0
  }

  /** Purchasing power (New York = 100) on a 0..3 scale. */
  function PurchasingPowerComponent(power: real): (s: real)
    ensures s <= 3.0
    ensures power == 0.0 ==> s == 1.5
    ensures power > 0.0 ==> 0.0 < s
    ensures power != 0.0 ==> (s == 3.0 <==> power >= 99.99)
  {
    if power != 0.0 then Min(power / 33.33, 3.0) else 1.5
  }

  /** Housing price-to-income bands: at most 3 scores 3, at most 6 scores 2,
      at most 10 scores 1, more scores 0.5. */
  function HousingBand(ratio: real): (s: real)
    ensures 0.5 <= s <= 3.0
  {
    if ratio <= 3.0 then 3.0
    else if ratio <= 6.0 then 2.0
    else if ratio <= 10.0 then 1.0
    else 0.5
  }

  /** More affordable housing (a lower ratio) never scores lower. */
  lemma HousingBandNonIncreasing(a: real, b: real)
    requires a <= b
    ensures HousingBand(b) <= HousingBand(a)
  {
  }

  function HousingComponent(ratio: real): (s: real)
    ensures 0.5 <= s <= 3.0
    ensures ratio == 0.0 ==> s == 1.5
    ensures ratio != 0.0 ==> s == HousingBand(ratio)
  {
    if ratio != 0.0 then HousingBand(ratio) else 1.5
  }

  function CostOfLivingScore(monthlyUsd: real, purchasingPower: real, housingRatio: real): (r: real)
    ensures IsTenths(r)
    ensures r <= 10.0
    ensures purchasingPower >= 0.0 ==> 1.5 <= r
    ensures monthlyUsd == 0.0 && purchasingPower == 0.0 && housingRatio == 0.0 ==> r == 5.0
  {
    var sum := MonthlyCostComponent(monthlyUsd) + PurchasingPowerComponent(purchasingPower)
               + HousingComponent(housingRatio);
    RoundKeepsTenthsBounds(sum, 1.5, 10.0);
    RoundFixesTenths(5.0);
    Round1(sum)
  }

  // ---------------------------------------------------------------------
  // Beach access
  // ---------------------------------------------------------------------

  /** Distance bands (km): at most 1 scores 4, at most 5 scores 3, at most
      20 scores 2, at most 50 scores 1, farther scores 0. */
  function DistanceBand(km: real): (s: real)
    ensures 0.0 <= s <= 4.0
    ensures km <= 1.0 ==> s == 4.0
  {
    if km <= 1.0 then 4.0
    else if km <= 5.0 then 3.0
    else if km <= 20.0 then 2.0
    else if km <= 50.0 then 1.0
    else 0.0
  }

  /** A closer beach never scores lower. */
  lemma DistanceBandNonIncreasing(a: real, b: real)
    requires a <= b
    ensures DistanceBand(b) <= DistanceBand(a)
  {
  }

  /** Only a missing distance (`None`) gets the default 2; every recorded
      distance is banded, so any negative distance scores the top 4. */
  function DistanceComponent(km: Option<real>): (s: real)
    ensures 0.0 <= s <= 4.0
    ensures km == None ==> s == 2.0
    ensures km.Some? && km.value < 0.0 ==> s == 4.0
    ensures km.Some? ==> s == DistanceBand(km.value)
  {
    if km.Some? then DistanceBand(km.value) else 2.0
  }

  /** Beach quality (1..10) on a 0..4 scale. */
  function BeachQualityComponent(rating: real): (s: real)
    ensures s <= 4.0
    ensures rating == 0.0 ==> s == 2.0
    ensures rating > 0.0 ==> 0.0 < s
    ensures rating != 0.0 ==> (s == 4.0 <==> rating >= 10.0)
  {
    if rating != 0.0 then Min(rating * 0.4, 4.0) else 2.0
  }

  /** Beach facilities (1..10) on a 0..2 scale. */
  function FacilitiesComponent(rating: real): (s: real)
    ensures s <= 2.0
    ensures rating == 0.0 ==> s == 1.0
    ensures rating > 0.0 ==> 0.0 < s
    ensures rating != 0.0 ==> (s == 2.0 <==> rating >= 10.0)
  {
    if rating != 0.0 then Min(rating * 0.2, 2.0) else 1.0
  }

  function BeachAccessScore(km: Option<real>, quality: real, facilities: real): (r: real)
    ensures IsTenths(r)
    ensures r <= 10.0
    ensures quality >= 0.0 && facilities >= 0.0 ==> 0.0 <= r
    ensures km == None && quality == 0.0 && facilities == 0.0 ==> r == 5.0
  {
    var sum := DistanceComponent(km) + BeachQualityComponent(quality) + FacilitiesComponent(facilities);
    RoundKeepsTenthsBounds(sum, 0.0, 10.0);
    RoundFixesTenths(5.0);
    Round1(sum)
  }

  /** The entry layer records a skipped distance as -1, which scores as a
      beach right next door. */
  lemma NegativeDistanceScoresAsAdjacent(quality: real, facilities: real)
    ensures BeachAccessScore(Some(-1.0), quality, facilities)
            == BeachAccessScore(Some(0.5), quality, facilities)
  {
  }

  lemma BeachAccessExample()
    ensures BeachAccessScore(Some(0.5), 8.0, 5.0) == 8.2
  {
    RoundCharacterised(8.2, 8.2);
  }
}
