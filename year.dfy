/** The year-end projection of a player's Bed Wars statistics from one of
    their tracking sessions: how many stars they will have on 31 December at
    their current rate, and where each pair of counters (wins and losses,
    final kills and deaths, beds broken and lost, kills and deaths) will stand
    by then. */
module Year {
  import opened Wrappers
  import opened PyNum
  import opened Calendar

  /** The stored session row: the day the session started and the counters
      captured then, keyed by column name. */
  datatype SessionRow = SessionRow(date: Date, counters: map<string, int>)

  /** A projected pair of counters and their projected ratio. */
  datatype ProjectedPair = ProjectedPair(primary: int, secondary: int, ratio: real)

  /** The projected gain per star of wins, final kills and beds broken. */
  datatype PerStarFigures = PerStarFigures(wins: real, finals: real, beds: real)

  /** `get_per_star` divides by the projected star gain without a guard. */
  datatype PerStarError = ZeroDivision

  /** Stand-in for a level gain of exactly zero. */
  const LevelsGainedPlaceholder: real := 0.0001

  /** `d.get(key, 0)`. */
  function Get(d: map<string, int>, key: string): int {
    if key in d then d[key] else 0
  }

  function Abs(x: real): real {
    if x < 0.0 then -x else x
  }

  /** The projected ratio of a pair: 0 when the primary is 0, the primary
      itself when the secondary is 0, otherwise their quotient to two places. */
  function ProjectedRatio(primary: int, secondary: real): (r: real)
    ensures primary == 0 ==> r == 0.0
    ensures primary != 0 && secondary == 0.0 ==> r == primary as real
    ensures primary != 0 && secondary != 0.0 ==> r == Round2(primary as real / secondary)
    ensures Round2(r) == r
  {
    RoundWhole(0);
    RoundWhole(primary * 100);
    var r := Round2(if primary == 0 then 0.0
                    else if secondary != 0.0 then primary as real / secondary
                    else primary as real);
    Round2Idempotent(if primary == 0 then 0.0
                     else if secondary != 0.0 then primary as real / secondary
                     else primary as real);
    r
  }

  /** An error of at most one half, divided by `l`, is at most one half of `1/|l|`. */
  lemma DivBound(e: real, l: real)
    requires l != 0.0 && -0.5 <= e <= 0.5
    ensures Abs(e / l) <= 0.5 / Abs(l)
  {
    if l > 0.0 {
      assert e / l <= 0.5 / l by { assert (0.5 - e) / l >= 0.0; }
      assert -(0.5 / l) <= e / l by { assert (e + 0.5) / l >= 0.0; }
    } else {
      var m := -l;
      assert e / l == -(e / m);
      assert e / m <= 0.5 / m by { assert (0.5 - e) / m >= 0.0; }
      assert -(0.5 / m) <= e / m by { assert (e + 0.5) / m >= 0.0; }
    }
  }

  /** The quotient of a rounded product by one factor, to two places, stays
      near the other factor. */
  lemma QuotientNearFactor(n: int, l: real, a: real)
    requires l != 0.0
    requires l * a - 0.5 <= n as real <= l * a + 0.5
    ensures Abs(Round2(n as real / l) - a) <= 0.5 / Abs(l) + 0.005
  {
    var e := n as real - l * a;
    var q := n as real / l;
    assert (l * a) / l == a;
    assert e / l == n as real / l - (l * a) / l;
    DivBound(e, l);
    var r := Round2(q);
    assert Abs(r - a) <= Abs(r - q) + Abs(q - a);
  }

  /** A product rounded to a whole number and divided back by one factor, to
      two places, stays near the other factor. */
  lemma RoundedQuotientNear(n: int, v: real, l: real, a: real)
    requires l != 0.0 && v == l * a && n == Round(v)
    ensures Abs(Round2(n as real / l) - a) <= 0.5 / Abs(l) + 0.005
  {
    QuotientNearFactor(n, l, a);
  }

  /** Adding `f * v` with `f` the inverse of `p`, or zero, is adding `v / p`, or nothing. */
  lemma BoostShape(v: real, f: real, p: real)
    requires p != 0.0 && (f == 1.0 / p || f == 0.0)
    ensures f == 1.0 / p ==> v + f * v == v + v / p
    ensures f == 0.0 ==> v + f * v == v
  {
  }

  /** The star reached after `daysToGo` more days at `starsPerDay` from `level`. */
  function ProjectedLevel(starsPerDay: real, daysToGo: int, level: real): real {
    starsPerDay * daysToGo as real + level
  }

  lemma NonNegativeProduct(a: real, b: real)
    requires a >= 0.0 && b >= 0.0
    ensures a * b >= 0.0
  {
  }

  class YearStats {
    /** The mode's column prefix (empty for all modes together). */
    const mode: string
    const sessionData: SessionRow
    /** The player's current Bed Wars counters. */
    const hypixelDataBedwars: map<string, int>
    /** `r ** r` for a positive float `r`, and whether computing it overflows. */
    const selfPower: real -> real
    const powerOverflows: real -> bool

    const currentTime: Date
    const days: int
    const daysToGo: int
    const levelLocal: real
    const levelHypixel: real
    const levelsGained: real
    const starsPerDay: real
    const projectedStar: int
    const levelsToGo: real
    const levelRepetition: real

    var wins: Option<ProjectedPair>
    var finals: Option<ProjectedPair>
    var beds: Option<ProjectedPair>
    var kills: Option<ProjectedPair>

    /** The derived fields hang together and no divisor is zero. */
    ghost predicate Valid() {
      && Guarded()
      && starsPerDay == levelsGained / days as real
      && projectedStar == Trunc(ProjectedLevel(starsPerDay, daysToGo, levelHypixel))
      && levelsToGo == projectedStar as real - levelHypixel
      && levelRepetition == levelsToGo / levelsGained
    }

    /** No divisor the projection uses is zero: the elapsed days, the days to
        go, the levels gained, and `r ** r` where it is computed. */
    predicate Guarded() {
      && days != 0
      && 1 <= daysToGo <= 365
      && levelsGained != 0.0
      && (levelRepetition > 0.0 ==> selfPower(levelRepetition) > 0.0)
    }

    function Key(stat: string): string {
      mode + stat
    }

    /** The stored trajectories are the ones `Trajectory` gives for their counters. */
    ghost predicate TrajectoriesCurrent()
      reads this
      requires Valid()
    {
      && (wins.Some? ==>
            HasPair("wins_bedwars", "losses_bedwars")
            && wins.value == Trajectory(Key("wins_bedwars"), Key("losses_bedwars")))
      && (finals.Some? ==>
            HasPair("final_kills_bedwars", "final_deaths_bedwars")
            && finals.value == Trajectory(Key("final_kills_bedwars"), Key("final_deaths_bedwars")))
      && (beds.Some? ==>
            HasPair("beds_broken_bedwars", "beds_lost_bedwars")
            && beds.value == Trajectory(Key("beds_broken_bedwars"), Key("beds_lost_bedwars")))
      && (kills.Some? ==>
            HasPair("kills_bedwars", "deaths_bedwars")
            && kills.value == Trajectory(Key("kills_bedwars"), Key("deaths_bedwars")))
    }

    /** The session row has a column for both counters of a pair in this mode. */
    predicate HasPair(stat1: string, stat2: string) {
      Key(stat1) in sessionData.counters && Key(stat2) in sessionData.counters
    }

    /** Reads the session row and the current counters; `getLevel` turns
        experience into a (fractional) star level. */
    constructor (mode: string, sessionData: SessionRow, hypixelDataBedwars: map<string, int>,
                 currentTime: Date, getLevel: int -> real,
                 selfPower: real -> real, powerOverflows: real -> bool)
      requires ValidDate(sessionData.date) && ValidDate(currentTime)
      requires "Experience" in sessionData.counters
      requires forall r :: r > 0.0 ==> selfPower(r) > 0.0
      ensures Valid() && TrajectoriesCurrent()
      ensures this.mode == mode && this.sessionData == sessionData
      ensures this.hypixelDataBedwars == hypixelDataBedwars && this.currentTime == currentTime
      ensures this.selfPower == selfPower && this.powerOverflows == powerOverflows
      ensures var elapsed := Ordinal(currentTime) - Ordinal(sessionData.date);
              days == if elapsed == 0 then 1 else elapsed
      ensures var left := Ordinal(LastDayOfYear(currentTime.year)) - Ordinal(currentTime);
              daysToGo == if left == 0 then 1 else left
      ensures levelLocal == getLevel(sessionData.counters["Experience"])
      ensures levelHypixel == getLevel(Get(hypixelDataBedwars, "Experience"))
      ensures var gained := levelHypixel - levelLocal;
              levelsGained == if gained == 0.0 then LevelsGainedPlaceholder else gained
      ensures wins.None? && finals.None? && beds.None? && kills.None?
    {
      var days := Ordinal(currentTime) - Ordinal(sessionData.date);
      var daysToGo := Ordinal(LastDayOfYear(currentTime.year)) - Ordinal(currentTime);
      DaysLeftInYear(currentTime);
      if days == 0 { days := 1; }
      if daysToGo == 0 { daysToGo := 1; }

      var levelLocal := getLevel(sessionData.counters["Experience"]);
      var levelHypixel := getLevel(Get(hypixelDataBedwars, "Experience"));
      var levelsGained := levelHypixel - levelLocal;
      if levelsGained == 0.0 { levelsGained := LevelsGainedPlaceholder; }
      var starsPerDay := levelsGained / days as real;
      var projectedStar := Trunc(ProjectedLevel(starsPerDay, daysToGo, levelHypixel));
      var levelsToGo := projectedStar as real - levelHypixel;

      this.mode := mode;
      this.sessionData := sessionData;
      this.hypixelDataBedwars := hypixelDataBedwars;
      this.selfPower := selfPower;
      this.powerOverflows := powerOverflows;
      this.currentTime := currentTime;
      this.days := days;
      this.daysToGo := daysToGo;
      this.levelLocal := levelLocal;
      this.levelHypixel := levelHypixel;
      this.levelsGained := levelsGained;
      this.starsPerDay := starsPerDay;
      this.projectedStar := projectedStar;
      this.levelsToGo := levelsToGo;
      this.levelRepetition := levelsToGo / levelsGained;
      this.wins, this.finals, this.beds, this.kills := None, None, None, None;
    }

    /** `r ** r` is computed and does not overflow, so the boost applies. */
    predicate Boosted() {
      levelRepetition > 0.0 && !powerOverflows(levelRepetition)
    }

    /** `get_increase_factor(value)`: `value` plus a boost of `value / r^r`,
        rounded, where `r` is the level repetition; no boost when `r <= 0` or
        when `r^r` overflows. */
    function IncreaseFactor(value: real): (r: int)
      requires Guarded()
      ensures !Boosted() ==> r == Round(value)
      ensures Boosted() ==> r == Round(value + value / selfPower(levelRepetition))
    {
      var increaseFactor := if levelRepetition > 0.0 then
                              (if powerOverflows(levelRepetition) then 0.0 else 1.0 / selfPower(levelRepetition))
                            else 0.0;
      var increased := value + increaseFactor * value;
      BoostShape(value, increaseFactor, if Boosted() then selfPower(levelRepetition) else 1.0);
      Round(increased)
    }

    /** How much a counter has grown since the session started; a counter
        missing from the current data counts as 0. */
    function Gain(key: string): int
      requires key in sessionData.counters
    {
      Get(hypixelDataBedwars, key) - sessionData.counters[key]
    }

    /** `get_average(key)`: the gain per star since the session started and
        the current value (0 when the live data lacks the counter). The
        average times the levels gained gives back the gain. */
    function Average(key: string): (r: (real, int))
      requires Guarded() && key in sessionData.counters
      ensures r.1 == Get(hypixelDataBedwars, key)
      ensures r.0 * levelsGained == Gain(key) as real
    {
      var valueHypixel := Get(hypixelDataBedwars, key);
      var valueSession := valueHypixel - sessionData.counters[key];
      (valueSession as real / levelsGained, valueHypixel)
    }

    /** With a positive level gain, the average is negative exactly when the
        counter went down (a stat reset), and no error is raised either way. */
    lemma AverageSign(key: string)
      requires Guarded() && key in sessionData.counters && levelsGained > 0.0
      ensures Average(key).0 >= 0.0 <==> Get(hypixelDataBedwars, key) >= sessionData.counters[key]
    {
      var g := Gain(key) as real;
      if g >= 0.0 {
        assert g / levelsGained >= 0.0;
      } else {
        assert g / levelsGained < 0.0;
      }
    }

    /** The session's gain in a counter repeated `level_repetition` times:
        what the counter is expected to gain by the projected star. */
    function ProjectedGain(key: string): real
      requires key in sessionData.counters
    {
      Gain(key) as real * levelRepetition
    }

    /** The projected gain, levels to go times gain per star, is the gain so
        far repeated `level_repetition` times. */
    lemma RepeatedGain(key: string)
      requires Valid() && key in sessionData.counters
      ensures levelsToGo * Average(key).0 == ProjectedGain(key)
    {
      var g := Gain(key) as real;
      calc {
        levelsToGo * Average(key).0;
        levelsToGo * (g / levelsGained);
        g * (levelsToGo / levelsGained);
      }
    }

    /** `get_trajectory(key1, key2)`: the projected primary (boosted and
        rounded), the projected secondary (truncated) and their ratio, already
        rounded to two places. With no levels to go, both projections are the
        current values. */
    function Trajectory(key1: string, key2: string): (t: ProjectedPair)
      requires Guarded() && key1 in sessionData.counters && key2 in sessionData.counters
      ensures Round2(t.ratio) == t.ratio
      ensures levelsToGo == 0.0 ==> t.primary == Get(hypixelDataBedwars, key1)
                                    && t.secondary == Get(hypixelDataBedwars, key2)
    {
      var average1 := Average(key1);
      var average2 := Average(key2);
      var projectedValue1 := IncreaseFactor(levelsToGo * average1.0) + average1.1;
      var projectedValue2 := levelsToGo * average2.0 + average2.1 as real;
      var projectedRatio := ProjectedRatio(projectedValue1, projectedValue2);
      RoundWhole(0);
      ProjectedPair(projectedValue1, Trunc(projectedValue2), Round2(projectedRatio))
    }

    /** Each counter of a pair is projected to its current value plus its
        gain so far repeated `level_repetition` times: the primary boosted and
        rounded, the secondary truncated; the ratio is taken before the
        secondary is truncated. */
    lemma TrajectoryRepeatsGain(key1: string, key2: string)
      requires Valid() && key1 in sessionData.counters && key2 in sessionData.counters
      ensures var t := Trajectory(key1, key2);
              && t.primary == Get(hypixelDataBedwars, key1) + IncreaseFactor(ProjectedGain(key1))
              && t.secondary == Trunc(Get(hypixelDataBedwars, key2) as real + ProjectedGain(key2))
              && t.ratio == ProjectedRatio(t.primary, Get(hypixelDataBedwars, key2) as real + ProjectedGain(key2))
    {
      RepeatedGain(key1);
      RepeatedGain(key2);
    }

    /** Counters that only grew, projected over a non-negative repetition,
        never fall below their current values, and the boost never lowers the
        primary below its plain linear projection. */
    lemma TrajectoryNotBelowCurrent(key1: string, key2: string)
      requires Valid() && key1 in sessionData.counters && key2 in sessionData.counters
      requires Gain(key1) >= 0 && Gain(key2) >= 0 && levelRepetition >= 0.0
      ensures Trajectory(key1, key2).primary >= Get(hypixelDataBedwars, key1) + Round(ProjectedGain(key1))
      ensures Trajectory(key1, key2).primary >= Get(hypixelDataBedwars, key1)
      ensures Trajectory(key1, key2).secondary >= Get(hypixelDataBedwars, key2)
    {
      TrajectoryRepeatsGain(key1, key2);
      NonNegativeProduct(Gain(key1) as real, levelRepetition);
      NonNegativeProduct(Gain(key2) as real, levelRepetition);
      BoostNeverLowers(ProjectedGain(key1));
    }

    /** The boost never lowers a non-negative value, and never takes it below 0. */
    lemma BoostNeverLowers(v: real)
      requires Guarded() && v >= 0.0
      ensures IncreaseFactor(v) >= Round(v) >= 0
    {
      RoundWhole(0);
      RoundMonotone(0.0, v);
      if Boosted() {
        var p := selfPower(levelRepetition);
        assert v / p >= 0.0;
        RoundMonotone(v, v + v / p);
      }
    }

    /** Without the boost, the primary is within half a unit of the linear
        projection and the secondary within one unit. */
    lemma TrajectoryNearLinear(key1: string, key2: string)
      requires Valid() && key1 in sessionData.counters && key2 in sessionData.counters
      requires !Boosted()
      ensures var linear := Get(hypixelDataBedwars, key1) as real + ProjectedGain(key1);
              linear - 0.5 <= Trajectory(key1, key2).primary as real <= linear + 0.5
      ensures var linear := Get(hypixelDataBedwars, key2) as real + ProjectedGain(key2);
              linear - 1.0 < Trajectory(key1, key2).secondary as real < linear + 1.0
    {
      UnboostedPrimary(key1, key2);
      TrajectoryRepeatsGain(key1, key2);
    }

    /** A pair whose projected secondary is 0 reports the projected primary as
        the ratio instead of dividing by zero. */
    lemma RatioOfZeroSecondary(key1: string, key2: string)
      requires Valid() && key1 in sessionData.counters && key2 in sessionData.counters
      requires Get(hypixelDataBedwars, key2) as real + ProjectedGain(key2) == 0.0
      ensures Trajectory(key1, key2).ratio == Trajectory(key1, key2).primary as real
    {
      TrajectoryRepeatsGain(key1, key2);
    }

    method GetWins() returns (t: ProjectedPair)
      requires Valid() && TrajectoriesCurrent() && HasPair("wins_bedwars", "losses_bedwars")
      modifies this`wins
      ensures TrajectoriesCurrent() && wins == Some(t)
      ensures t == Trajectory(Key("wins_bedwars"), Key("losses_bedwars"))
    {
      t := Trajectory(Key("wins_bedwars"), Key("losses_bedwars"));
      wins := Some(t);
    }

    method GetFinals() returns (t: ProjectedPair)
      requires Valid() && TrajectoriesCurrent() && HasPair("final_kills_bedwars", "final_deaths_bedwars")
      modifies this`finals
      ensures TrajectoriesCurrent() && finals == Some(t)
      ensures t == Trajectory(Key("final_kills_bedwars"), Key("final_deaths_bedwars"))
    {
      t := Trajectory(Key("final_kills_bedwars"), Key("final_deaths_bedwars"));
      finals := Some(t);
    }

    method GetBeds() returns (t: ProjectedPair)
      requires Valid() && TrajectoriesCurrent() && HasPair("beds_broken_bedwars", "beds_lost_bedwars")
      modifies this`beds
      ensures TrajectoriesCurrent() && beds == Some(t)
      ensures t == Trajectory(Key("beds_broken_bedwars"), Key("beds_lost_bedwars"))
    {
      t := Trajectory(Key("beds_broken_bedwars"), Key("beds_lost_bedwars"));
      beds := Some(t);
    }

    method GetKills() returns (t: ProjectedPair)
      requires Valid() && TrajectoriesCurrent() && HasPair("kills_bedwars", "deaths_bedwars")
      modifies this`kills
      ensures TrajectoriesCurrent() && kills == Some(t)
      ensures t == Trajectory(Key("kills_bedwars"), Key("deaths_bedwars"))
    {
      t := Trajectory(Key("kills_bedwars"), Key("deaths_bedwars"));
      kills := Some(t);
    }

    /** `get_per_star`: for wins, final kills and beds, the projected gain
        divided by the projected star gain, to two places. It needs
        `get_wins`, `get_finals` and `get_beds` to have run, and fails when
        the projected star gain is zero. */
    function PerStar(): (r: Result<PerStarFigures, PerStarError>)
      reads this
      requires Valid() && TrajectoriesCurrent() && wins.Some? && finals.Some? && beds.Some?
      ensures r.Err? <==> levelsToGo == 0.0
      ensures r.Ok? ==> r.value.wins == Round2((wins.value.primary - Get(hypixelDataBedwars, Key("wins_bedwars"))) as real / levelsToGo)
      ensures r.Ok? ==> r.value.finals == Round2((finals.value.primary - Get(hypixelDataBedwars, Key("final_kills_bedwars"))) as real / levelsToGo)
      ensures r.Ok? ==> r.value.beds == Round2((beds.value.primary - Get(hypixelDataBedwars, Key("beds_broken_bedwars"))) as real / levelsToGo)
    {
      if levelsToGo == 0.0 then Err(ZeroDivision)
      else
        var avgWins := (wins.value.primary - Get(hypixelDataBedwars, Key("wins_bedwars"))) as real / levelsToGo;
        var avgFinals := (finals.value.primary - Get(hypixelDataBedwars, Key("final_kills_bedwars"))) as real / levelsToGo;
        var avgBeds := (beds.value.primary - Get(hypixelDataBedwars, Key("beds_broken_bedwars"))) as real / levelsToGo;
        Ok(PerStarFigures(Round2(avgWins), Round2(avgFinals), Round2(avgBeds)))
    }

    /** Without the boost, each projected per-star figure reproduces the
        session's own gain per star, up to rounding. */
    lemma PerStarMatchesAverage()
      requires Valid() && TrajectoriesCurrent() && wins.Some? && finals.Some? && beds.Some?
      requires !Boosted() && levelsToGo != 0.0
      ensures PerStar().Ok?
      ensures Abs(PerStar().value.wins - Average(Key("wins_bedwars")).0) <= 0.5 / Abs(levelsToGo) + 0.005
      ensures Abs(PerStar().value.finals - Average(Key("final_kills_bedwars")).0) <= 0.5 / Abs(levelsToGo) + 0.005
      ensures Abs(PerStar().value.beds - Average(Key("beds_broken_bedwars")).0) <= 0.5 / Abs(levelsToGo) + 0.005
    {
      UnboostedPrimary(Key("wins_bedwars"), Key("losses_bedwars"));
      UnboostedPrimary(Key("final_kills_bedwars"), Key("final_deaths_bedwars"));
      UnboostedPrimary(Key("beds_broken_bedwars"), Key("beds_lost_bedwars"));
      PerStarNear(Key("wins_bedwars"));
      PerStarNear(Key("final_kills_bedwars"));
      PerStarNear(Key("beds_broken_bedwars"));
    }

    /** One counter of `PerStarMatchesAverage`: the projected gain of `key`,
        rounded and divided back by the levels to go, is near its average. */
    lemma PerStarNear(key: string)
      requires Valid() && key in sessionData.counters && levelsToGo != 0.0
      ensures Abs(Round2(Round(ProjectedGain(key)) as real / levelsToGo) - Average(key).0)
              <= 0.5 / Abs(levelsToGo) + 0.005
    {
      RepeatedGain(key);
      RoundedQuotientNear(Round(ProjectedGain(key)), ProjectedGain(key), levelsToGo, Average(key).0);
    }

    /** Without the boost, the projected primary gains its projected gain, rounded. */
    lemma UnboostedPrimary(key1: string, key2: string)
      requires Valid() && key1 in sessionData.counters && key2 in sessionData.counters
      requires !Boosted()
      ensures Trajectory(key1, key2).primary - Get(hypixelDataBedwars, key1) == Round(ProjectedGain(key1))
    {
      TrajectoryRepeatsGain(key1, key2);
    }

    /** `get_items_purchased`: the current count plus the gain per star
        multiplied by the days left, rounded, so within 1/2 of that linear
        projection; with no items bought since the session started, exactly
        the current count. */
    function ItemsPurchased(): (r: int)
      requires Guarded() && Key("items_purchased_bedwars") in sessionData.counters
      ensures var k := Key("items_purchased_bedwars");
              var linear := Get(hypixelDataBedwars, k) as real + daysToGo as real * (Gain(k) as real / levelsGained);
              linear - 0.5 <= r as real <= linear + 0.5
      ensures Gain(Key("items_purchased_bedwars")) == 0
              ==> r == Get(hypixelDataBedwars, Key("items_purchased_bedwars"))
    {
      var average := Average(Key("items_purchased_bedwars"));
      var projectedItems := daysToGo as real * average.0 + average.1 as real;
      RoundWhole(average.1);
      Round(projectedItems)
    }

    /** Items only bought, over a positive level gain, project at least the
        current count. */
    lemma ItemsPurchasedNotBelowCurrent()
      requires Guarded() && Key("items_purchased_bedwars") in sessionData.counters
      requires Gain(Key("items_purchased_bedwars")) >= 0 && levelsGained > 0.0
      ensures ItemsPurchased() >= Get(hypixelDataBedwars, Key("items_purchased_bedwars"))
    {
      var average := Average(Key("items_purchased_bedwars"));
      AverageSign(Key("items_purchased_bedwars"));
      NonNegativeProduct(daysToGo as real, average.0);
      RoundWhole(average.1);
      RoundMonotone(average.1 as real, daysToGo as real * average.0 + average.1 as real);
    }

    /** `get_target`: the projected star, recomputed from the star rate. */
    function Target(): (r: int)
      requires Valid()
      ensures r == projectedStar
      ensures r as real - 1.0 < starsPerDay * daysToGo as real + levelHypixel < r as real + 1.0
    {
      var starsToGo := starsPerDay * daysToGo as real;
      Trunc(starsToGo + levelHypixel)
    }
  }
}
