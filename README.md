# Bed Wars stats bot: projections, daily periods and interaction gates

This project models, in Dafny, the decision and arithmetic core of a Discord bot that tracks Hypixel Bed Wars statistics. It covers three parts.

- **Year projection (`Year`).** `YearStats` is built from one stored tracking session: the day the session started and the counters captured then. It also takes the player's live counters.
  - It derives the days elapsed, the days left in the year, the levels gained, the star rate, the projected star on 31 December, the levels still to go and the "level repetition". The level repetition is how many times the session's progress repeats before the projected star.
  - From these it projects each pair of counters: wins and losses, final kills and deaths, beds broken and lost, kills and deaths.
  - It then derives the projected gain per star, the projected item purchases and the target star.
  - `YearStats` is a class. Fields that are set once in the constructor are `const`. The four projected pairs are `var` fields: `GetWins`, `GetFinals`, `GetBeds` and `GetKills` store them, and `PerStar` later reads them.
- **Daily periods (`Daily`).** These are rules from the `/daily` and `/lastday` commands:
  - when the daily statistics reset next, in the owner's fixed UTC offset;
  - the tier limit on the lookback depth, where -1 means unlimited;
  - clamping the depth to at least one day;
  - the stored period identifier `daily_YYYY_MM_DD` of the local date that many days back;
  - the overflow branch when that date does not exist.
- **Interaction checks (`Interactions`).** These are decisions taken before a command runs:
  - the blacklist and permission gate;
  - whether a player argument is a linked Discord id;
  - the session fallback. When the requested session is missing, session 1 is started from the current counters if the player has none, and "session not found" is reported either way. The session table is a `SessionManager` class holding a `map<int, Snapshot>`.

Four supporting modules are shared:
- `Wrappers` holds the `Option` and `Result` values that carry missing entries and error paths.
- `Calendar` implements Python's proleptic Gregorian calendar: the `date.toordinal` closed form, its inverse, and local dates of instants in microseconds.
- `PyNum` covers `int()`, `round()` and `round(x, 2)` on exact reals.
- `Decimal` covers digit strings, zero-padded and plain.

The model uses exact arithmetic throughout:
- Quotients are `real`.
- Python's `int(x)` truncates toward zero (`PyNum.Trunc`).
- `round` rounds half to even (`PyNum.Round`, `PyNum.Round2`).
- Instants are whole microseconds since the Unix epoch.
- Division on instants is Python's floor division, which agrees with Dafny's on the positive divisors used here.

## Model

| member | source | states |
|---|---|---|
| Year.YearStats.constructor | bot/calc/year.py:21-35 | Elapsed days and days to go are the date differences with 0 replaced by 1, and days to go lies in 1..365. Levels gained is the level difference with 0 replaced by 0.0001. Star rate, projected star (truncated), levels to go and level repetition hang together as `Valid()`. No projected pair is stored yet. |
| Calendar.DaysLeftInYear | bot/calc/year.py:24 | From any valid date to 31 December of its year is 0 to 365 days, so the clamped `days_to_go` is in 1..365. |
| Year.YearStats.IncreaseFactor | bot/calc/year.py:39-46 | Without the boost (repetition <= 0, or `r**r` overflows) the result is `round(v)`. Otherwise it is `round(v + v / r**r)`. |
| Year.YearStats.BoostNeverLowers | bot/calc/year.py:39-46 | For a non-negative value the boosted result is at least `round(v)`, which is at least 0. |
| Year.YearStats.Average | bot/calc/year.py:48-51 | A counter missing from the live data reads as 0. The per-star average times the levels gained gives back the gain since the session started. |
| Year.YearStats.AverageSign | bot/calc/year.py:48-51 | With a positive level gain, the per-star average is negative exactly when the counter fell (a stat reset). No error is raised either way. |
| Year.YearStats.RepeatedGain | bot/calc/year.py:34-35 | Levels to go times the per-star average equals the session's gain repeated `level_repetition` times. |
| Year.YearStats.TrajectoryRepeatsGain | bot/calc/year.py:53-63 | The primary is the current value plus the repeated gain, boosted and rounded. The secondary is the current value plus the repeated gain, truncated and not boosted. The ratio is taken from the untruncated secondary. |
| Year.YearStats.UnboostedPrimary | bot/calc/year.py:57-58 | Without the boost, the primary gains exactly its repeated gain, rounded. |
| Year.YearStats.Trajectory | bot/calc/year.py:53-63 | The ratio is already rounded to two places. With zero levels to go, both projections are the current values. |
| Year.YearStats.TrajectoryNotBelowCurrent | bot/calc/year.py:53-63 | Counters that only grew, projected over a non-negative repetition, never fall below their current values. The boost never puts the primary below its rounded linear projection. |
| Year.YearStats.TrajectoryNearLinear | bot/calc/year.py:53-63 | Without the boost, the primary is within 1/2 of the linear projection and the secondary within 1. |
| Year.YearStats.RatioOfZeroSecondary | bot/calc/year.py:61 | When the projected secondary is 0, the ratio is the projected primary and no division happens. |
| Year.ProjectedRatio | bot/calc/year.py:61-63 | Three cases: 0 when the primary is 0; the primary when the secondary is 0; otherwise the quotient to two places. The result is already rounded to two places. |
| PyNum.Round2Idempotent | bot/calc/year.py:61-63 | Rounding to two places twice is rounding once, so the second `round(..., 2)` changes nothing. |
| Year.YearStats.GetWins | bot/calc/year.py:65-67 | Stores and returns the wins/losses trajectory of the mode. The other stored trajectories stay current. |
| Year.YearStats.GetFinals | bot/calc/year.py:69-71 | Stores and returns the final kills/deaths trajectory of the mode. |
| Year.YearStats.GetBeds | bot/calc/year.py:73-75 | Stores and returns the beds broken/lost trajectory of the mode. |
| Year.YearStats.GetKills | bot/calc/year.py:77-79 | Stores and returns the kills/deaths trajectory of the mode. |
| Year.YearStats.PerStar | bot/calc/year.py:81-85 | Requires the wins, finals and beds trajectories to have been stored. Fails with ZeroDivision exactly when levels to go is 0. Otherwise each figure is (projected - current) / levels to go, to two places. |
| Year.YearStats.PerStarMatchesAverage | bot/calc/year.py:81-85 | Without the boost, each per-star figure is within `0.5/|levels to go| + 0.005` of the session's own gain per star. |
| Year.YearStats.PerStarNear | bot/calc/year.py:81-85 | The same bound for one counter: its projected gain, rounded and divided back by the levels to go. |
| Year.YearStats.ItemsPurchasedNotBelowCurrent | bot/calc/year.py:87-92 | If items were only bought and levels were gained, the projected item count is at least the current count. |
| Year.YearStats.ItemsPurchased | bot/calc/year.py:87-92 | The result is within 1/2 of the linear projection: the current count plus the days to go times the gain per level gained. With no items bought since the session started, it is exactly the current count. |
| Year.YearStats.Target | bot/calc/year.py:94-96 | The target equals the projected star computed at construction, the truncation of the star rate times the days to go plus the current level. |
| PyNum.Trunc | bot/calc/year.py:33 | `int(x)` lies within 1 of x, on x's side of 0 toward zero. |
| PyNum.Round | bot/calc/year.py:45 | `round(x)` is within 1/2 of x, and a tie goes to the even neighbour. |
| PyNum.Round2 | bot/calc/year.py:85 | `round(x, 2)` is within 0.005 of x and a whole number of hundredths. |
| Daily.NextReset | bot/cogs/commands/bedwars/historical/daily.py:56-61 | The next reset is strictly after now and at most one day after it, at `hour:00:00` local time. |
| Daily.NextResetIsFirst | bot/cogs/commands/bedwars/historical/daily.py:59-61 | No instant strictly between now and the next reset is a reset instant. |
| Daily.NextResetAtResetInstant | bot/cogs/commands/bedwars/historical/daily.py:60-61 | Asked exactly at a reset instant, the next reset is one full day later. |
| Daily.ResetTimestamp | bot/cogs/commands/bedwars/historical/daily.py:62-63 | The timestamp in whole seconds is exactly the next reset, with no truncation loss. |
| Daily.DailyCommand | bot/cogs/commands/bedwars/historical/daily.py:44-63 | Without a daily baseline, tracking starts and nothing else happens. Otherwise the local date of now and the next reset are shown. |
| Daily.LookbackRejected | bot/cogs/commands/bedwars/historical/daily.py:104 | A limit of -1 never rejects. A depth within the limit is never rejected. A depth above a non-negative limit is always rejected. |
| Daily.ClampDepth | bot/cogs/commands/bedwars/historical/daily.py:109 | `max(days, 1)` is at least 1 and at least days, and is one of the two. |
| Daily.LookbackDate | bot/cogs/commands/bedwars/historical/daily.py:113-114 | The date exists exactly when the day count fits a `timedelta` and the result is in 0001..9999. It is then the local date `days` days before now. |
| Daily.Lastday | bot/cogs/commands/bedwars/historical/daily.py:102-122 | Rejected exactly when the limit is not -1 and below the depth, before clamping. Otherwise the overflow branch is taken exactly when the clamped date does not exist. Otherwise the clamped depth (>= 1), that date and its period id are used. |
| Daily.UnlimitedNeverRejects | bot/cogs/commands/bedwars/historical/daily.py:104 | A limit of -1 never rejects. |
| Daily.NonPositiveDepthReadsYesterday | bot/cogs/commands/bedwars/historical/daily.py:104-109 | A depth <= 0 passes any limit >= -1 and is read as 1. |
| Daily.LastdayIgnoresResetHour | bot/cogs/commands/bedwars/historical/daily.py:110-119 | The outcome depends on the offset, not on the configured reset hour. |
| Daily.LastdaySameLocalDay | bot/cogs/commands/bedwars/historical/daily.py:110-119 | Two instants on the same local day read the same period. |
| Daily.TierOfSevenRejectsTen | bot/cogs/commands/bedwars/historical/daily.py:104-107 | Ten days back on a 7-day tier is rejected with that limit. |
| Daily.PeriodId | bot/cogs/commands/bedwars/historical/daily.py:119 | The id is 16 characters and starts with `daily_`. |
| Daily.PeriodIdParts | bot/cogs/commands/bedwars/historical/daily.py:119 | The id holds the 4-digit year, 2-digit month and 2-digit day, separated by `_`. |
| Daily.ParsePeriodIdOfPeriodId | bot/cogs/commands/bedwars/historical/daily.py:119 | Reading an id back gives its date. |
| Daily.PeriodIdOfParsePeriodId | bot/cogs/commands/bedwars/historical/daily.py:119 | Every string that reads as a period id is the id of the date it yields. |
| Daily.PeriodIdInjective | bot/cogs/commands/bedwars/historical/daily.py:119 | Distinct dates never share a period id. |
| Calendar.LocalDate | bot/cogs/commands/bedwars/historical/daily.py:111 | `now.date()` is a valid date whose ordinal is the epoch ordinal plus the floor of local time in days. |
| Calendar.FromOrdinal | bot/cogs/commands/bedwars/historical/daily.py:114 | Every ordinal in 1..3652059 has a valid date with that ordinal. |
| Calendar.Ordinal | bot/cogs/commands/bedwars/historical/daily.py:114 | Every valid date has an ordinal in 1..3652059. |
| Calendar.FromOrdinalOfOrdinal | bot/cogs/commands/bedwars/historical/daily.py:114 | `fromordinal(toordinal(d)) == d`. |
| Calendar.OrdinalInjective | bot/cogs/commands/bedwars/historical/daily.py:114 | Distinct dates have distinct ordinals. |
| Calendar.DaysBeforeYearStep | bot/cogs/commands/bedwars/historical/daily.py:114 | The closed form for days before a year grows by exactly that year's length. |
| Calendar.DaysBeforeMonthTable | bot/cogs/commands/bedwars/historical/daily.py:114 | Cumulative month lengths equal Python's days-before-month table, plus one after February in leap years. |
| Calendar.EpochIsDay719163 | bot/cogs/commands/bedwars/historical/daily.py:111 | 1970-01-01 is ordinal 719163 and 9999-12-31 is ordinal 3652059. |
| Decimal.ValueOfPadded | bot/cogs/commands/bedwars/historical/daily.py:119 | A zero-padded number reads back as itself. |
| Decimal.ValueInjective | bot/cogs/commands/bedwars/historical/daily.py:119 | Digit strings of one length with the same value are equal. |
| Interactions.RunInteractionChecks | statalib/discord_utils/interactions.py:191-213 | Blacklisted exactly when the account exists, the check is on and it is blacklisted. Missing permissions exactly when it is not blacklisted, permissions are required, and neither the star rule nor any overlap holds. |
| Interactions.NoPermissionsNeverMissing | statalib/discord_utils/interactions.py:203 | With permissions None or empty, the check never reports missing permissions. |
| Interactions.AbsentAccountNeverBlacklisted | statalib/discord_utils/interactions.py:193-194 | An account without a record is never rejected as blacklisted. |
| Interactions.MorePermissionsStillPass | statalib/discord_utils/interactions.py:203-213 | Granting more permissions never turns a pass into a failure. |
| Interactions.StarPassesEverything | statalib/discord_utils/interactions.py:205 | Holding `*` with stars allowed passes any requirement unless the account is blacklisted. |
| Interactions.DisjointIffNoCommon | statalib/discord_utils/interactions.py:206 | `not set(a) & set(b)` holds exactly when the lists share no element. |
| Interactions.IsLinkedDiscordId | statalib/discord_utils/interactions.py:64 | An argument shorter than 16 characters, or one holding a character that is not a digit, is never taken for a linked id. |
| Interactions.ResolvePlayerArgument | statalib/discord_utils/interactions.py:64-65 | A linked id is replaced by the player linked to it, or by the empty name. Any other argument is kept. |
| Interactions.DecimalIdIsLinkedId | statalib/discord_utils/interactions.py:64-65 | A number written in decimal is taken for a linked id exactly when it is at least 10^15, and it is then looked up under its own value. |
| Decimal.ValueOfShow | statalib/discord_utils/interactions.py:65 | `int(str(n)) == n`. |
| Decimal.ShowLength | statalib/discord_utils/interactions.py:64 | `len(str(n)) > k` exactly when `n >= 10^k`. |
| Interactions.ResolveSession | statalib/discord_utils/interactions.py:127-138 | With an id: found exactly when the id is in the table, and it is that session. Without an id: found exactly when the table is non-empty, and it is the session with the lowest id. |
| Interactions.LowestExists | statalib/discord_utils/interactions.py:127-128 | Every non-empty id set has a lowest id. |
| Interactions.SessionManager.GetSession | statalib/discord_utils/interactions.py:138 | Returns the resolved session and changes nothing. |
| Interactions.SessionManager.SessionCount | statalib/discord_utils/interactions.py:142 | Returns the number of sessions. |
| Interactions.SessionManager.CreateSession | statalib/discord_utils/interactions.py:144-145 | Adds the session exactly when the id is unused. An existing id is left unchanged. |
| Interactions.SessionManager.constructor | statalib/discord_utils/interactions.py:137 | The manager starts with the given table. |
| Interactions.FindDynamicSessionInteraction | statalib/discord_utils/interactions.py:119-158 | A found session is returned and the table is unchanged. Not found with an empty table: the table becomes exactly session 1 from the current data, and SessionNotFound is still reported. Not found otherwise: nothing is created and SessionNotFound is reported. |
| Interactions.DynamicDefaultFindsAnySession | statalib/discord_utils/interactions.py:127-128 | With no id requested, a player with any session always gets one. |
| Interactions.AutoCreatedSessionIsDefault | statalib/discord_utils/interactions.py:144-150 | After the automatic start, asking again without an id finds the new session. |

## Left out

- I/O and Discord glue are not modelled: the sqlite read of the session row, the Hypixel, Mojang and skin fetches, every reply and embed, logging, rendering and `add_suffixes`. The session row, the live counters, the account record and the session table are inputs.
- `get_level` and `get_mode` are external. `get_level` is the parameter `getLevel`. The mode is given already turned into its column prefix.
- Year.YearStats.IncreaseFactor: `r ** r` and its `OverflowError` are the parameters `selfPower` and `powerOverflows`. Only positivity of `selfPower` is assumed. IEEE floating point is not modelled: all arithmetic is exact.
- `PyNum.Round` and `PyNum.Round2` round exact reals half to even. Python's float `round` can tie-break differently on values that are not exactly representable.
- `get_player_rank_info` and the nested `hypixel_data['player']['stats']['Bedwars']` lookup are left out. The model starts from the Bed Wars counters.
- Year.YearStats.constructor: it requires the session row to have an `Experience` column, because the source reads it with `[]` and has no error path. Likewise every counter it projects must be a column of the session row.
- Year.YearStats.GetWins, Year.YearStats.GetFinals, Year.YearStats.GetBeds and Year.YearStats.GetKills return the stored triple. The `add_suffixes` formatting of it is not modelled.
- Year.YearStats.PerStar returns the rounded figures as numbers, not as their `str` form.
- `get_items_purchased` multiplies the gain per star by the calendar days left, not by the stars left. The model keeps that as written (`Year.YearStats.ItemsPurchased`).
- `levels_to_go` is the truncated projected star minus the current fractional level, so it can be negative. When levels were gained, a negative `levels_to_go` makes the level repetition negative. The boost then does not apply, and `levels_to_go` times a positive per-star average is negative, so the projected counters fall below their current values. The model keeps this; the lemmas that need a non-negative repetition assume it.
- The `%Y` directive is modelled as four zero-padded digits. Below year 1000 this is platform dependent.
- In `/daily`, `next_occurrence + timedelta(days=1)` on 9999-12-31 raises `OverflowError`, and that error is not handled. The model computes on unbounded instants.
- The `formatted_date` strings (`%b`, the ordinal suffix) are display text and are not modelled.
- A `str` value of `permissions` (`set("abc")` splits it into characters) is not modelled, only the list form.
- `str.isnumeric` accepts other Unicode digits; the model accepts ASCII digits only.
- Async execution, cooldowns and `to_thread` are left out. The sessions database behind `SessionManager` is not part of this model; it is a map from session id to snapshot.
- The body of `SessionManager.create_session` is not part of this model. It is replaced by the stand-in `Interactions.SessionManager.CreateSession`, which assumes an id already in use is left unchanged. The source only calls it on an empty table, where that case cannot arise.
- The period `/lastday` reads depends only on the UTC offset. The configured reset hour plays no part, and the model follows the code here (`Daily.LastdayIgnoresResetHour`).
- The UTC offset is taken in whole hours. `timezone(timedelta(hours=gmt_offset))` would also accept a fractional offset, which the model does not cover.
