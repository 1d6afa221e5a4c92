# Privacy-risk access log generator, modelled in Dafny

`avi.py` generates a synthetic hospital access log for privacy-risk monitoring.
A fixed roster of 300 staff (86 Doctors, 166 Nurses, 15 Admins,
21 Receptionists and 12 Pharmacists, identified U001..U300) produces 5000
access events over 30 days starting at 2025-06-01 00:00. Each event records:

- who accessed what, and when;
- the action, data sensitivity and location;
- a daily-volume indicator drawn from a range that depends on the role;
- the off-hours and weekend flags;
- the role's risk weight and a risk score.

The score is the role weight times ten, plus 30 for High sensitivity, plus 20
for an Export, plus 20 when the access is off-hours. Five optional scenario
injectors (A–E) can add or change hand-crafted rows for evaluation. The
script never calls them.

The model keeps the script's deterministic logic and replaces every random
draw with a parameter:

- **`Policy`** (`policy.dfy`): the configuration, the role tables, the
  flags, the per-role volume ranges and the scorer.
- **`Roster`** (`roster.dfy`): the roles list, the user identifiers and the
  `dict(zip(users, roles))` role map.
- **`Format`** (`format.dfy`): `str(n)`, `zfill` and the parser that reads
  identifiers back.
- **`Clock`** (`clock.dfy`): timestamps as minutes since the start date's
  midnight. The hour and weekday are read off with integer arithmetic from
  the start date's weekday (Sunday, 6). Also the "advance day by day to the
  first Tuesday/Sunday" search.
- **`Rows`** (`rows.dfy`): the 16-column row, the shared row schema
  (`Consistent`) and the bulk generation loop.
- **`Scenarios`** (`scenarios.dfy`): the five injectors, as methods of a
  class `AccessTable` whose `rows` field they append to or rewrite in place.

The model reproduces several behaviours of the code exactly:

- **Hour 18 is in-hours.** `is_off_hours` flags only hours below 8 or above
  18, so 18:00–18:59 is in-hours. The comment above it says "08:00–18:00
  inclusive"; the code is modelled, not the comment.
- **D and E number their row from the module-level `df`, not from `df_`.**
  Scenarios A and C take the AccessID from `len(df_)`, the table they append
  to. Scenarios D and E take it from `len(df)`, the module-level frame. Every
  injector changes `df_` in place, so when the script's own `df` is passed,
  `len(df) == len(df_)` at every call and the numbering is the same as for A
  and C. The two differ only when some other frame is passed. The model
  keeps `len(df)` as the parameter `globalLen`. It proves that "row k is
  A{k+1}" survives D or E exactly when `globalLen` equals the table's length
  (`ScenarioDIdsByPosition`, `ScenarioEIdsByPosition`).
- **Scenario E is a weekend row on the configured start.** It is meant as a
  normal control, but it takes its day name and weekend flag from the start
  date. That date is a Sunday, so the row is flagged as weekend
  (`ScenarioEOnConfiguredStart`).
- **Scenario B appends nothing.** Unlike the other injectors, it rewrites the
  daily volume of one existing row of the chosen Receptionist to 500. It
  fails when that user has no row (`InjectB`, `OutlierUpdateFacts`).
- **Scenario D writes its flags as literals.** It writes "Sunday", weekend 1
  and in-hours 0. These agree with the flag functions whenever the day found
  is a Sunday (`ScenarioDConsistent`). Its fixed volume of 20 lies in the
  role's range only for Admins and Pharmacists (`ScenarioDScore`).
- **Burst volumes can exceed a Receptionist's range.** Scenario C draws each
  row's daily volume from 5..20 for both roles it targets, while a
  Receptionist's own range is 5..15. A Receptionist burst row is in its
  role's range only when the draw is at most 15 (`ScenarioCVolumeRange`).

## Model

| member | source | states |
|---|---|---|
| Format.Decimal | avi.py:27 | `str(n)` for a natural: non-empty; `Format.DecimalDigits` and `Format.ParseDecimalOfDecimal` state that it is the digits of n |
| Format.ZFill | avi.py:27 | `s.zfill(w)` has length max(w, len(s)); `Format.ZFillShape` states its content |
| Format.DecimalDigits | avi.py:27 | `str(n)` of a natural is a non-empty digit string, one character exactly when n < 10 |
| Format.ZFillShape | avi.py:27 | `zfill` pads with '0' on the left to the width, keeps the original as suffix, and keeps a digit string all digits |
| Format.ParseDecimalOfDecimal | avi.py:127 | reading `str(n)` back as a decimal number gives n |
| Format.ZFillRoundTrip | avi.py:120 | reading `str(n).zfill(w)` back gives n: padding is undone by parsing |
| Format.DecimalLengthBound | avi.py:120 | a number below 10^k renders in at most k digits |
| Policy.TablesCoverEveryRole | avi.py:30-45 | `role_department` and `role_risk_weight` (the constants `Policy.RoleDepartment` and `Policy.RoleRiskWeight`, entry for entry) have an entry for every role, and the weights lie in 2..5 |
| Policy.DayName | avi.py:95 | the `%A` name of weekday d, Monday = 0; `Policy.DayNameInjective` and `Policy.WeekendByIndex` state its properties |
| Policy.DayNameInjective | avi.py:95 | the seven `%A` day names (`Policy.DayName`) are distinct, so a name determines its weekday |
| Policy.IsWeekend | avi.py:64-65 | flag 1 exactly for "Saturday" and "Sunday", 0 for every other string |
| Policy.WeekendByIndex | avi.py:64-65 | among the weekdays, exactly Saturday and Sunday are weekend days |
| Policy.IsOffHours | avi.py:67-69 | flag 1 exactly for hours below 8 or above 18; hours 8..18 (18 included) are in-hours |
| Policy.ComputeRiskScore | avi.py:71-81 | the score is the role's base (weight × 10) plus 30/20/20 for High, Export and off-hours; it stays within base..base+70 and 20..120 |
| Policy.ScoreAboveBaseIffRisky | avi.py:71-81 | the score exceeds the role's base exactly when High, Export or off-hours holds |
| Policy.ScoreMaximalIffAllRisks | avi.py:71-81 | the score reaches base + 70 exactly when all three risk factors hold |
| Policy.ScoreMonotoneInWeight | avi.py:71-81 | for the same event, a role with a weight at least as high scores at least as high |
| Policy.AccessCountRange | avi.py:106-115 | the if/elif chain's inclusive `randint` bounds per role: Doctor 40..90, Nurse 25..60, Pharmacist 10..30, Admin 5..20, Receptionist (the `else`) 5..15 |
| Policy.OutlierAboveEveryRange | avi.py:180 | the outlier value 500 exceeds every role's upper volume bound |
| Roster.Repeat | avi.py:20-24 | `[x] * n`; `Roster.RepeatMultiset` states its contents |
| Roster.RepeatMultiset | avi.py:20-24 | `[x] * n` (`Roster.Repeat`) holds x exactly n times and nothing else |
| Roster.Roles | avi.py:19-25 | the roles list has 300 entries |
| Roster.RosterRoleCounts | avi.py:19-25 | the roles list holds exactly 86 Doctors, 166 Nurses, 15 Admins, 21 Receptionists and 12 Pharmacists |
| Roster.RoleOfIndex | avi.py:19-25 | user i's role is fixed by the block of the list that i falls in, in the listed order |
| Roster.UserId | avi.py:27 | `f"U{str(i+1).zfill(3)}"`: at least four characters starting with "U"; `Roster.UserIdFormat` gives exactly four and the read-back |
| Roster.Users | avi.py:27 | the `users` list has one identifier per roster entry, 300; `Roster.UsersDistinct` states they are distinct |
| Roster.UserRoleMap | avi.py:28 | `dict(zip(users, roles))`; `Roster.RosterUser` and `Roster.UserRoleMapKeys` give its lookups and its keys |
| Roster.UserIdReadBack | avi.py:27 | every user identifier, at any position, reads back after its "U" as the position plus one |
| Roster.UserIdFormat | avi.py:27 | user i's identifier is "U" and three digits that read back as i + 1 |
| Roster.UserIdInjective | avi.py:27 | distinct positions get distinct user identifiers |
| Roster.UsersDistinct | avi.py:27 | the `users` list has no repeated identifier |
| Roster.ZipMap | avi.py:28 | `dict(zip(keys, values))`, pairs inserted left to right; `Roster.ZipMapKeys` and `Roster.ZipMapAt` state its keys and lookups |
| Roster.ZipMapKeys | avi.py:28 | the keys of `dict(zip(keys, values))` (`Roster.ZipMap`) are exactly the zipped keys |
| Roster.ZipMapAt | avi.py:28 | with distinct keys, `dict(zip(keys, values))` maps each key to the value at its own position |
| Roster.RosterUser | avi.py:28 | `user_role_map` maps user i's identifier to the role at position i of the roles list |
| Roster.UserRoleMapKeys | avi.py:28 | `user_role_map` has exactly the roster identifiers as keys |
| Clock.RandomTimestamp | avi.py:60-62 | a drawn timestamp lies in [start, start + span days) and is the start plus the drawn minute offset |
| Clock.HourOf | avi.py:94 | `ts.hour` lies in 0..23 |
| Clock.WeekdayOf | avi.py:95 | the weekday index of a timestamp lies in 0..6 |
| Clock.DayNameOf | avi.py:95 | `ts.strftime("%A")`: the name of the timestamp's weekday; `Clock.WeekdayOfDay` and `Policy.WeekendByIndex` relate it to the day and to the weekend flag |
| Clock.TimestampWithinWindow | avi.py:60-62 | a drawn timestamp falls on one of the window's days |
| Clock.AtHour | avi.py:154 | `base.replace(hour=h, minute=0)` on day d reads back as day d and hour h, at minute 0 (a multiple of 60 minutes) |
| Clock.WeekdayOfDay | avi.py:95 | an instant on day d of the window falls on the start weekday advanced by d |
| Clock.WeekdayAfterDays | avi.py:153 | adding k whole days advances the weekday by k modulo 7 |
| Clock.DaysUntil | avi.py:150-153 | the days from one weekday to a target weekday number fewer than 7 and land on the target |
| Clock.DaysUntilIsFirst | avi.py:150-153 | no smaller number of days reaches the target weekday |
| Clock.AdvanceToWeekday | avi.py:151-153 | the search loop stops on the first date, on or after the start, named as the target weekday; no earlier date has that name |
| Rows.AccessId | avi.py:120 | `f"A{str(i+1).zfill(5)}"`: at least six characters starting with "A"; `Rows.AccessIdFormat` gives the digits and the read-back |
| Rows.PatientId | avi.py:127 | `f"P{n}"`: starts with "P" followed by at least one character; `Rows.PatientIdFormat` gives the read-back |
| Rows.AccessIdFormat | avi.py:120 | an access identifier is "A" and at least five digits reading back as i + 1, six characters for i + 1 < 100000 |
| Rows.AccessIdInjective | avi.py:120 | distinct positions get distinct access identifiers |
| Rows.PatientIdFormat | avi.py:127 | a patient identifier is "P" and the digits of the drawn number |
| Rows.AppendConsistent | avi.py:119 | appending a row that meets the shared schema to a table that meets it keeps the table conforming |
| Rows.BuildRow | avi.py:89-136 | one bulk iteration's row, built from its draws; its properties are stated by `Rows.BuildRowFacts` |
| Rows.BuildRowFacts | avi.py:89-136 | a bulk row meets the schema: the role map's role, the role's department and weight, the timestamp's hour and day name, the flags of those, and the scorer's score (20..120). It carries the drawn user, minute, action, sensitivity, location, volume (in the role's range) and patient, and identifier A{i+1} |
| Rows.BuildRows | avi.py:87-136 | the rows of the first n bulk iterations in insertion order, n of them; `Rows.BuildRowsAt` says row k is iteration k's row |
| Rows.BuildRowsAt | avi.py:87-136 | row k of the bulk table is the row built from iteration k's draws |
| Rows.BuildRowsFacts | avi.py:87-136 | every bulk row meets the schema, has its role's volume range and carries its position's identifier |
| Rows.GenerateRows | avi.py:87-136 | the loop builds exactly the rows of the bulk specification, `NUM_ROWS` of them, each conforming, in range and numbered by position |
| Rows.AppendIdsByPosition | avi.py:120 | a position-numbered table stays so after an append exactly when the new row takes the next number |
| Rows.GeneratedIdsDistinct | avi.py:120 | a position-numbered table has pairwise distinct AccessIDs |
| Rows.Head | avi.py:269 | `df.head(n)` keeps the first min(n, len) rows unchanged |
| Rows.GenerateDataset | avi.py:87-138 | the script's table has 5000 conforming, position-numbered rows; `head(NUM_ROWS)` drops none of them |
| Scenarios.ScenarioARow | avi.py:154-171 | scenario A's Admin row is at hour 3 of the chosen day. Its literal flags (off-hours 1, weekend 0 for "Tuesday") agree with the flag functions, and its score is the scorer's 70 |
| Scenarios.ScenarioAFields | avi.py:154-167 | scenario A's row is at exactly 03:00 (`AtHour(tuesday, 3)`, minute 0) with day name "Tuesday", for the drawn patient, a View of Normal data from Remote, with daily volume 10 |
| Scenarios.NamedTuesday | avi.py:152 | a timestamp on weekday 1 is named "Tuesday" |
| Scenarios.ScenarioADay | avi.py:150-161 | on the day the search finds, the literal "Tuesday" is the timestamp's day name |
| Scenarios.ScenarioAConsistent | avi.py:147-172 | scenario A's row for an Admin user meets the shared schema |
| Scenarios.OutlierUpdate | avi.py:180 | the update sets AccessCountPerDay of row idx to 500 and leaves every other row and column unchanged |
| Scenarios.OutlierUpdateFacts | avi.py:180 | the update keeps the schema and the numbering, and takes the row out of its role's volume range |
| Scenarios.ScenarioCRow | avi.py:186-210 | one burst iteration's row, built from its draws; its properties are stated by `Scenarios.ScenarioCRowFacts` |
| Scenarios.ScenarioCRows | avi.py:186-211 | the n rows of a burst, iteration k at position start + k; n of them |
| Scenarios.ScenarioCVolumeRange | avi.py:205 | a burst row's volume (drawn from 5..20) lies in its role's range (5..15 for a Receptionist, avi.py:115) exactly when the user is an Admin or the volume is at most 15 |
| Scenarios.ScenarioCRowFacts | avi.py:186-210 | a burst row by an Admin or Receptionist meets the schema. It is a Remote, High access at the drawn minute (a day in the window), for the drawn patient, with the drawn action and volume (in 5..20), identifier A{position+1}, and a score of at least base + 30 |
| Scenarios.ScenarioCRowsConsistent | avi.py:186-211 | every row of a burst meets the shared schema |
| Scenarios.ScenarioCRowsSnoc | avi.py:186-211 | the burst of i + 1 iterations is the burst of i iterations followed by iteration i's row |
| Scenarios.BurstStep | avi.py:186-211 | one loop iteration extends the burst by its next row and keeps the table conforming |
| Scenarios.ScenarioCRowsIdsByPosition | avi.py:194 | a burst numbered from `len(df_)` continues a position-numbered table's numbering |
| Scenarios.ScenarioDRow | avi.py:220-239 | scenario D's row is at hour 15 of the chosen day, with literal "Sunday" and volume 20. Its literal flags (in-hours 0, weekend 1) agree with the flag functions, and it takes the role map's role, department and weight |
| Scenarios.ScenarioDFields | avi.py:221-236 | scenario D's row is at exactly 15:00 (`AtHour(sunday, 15)`, minute 0), for the drawn patient, an Export of High data from Remote |
| Scenarios.NamedSunday | avi.py:218 | a timestamp on weekday 6 is named "Sunday" |
| Scenarios.ScenarioDConsistent | avi.py:217-239 | on a Sunday of the window, scenario D's row meets the shared schema for any user |
| Scenarios.ScenarioDScore | avi.py:234-238 | scenario D scores the role's base + 50; its volume 20 is in range exactly for Admins and Pharmacists |
| Scenarios.ScenarioDIdsByPosition | avi.py:223 | numbering from `len(df)` of the module-level frame (`globalLen`) keeps a position-numbered table so exactly when that length equals the table's, as it does when the script's own frame is passed |
| Scenarios.ScenarioERow | avi.py:246-264 | scenario E's Doctor row is at hour 10 of the start date. Its day name and weekend flag are those of that date, it is in-hours, its volume is in range, and it scores 20 |
| Scenarios.ScenarioEFields | avi.py:246-264 | scenario E's row is at exactly 10:00 on the start date (`AtHour(0, 10)`, minute 0), for the drawn patient, a View of Normal data from Onsite, with daily volume 50 and score 20 |
| Scenarios.ScenarioEConsistent | avi.py:244-265 | scenario E's row for a Doctor meets the shared schema |
| Scenarios.ScenarioEWeekend | avi.py:262 | scenario E's row is a weekend row exactly when the start date is a Saturday or Sunday |
| Scenarios.ScenarioEIdsByPosition | avi.py:249 | like D, numbering from `len(df)` of the module-level frame keeps the numbering exactly when that length equals the table's |
| Scenarios.ScenarioEOnConfiguredStart | avi.py:246-262 | with the configured start (a Sunday) the control row is flagged weekend |
| Scenarios.AccessTable.constructor | avi.py:138 | `pd.DataFrame(rows)` holds the bulk rows as given |
| Scenarios.AccessTable.InjectA | avi.py:147-173 | appends exactly scenario A's row, numbered from the table length, on the first Tuesday on or after the start. It keeps the schema and the numbering |
| Scenarios.AccessTable.InjectB | avi.py:176-180 | succeeds exactly when the user has a row. It then sets one of that user's rows to volume 500 and changes nothing else; otherwise the table is unchanged. It keeps the schema and the numbering |
| Scenarios.AccessTable.InjectC | avi.py:183-211 | appends exactly the n burst rows (none for n ≤ 0), numbered from the table length, and keeps the schema |
| Scenarios.AccessTable.InjectD | avi.py:214-240 | appends exactly scenario D's row on the first Sunday on or after the start and keeps the schema. The numbering survives exactly when `globalLen` (`len(df)`) equals the table length |
| Scenarios.AccessTable.InjectE | avi.py:243-266 | appends exactly scenario E's row and keeps the schema. The numbering survives exactly when `globalLen` (`len(df)`) equals the table length |

## Left out

- Randomness (`random.seed`, `random.choice`, `random.choices` with their weights, `randint`) is not modelled. Every draw is a parameter: `Draw` for a bulk iteration, `BurstDraw` for a burst iteration, and the user and patient numbers of the scenarios. Each is constrained to the range its sampler can return (patients 100..999, volumes in the role's range, minutes inside the window). The weight lists and `SEED` have no counterpart.
- Calendar arithmetic is not modelled. Timestamps are minutes since the start date's midnight, and the start date enters only through its weekday (`StartWeekday`, 6 for 2025-06-01). Seconds and microseconds are always zero in the source, so they are omitted.
- pandas is not modelled. A DataFrame is a sequence of rows. `df_.loc[len(df_)] = row` is modelled as an append, which is what it does on the 0..n-1 index these tables carry. `df_.at[idx, …]` is modelled as a positional update.
- Clock.RandomTimestamp: `randint(0, days_span*24*60 - 1)` raises `ValueError` when `days_span <= 0`, because the range is empty. The model has no draw to pass in that case: the precondition requires one in range, so the error path is not modelled. The configured span is 30.
- `len(df)` in scenarios D and E (avi.py:223, 249) refers to the module-level frame. Python aliasing makes it the same object as `df_` when the script's own frame is passed. The model does not track that aliasing: `len(df)` is the free parameter `globalLen` of `InjectD` and `InjectE`.
- CSV output and the final `print` (avi.py:273-274) are left out, because they are I/O.
- Scenarios.AccessTable.InjectB: which of the user's rows `sample(1, random_state=SEED)` picks is not modelled; the model allows any of them. The `ValueError` raised when the user has no row is modelled as `ok == false` with the table unchanged.
- Format.ZFill: Python's `zfill` keeps a leading sign in front of the padding. Only non-negative numbers are rendered here, so that case is not modelled.
- The scenario injectors' user selection (`random.choice` over the filtered users) is a parameter. The method requires that user to have the role the filter selects.
- The default burst size `n = 30` of scenario C is not fixed; `n` is a parameter.
