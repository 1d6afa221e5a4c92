/**
  The optional evaluation scenarios A-E. Each builds hand-specified rows (or,
  for B, rewrites one cell) on a table that grows in place. The rows are
  functions of the table length and the random draws; the table is a class
  whose methods append them.
 */
module Scenarios {
  import opened Format
  import opened Policy
  import opened Roster
  import opened Clock
  import opened Rows

  const Tuesday: nat := 1
  const Sunday: nat := 6
  /** The daily-volume value scenario B writes. */
  const OutlierCount: int := 500

  // ---------------------------------------------------------------
  // Scenario A: an Admin at 03:00 on the first Tuesday of the window
  // ---------------------------------------------------------------

  /**
    The row is fixed but for its position, user, day and patient: hour 3 is
    off-hours, Tuesday is not weekend, and the shared scorer gives an Admin
    50 + 20 = 70.
   */
  function ScenarioARow(position: nat, user: nat, tuesday: nat, patient: nat): (row: Row)
    ensures row.accessId == AccessId(position) && row.userId == UserId(user) && row.userRole == Admin
    ensures Admin in RoleDepartment && row.department == RoleDepartment[Admin]
    ensures Admin in RoleRiskWeight && row.roleRiskWeight == RoleRiskWeight[Admin]
    ensures row.hourOfDay == HourOf(row.timestamp) == 3 && DayOf(row.timestamp) == tuesday
    ensures row.isOffHours == IsOffHours(row.hourOfDay) == 1
    ensures row.isWeekend == IsWeekend(row.dayOfWeek) == 0
    ensures row.accessRiskScore == ComputeRiskScore(Admin, View, Normal, row.isOffHours) == 70
    ensures CountInRoleRange(row)
  {
    TablesCoverEveryRole(Admin);
    LiteralDayNames();
    Row(AccessId(position), UserId(user), Admin, "Admin", AtHour(tuesday, 3),
        "Tuesday", 3, PatientId(patient), View, Normal, Remote, 10, 1, 0,
        RoleRiskWeight[Admin], ComputeRiskScore(Admin, View, Normal, 1))
  }

  /**
    The fields scenario A writes as literals or draws: 03:00 sharp on the
    chosen day, "Tuesday", the drawn patient, a Normal-sensitivity View from
    Remote, daily volume 10.
   */
  lemma ScenarioAFields(position: nat, user: nat, tuesday: nat, patient: nat)
    ensures var row := ScenarioARow(position, user, tuesday, patient);
            && row.timestamp == AtHour(tuesday, 3) && row.timestamp % 60 == 0
            && row.dayOfWeek == "Tuesday" && row.patientId == PatientId(patient)
            && row.actionType == View && row.dataSensitivity == Normal && row.accessLocation == Remote
            && row.accessCountPerDay == 10
  {
  }

  /** A timestamp on weekday 1 is named "Tuesday". */
  lemma NamedTuesday(startWeekday: nat, t: int)
    requires startWeekday < 7 && WeekdayOf(startWeekday, t) == Tuesday
    ensures DayNameOf(startWeekday, t) == "Tuesday"
  {
  }

  /** On a Tuesday, the row's literal day name is the name of its timestamp's day. */
  lemma ScenarioADay(position: nat, user: nat, startWeekday: nat, tuesday: nat, patient: nat)
    requires startWeekday < 7
    requires (startWeekday + tuesday) % 7 == Tuesday
    ensures var row := ScenarioARow(position, user, tuesday, patient);
            row.dayOfWeek == DayNameOf(startWeekday, row.timestamp)
  {
    var row := ScenarioARow(position, user, tuesday, patient);
    WeekdayOfDay(startWeekday, row.timestamp, tuesday);
    NamedTuesday(startWeekday, row.timestamp);
  }

  /** On a Tuesday of the window, scenario A's row passes the shared schema. */
  lemma ScenarioAConsistent(position: nat, user: nat, startWeekday: nat, tuesday: nat, patient: nat)
    requires startWeekday < 7
    requires user < RosterSize && Roles()[user] == Admin
    requires (startWeekday + tuesday) % 7 == Tuesday
    ensures Consistent(ScenarioARow(position, user, tuesday, patient), startWeekday)
  {
    RosterUser(user);
    ScenarioADay(position, user, startWeekday, tuesday, patient);
  }

  // ---------------------------------------------------------------
  // Scenario B: one Receptionist row gets an extreme daily volume
  // ---------------------------------------------------------------

  /** `df_.at[idx, "AccessCountPerDay"] = 500`. */
  function OutlierUpdate(rows: seq<Row>, idx: nat): (r: seq<Row>)
    requires idx < |rows|
    ensures |r| == |rows|
    ensures forall k :: 0 <= k < |rows| && k != idx ==> r[k] == rows[k]
    ensures r[idx].accessCountPerDay == OutlierCount
    ensures r[idx] == rows[idx].(accessCountPerDay := OutlierCount)
  {
    rows[idx := rows[idx].(accessCountPerDay := OutlierCount)]
  }

  /** The update keeps the schema and takes the row out of its role's range. */
  lemma OutlierUpdateFacts(rows: seq<Row>, idx: nat, startWeekday: nat)
    requires startWeekday < 7 && idx < |rows|
    requires AllConsistent(rows, startWeekday)
    ensures AllConsistent(OutlierUpdate(rows, idx), startWeekday)
    ensures !CountInRoleRange(OutlierUpdate(rows, idx)[idx])
    ensures IdsByPosition(rows) ==> IdsByPosition(OutlierUpdate(rows, idx))
  {
    var r := OutlierUpdate(rows, idx);
    forall k | 0 <= k < |r|
      ensures Consistent(r[k], startWeekday)
    {
      assert Consistent(rows[k], startWeekday);
    }
    OutlierAboveEveryRange(r[idx].userRole);
    if IdsByPosition(rows) {
      forall k | 0 <= k < |r|
        ensures r[k].accessId == AccessId(k)
      {
        assert r[k].accessId == rows[k].accessId;
      }
    }
  }

  // ---------------------------------------------------------------
  // Scenario C: a burst of High-sensitivity accesses by a non-clinical user
  // ---------------------------------------------------------------

  /** The draws of one burst iteration: minute offset, action, patient number, daily volume. */
  datatype BurstDraw = BurstDraw(minute: int, action: Action, patient: nat, count: int)

  predicate ValidBurstDraw(c: BurstDraw, daysSpan: int) {
    && 0 <= c.minute <= daysSpan * 24 * 60 - 1
    && 100 <= c.patient <= 999
    && 5 <= c.count <= 20
  }

  /** One iteration of the burst loop, appended at position `position`. */
  function ScenarioCRow(position: nat, user: nat, startWeekday: nat, daysSpan: int, c: BurstDraw): Row
    requires user < RosterSize && startWeekday < 7 && ValidBurstDraw(c, daysSpan)
  {
    RosterUser(user);
    var role := UserRoleMap()[UserId(user)];
    TablesCoverEveryRole(role);
    var ts := RandomTimestamp(0, daysSpan, c.minute);
    var hour := HourOf(ts);
    var dayName := DayNameOf(startWeekday, ts);
    var offHoursFlag := IsOffHours(hour);
    var weekendFlag := IsWeekend(dayName);
    Row(AccessId(position), UserId(user), role, "Admin", ts, dayName, hour, PatientId(c.patient),
        c.action, High, Remote, c.count, offHoursFlag, weekendFlag,
        RoleRiskWeight[role], ComputeRiskScore(role, c.action, High, offHoursFlag))
  }

  /** The n rows of a burst, iteration k appended at position start + k. */
  function ScenarioCRows(start: nat, n: nat, user: nat, startWeekday: nat, daysSpan: int, draws: seq<BurstDraw>): (rows: seq<Row>)
    requires user < RosterSize && startWeekday < 7 && n <= |draws|
    requires forall k :: 0 <= k < n ==> ValidBurstDraw(draws[k], daysSpan)
    ensures |rows| == n
  {
    seq(n, k requires 0 <= k < n => ScenarioCRow(start + k, user, startWeekday, daysSpan, draws[k]))
  }

  /**
    A burst row by an Admin or Receptionist passes the shared schema (both
    roles belong to the "Admin" department). It is a Remote access to High
    data by the chosen user, numbered by its position, at the drawn minute
    inside the window, for the drawn patient, with the drawn action and a
    volume in 5..20, and it scores at least the
    role's base plus 30 for its High sensitivity.
   */
  lemma ScenarioCRowFacts(position: nat, user: nat, startWeekday: nat, daysSpan: int, c: BurstDraw)
    requires user < RosterSize && startWeekday < 7 && ValidBurstDraw(c, daysSpan)
    requires Roles()[user] == Admin || Roles()[user] == Receptionist
    ensures var row := ScenarioCRow(position, user, startWeekday, daysSpan, c);
            && Consistent(row, startWeekday)
            && row.accessId == AccessId(position) && row.userId == UserId(user) && row.userRole == Roles()[user]
            && row.department == "Admin" && row.dataSensitivity == High && row.accessLocation == Remote
            && row.actionType == c.action && row.accessCountPerDay == c.count && 5 <= row.accessCountPerDay <= 20
            && row.timestamp == c.minute && 0 <= DayOf(row.timestamp) < daysSpan
            && row.patientId == PatientId(c.patient)
            && row.accessRiskScore >= RoleRiskWeight[row.userRole] * 10 + 30
  {
    var row := ScenarioCRow(position, user, startWeekday, daysSpan, c);
    RosterUser(user);
    TablesCoverEveryRole(row.userRole);
    TimestampWithinWindow(daysSpan, c.minute);
    assert row.department == RoleDepartment[row.userRole];
  }

  /**
    The burst draws its volume from 5..20 for both roles, while a
    Receptionist's own range ends at 15: a burst row is in its role's range
    exactly for an Admin or a volume of at most 15.
   */
  lemma ScenarioCVolumeRange(position: nat, user: nat, startWeekday: nat, daysSpan: int, c: BurstDraw)
    requires user < RosterSize && startWeekday < 7 && ValidBurstDraw(c, daysSpan)
    requires Roles()[user] == Admin || Roles()[user] == Receptionist
    ensures var row := ScenarioCRow(position, user, startWeekday, daysSpan, c);
            CountInRoleRange(row) <==> row.userRole == Admin || c.count <= 15
  {
    RosterUser(user);
  }

  /** Every row of a burst passes the shared schema. */
  lemma ScenarioCRowsConsistent(start: nat, n: nat, user: nat, startWeekday: nat, daysSpan: int, draws: seq<BurstDraw>)
    requires user < RosterSize && startWeekday < 7 && n <= |draws|
    requires forall k :: 0 <= k < n ==> ValidBurstDraw(draws[k], daysSpan)
    requires Roles()[user] == Admin || Roles()[user] == Receptionist
    ensures AllConsistent(ScenarioCRows(start, n, user, startWeekday, daysSpan, draws), startWeekday)
  {
    var rows := ScenarioCRows(start, n, user, startWeekday, daysSpan, draws);
    forall k | 0 <= k < n
      ensures Consistent(rows[k], startWeekday)
    {
      ScenarioCRowFacts(start + k, user, startWeekday, daysSpan, draws[k]);
    }
  }

  /** One burst iteration: appending the next row extends the burst by one row and keeps the schema. */
  lemma BurstStep(prefix: seq<Row>, rows: seq<Row>, i: nat, user: nat, startWeekday: nat, daysSpan: int, draws: seq<BurstDraw>)
    requires user < RosterSize && startWeekday < 7 && i < |draws|
    requires forall k :: 0 <= k <= i ==> ValidBurstDraw(draws[k], daysSpan)
    requires Roles()[user] == Admin || Roles()[user] == Receptionist
    requires rows == prefix + ScenarioCRows(|prefix|, i, user, startWeekday, daysSpan, draws)
    requires AllConsistent(rows, startWeekday)
    ensures var row := ScenarioCRow(|rows|, user, startWeekday, daysSpan, draws[i]);
            && rows + [row] == prefix + ScenarioCRows(|prefix|, i + 1, user, startWeekday, daysSpan, draws)
            && AllConsistent(rows + [row], startWeekday)
  {
    var row := ScenarioCRow(|rows|, user, startWeekday, daysSpan, draws[i]);
    ScenarioCRowFacts(|rows|, user, startWeekday, daysSpan, draws[i]);
    AppendConsistent(rows, row, startWeekday);
    ScenarioCRowsSnoc(|prefix|, i, user, startWeekday, daysSpan, draws);
  }

  /** One more iteration of the burst loop appends one more row. */
  lemma ScenarioCRowsSnoc(start: nat, i: nat, user: nat, startWeekday: nat, daysSpan: int, draws: seq<BurstDraw>)
    requires user < RosterSize && startWeekday < 7 && i < |draws|
    requires forall k :: 0 <= k <= i ==> ValidBurstDraw(draws[k], daysSpan)
    ensures ScenarioCRows(start, i + 1, user, startWeekday, daysSpan, draws)
         == ScenarioCRows(start, i, user, startWeekday, daysSpan, draws)
            + [ScenarioCRow(start + i, user, startWeekday, daysSpan, draws[i])]
  {
    var longer := ScenarioCRows(start, i + 1, user, startWeekday, daysSpan, draws);
    var shorter := ScenarioCRows(start, i, user, startWeekday, daysSpan, draws);
    var row := ScenarioCRow(start + i, user, startWeekday, daysSpan, draws[i]);
    forall k | 0 <= k < i
      ensures longer[k] == shorter[k]
    {
    }
    assert longer[i] == row;
    assert longer == shorter + [row];
  }

  /** A burst numbered from the table length continues the table's numbering by position. */
  lemma ScenarioCRowsIdsByPosition(rows: seq<Row>, n: nat, user: nat, startWeekday: nat, daysSpan: int, draws: seq<BurstDraw>)
    requires user < RosterSize && startWeekday < 7 && n <= |draws|
    requires forall k :: 0 <= k < n ==> ValidBurstDraw(draws[k], daysSpan)
    requires IdsByPosition(rows)
    ensures IdsByPosition(rows + ScenarioCRows(|rows|, n, user, startWeekday, daysSpan, draws))
  {
    var burst := ScenarioCRows(|rows|, n, user, startWeekday, daysSpan, draws);
    var t := rows + burst;
    forall k | 0 <= k < |t|
      ensures t[k].accessId == AccessId(k)
    {
      if k < |rows| {
        assert t[k] == rows[k];
      } else {
        assert t[k] == burst[k - |rows|];
      }
    }
  }

  // ---------------------------------------------------------------
  // Scenario D: an Export of High-sensitivity data on Sunday at 15:00
  // ---------------------------------------------------------------

  /**
    The row is fixed but for its user, day, patient and identifier. The
    identifier comes from `len(df)` of the module-level frame, passed as
    `globalLen`; when the script's own frame is the one appended to, that is
    the table's own length. Hour 15 is in-hours and the literal weekend flag
    is 1.
   */
  function ScenarioDRow(globalLen: nat, user: nat, sunday: nat, patient: nat): (row: Row)
    requires user < RosterSize
    ensures row.accessId == AccessId(globalLen) && row.userId == UserId(user)
    ensures row.userRole == Roles()[user] && row.userRole in RoleDepartment && row.userRole in RoleRiskWeight
    ensures row.department == RoleDepartment[row.userRole] && row.roleRiskWeight == RoleRiskWeight[row.userRole]
    ensures row.hourOfDay == HourOf(row.timestamp) == 15 && DayOf(row.timestamp) == sunday
    ensures row.dayOfWeek == "Sunday" && row.accessCountPerDay == 20
    ensures row.isOffHours == IsOffHours(row.hourOfDay) == 0
    ensures row.isWeekend == IsWeekend(row.dayOfWeek) == 1
    ensures row.accessRiskScore == ComputeRiskScore(row.userRole, row.actionType, row.dataSensitivity, row.isOffHours)
  {
    RosterUser(user);
    var role := UserRoleMap()[UserId(user)];
    TablesCoverEveryRole(role);
    LiteralDayNames();
    Row(AccessId(globalLen), UserId(user), role, RoleDepartment[role], AtHour(sunday, 15),
        "Sunday", 15, PatientId(patient), Export, High, Remote, 20, 0, 1,
        RoleRiskWeight[role], ComputeRiskScore(role, Export, High, 0))
  }

  /**
    The fields scenario D writes as literals or draws: 15:00 sharp on the
    chosen day, the drawn patient, an Export of High-sensitivity data from
    Remote.
   */
  lemma ScenarioDFields(globalLen: nat, user: nat, sunday: nat, patient: nat)
    requires user < RosterSize
    ensures var row := ScenarioDRow(globalLen, user, sunday, patient);
            && row.timestamp == AtHour(sunday, 15) && row.timestamp % 60 == 0
            && row.patientId == PatientId(patient)
            && row.actionType == Export && row.dataSensitivity == High && row.accessLocation == Remote
  {
  }

  /** A timestamp on weekday 6 is named "Sunday". */
  lemma NamedSunday(startWeekday: nat, t: int)
    requires startWeekday < 7 && WeekdayOf(startWeekday, t) == Sunday
    ensures DayNameOf(startWeekday, t) == "Sunday"
  {
  }

  /**
    On a Sunday of the window, scenario D's row passes the shared schema: its
    literal day name, weekend flag and in-hours flag all agree with its
    timestamp.
   */
  lemma ScenarioDConsistent(globalLen: nat, user: nat, startWeekday: nat, sunday: nat, patient: nat)
    requires startWeekday < 7 && user < RosterSize
    requires (startWeekday + sunday) % 7 == Sunday
    ensures Consistent(ScenarioDRow(globalLen, user, sunday, patient), startWeekday)
  {
    var row := ScenarioDRow(globalLen, user, sunday, patient);
    WeekdayOfDay(startWeekday, row.timestamp, sunday);
    NamedSunday(startWeekday, row.timestamp);
    RosterUser(user);
  }

  /**
    Scenario D scores the role's base plus 50 (High and Export, not
    off-hours); its fixed volume 20 lies in the role's range only for Admins
    and Pharmacists.
   */
  lemma ScenarioDScore(globalLen: nat, user: nat, sunday: nat, patient: nat)
    requires user < RosterSize
    ensures var row := ScenarioDRow(globalLen, user, sunday, patient);
            && row.accessRiskScore == RoleRiskWeight[row.userRole] * 10 + 50
            && (CountInRoleRange(row) <==> row.userRole == Admin || row.userRole == Pharmacist)
  {
  }

  /**
    Scenario D numbers its row from `len(df)` of the module-level frame. The
    numbering by position survives exactly when that length equals the
    length of the table appended to, as it does whenever the script's own
    frame is passed (every injector grows that frame in place); it differs
    only when another frame is passed.
   */
  lemma ScenarioDIdsByPosition(rows: seq<Row>, globalLen: nat, user: nat, sunday: nat, patient: nat)
    requires user < RosterSize && IdsByPosition(rows)
    ensures IdsByPosition(rows + [ScenarioDRow(globalLen, user, sunday, patient)]) <==> globalLen == |rows|
  {
    var row := ScenarioDRow(globalLen, user, sunday, patient);
    AppendIdsByPosition(rows, row);
    if row.accessId == AccessId(|rows|) {
      AccessIdInjective(globalLen, |rows|);
    }
  }

  // ---------------------------------------------------------------
  // Scenario E: a Doctor's ordinary in-hours view (negative control)
  // ---------------------------------------------------------------

  /**
    10:00 on the start date; the identifier comes from `len(df)` of the
    module-level frame (the table's own length when the script's frame is
    passed), and the weekend flag is that of the start date's name.
   */
  function ScenarioERow(globalLen: nat, user: nat, startWeekday: nat, patient: nat): (row: Row)
    requires startWeekday < 7
    ensures row.accessId == AccessId(globalLen) && row.userId == UserId(user) && row.userRole == Doctor
    ensures Doctor in RoleDepartment && row.department == RoleDepartment[Doctor]
    ensures Doctor in RoleRiskWeight && row.roleRiskWeight == RoleRiskWeight[Doctor]
    ensures row.hourOfDay == HourOf(row.timestamp) == 10 && DayOf(row.timestamp) == 0
    ensures row.dayOfWeek == DayNameOf(startWeekday, row.timestamp)
    ensures row.isOffHours == IsOffHours(row.hourOfDay) == 0
    ensures row.isWeekend == IsWeekend(row.dayOfWeek)
    ensures row.accessRiskScore == ComputeRiskScore(Doctor, View, Normal, row.isOffHours) == 20
    ensures CountInRoleRange(row)
  {
    TablesCoverEveryRole(Doctor);
    var ts := AtHour(0, 10);
    var dayName := DayNameOf(startWeekday, ts);
    Row(AccessId(globalLen), UserId(user), Doctor, "Clinical", ts, dayName, 10, PatientId(patient),
        View, Normal, Onsite, 50, 0, IsWeekend(dayName),
        RoleRiskWeight[Doctor], ComputeRiskScore(Doctor, View, Normal, 0))
  }

  /**
    The fields scenario E writes as literals or draws: 10:00 sharp on the
    start date, the drawn patient, a Normal-sensitivity View from Onsite,
    daily volume 50; being in-hours, it scores exactly the Doctor base 20.
   */
  lemma ScenarioEFields(globalLen: nat, user: nat, startWeekday: nat, patient: nat)
    requires startWeekday < 7
    ensures var row := ScenarioERow(globalLen, user, startWeekday, patient);
            && row.timestamp == AtHour(0, 10) && row.timestamp % 60 == 0
            && row.patientId == PatientId(patient)
            && row.actionType == View && row.dataSensitivity == Normal && row.accessLocation == Onsite
            && row.accessCountPerDay == 50
            && row.accessRiskScore == RoleRiskWeight[Doctor] * 10 == 20
  {
  }

  /** For a Doctor, scenario E's row passes the shared schema. */
  lemma ScenarioEConsistent(globalLen: nat, user: nat, startWeekday: nat, patient: nat)
    requires startWeekday < 7
    requires user < RosterSize && Roles()[user] == Doctor
    ensures Consistent(ScenarioERow(globalLen, user, startWeekday, patient), startWeekday)
  {
    RosterUser(user);
  }

  /** Scenario E's row is a weekend row exactly when the start date is a Saturday or Sunday. */
  lemma ScenarioEWeekend(globalLen: nat, user: nat, startWeekday: nat, patient: nat)
    requires startWeekday < 7
    ensures ScenarioERow(globalLen, user, startWeekday, patient).isWeekend == 1 <==> startWeekday >= 5
  {
    var row := ScenarioERow(globalLen, user, startWeekday, patient);
    WeekdayOfDay(startWeekday, row.timestamp, 0);
    assert (startWeekday + 0) % 7 == startWeekday;
    assert row.dayOfWeek == DayName(startWeekday);
    WeekendByIndex(startWeekday);
  }

  /** Like D, scenario E keeps the numbering by position exactly when the module-level frame's length equals the table's. */
  lemma ScenarioEIdsByPosition(rows: seq<Row>, globalLen: nat, user: nat, startWeekday: nat, patient: nat)
    requires startWeekday < 7 && IdsByPosition(rows)
    ensures IdsByPosition(rows + [ScenarioERow(globalLen, user, startWeekday, patient)]) <==> globalLen == |rows|
  {
    var row := ScenarioERow(globalLen, user, startWeekday, patient);
    AppendIdsByPosition(rows, row);
    if row.accessId == AccessId(|rows|) {
      AccessIdInjective(globalLen, |rows|);
    }
  }

  /** With the configured start, a Sunday, the supposedly normal control row is flagged weekend. */
  lemma ScenarioEOnConfiguredStart(globalLen: nat, user: nat, patient: nat)
    ensures ScenarioERow(globalLen, user, StartWeekday, patient).isWeekend == 1
  {
    ScenarioEWeekend(globalLen, user, StartWeekday, patient);
  }

  // ---------------------------------------------------------------
  // The table the scenarios write to
  // ---------------------------------------------------------------

  /** The data frame: its rows in insertion order, over a fixed date window. */
  class AccessTable {
    var rows: seq<Row>
    const startWeekday: nat
    const daysSpan: int

    /** Every row passes the shared schema. */
    ghost predicate Valid()
      reads this
    {
      startWeekday < 7 && AllConsistent(rows, startWeekday)
    }

    /** `pd.DataFrame(rows)`. */
    constructor (bulk: seq<Row>, startWeekday: nat, daysSpan: int)
      requires startWeekday < 7 && AllConsistent(bulk, startWeekday)
      ensures Valid()
      ensures rows == bulk && this.startWeekday == startWeekday && this.daysSpan == daysSpan
    {
      rows := bulk;
      this.startWeekday := startWeekday;
      this.daysSpan := daysSpan;
    }

    /** `inject_scenario_a`: appends one Admin row at 03:00 on the first Tuesday. */
    method InjectA(user: nat, patient: nat)
      requires Valid()
      requires user < RosterSize && Roles()[user] == Admin
      requires 100 <= patient <= 999
      modifies this
      ensures Valid()
      ensures rows == old(rows) + [ScenarioARow(|old(rows)|, user, DaysUntil(startWeekday, Tuesday), patient)]
      ensures IdsByPosition(old(rows)) ==> IdsByPosition(rows)
    {
      var tuesday := AdvanceToWeekday(startWeekday, Tuesday);
      var row := ScenarioARow(|rows|, user, tuesday, patient);
      ScenarioAConsistent(|rows|, user, startWeekday, tuesday, patient);
      AppendConsistent(rows, row, startWeekday);
      if IdsByPosition(rows) {
        AppendIdsByPosition(rows, row);
      }
      rows := rows + [row];
    }

    /**
      `inject_scenario_b`: among the rows of the chosen Receptionist, one
      (the sample's pick) gets AccessCountPerDay 500. When the user has no row
      the sample fails and the table is left as it was (`ok` is false).
     */
    method InjectB(user: nat) returns (ok: bool, idx: nat)
      requires Valid()
      requires user < RosterSize && Roles()[user] == Receptionist
      modifies this
      ensures Valid()
      ensures ok <==> exists k :: 0 <= k < |old(rows)| && old(rows)[k].userId == UserId(user)
      ensures ok ==> idx < |old(rows)| && old(rows)[idx].userId == UserId(user)
                     && rows == OutlierUpdate(old(rows), idx)
      ensures !ok ==> rows == old(rows)
      ensures IdsByPosition(old(rows)) ==> IdsByPosition(rows)
    {
      ok := exists k :: 0 <= k < |rows| && rows[k].userId == UserId(user);
      if ok {
        idx :| 0 <= idx < |rows| && rows[idx].userId == UserId(user);
        OutlierUpdateFacts(rows, idx, startWeekday);
        rows := OutlierUpdate(rows, idx);
      } else {
        idx := 0;
      }
    }

    /**
      `inject_scenario_c`: `for _ in range(n)` appends one burst row per
      iteration, numbered from the current table length; n <= 0 appends none.
     */
    method InjectC(user: nat, n: int, draws: seq<BurstDraw>)
      requires Valid()
      requires user < RosterSize && (Roles()[user] == Admin || Roles()[user] == Receptionist)
      requires n <= |draws|
      requires forall k :: 0 <= k < n ==> ValidBurstDraw(draws[k], daysSpan)
      modifies this
      ensures Valid()
      ensures |rows| == |old(rows)| + (if n > 0 then n else 0)
      ensures rows == old(rows) + ScenarioCRows(|old(rows)|, if n > 0 then n else 0, user, startWeekday, daysSpan, draws)
      ensures IdsByPosition(old(rows)) ==> IdsByPosition(rows)
    {
      var count: nat := if n > 0 then n else 0;
      var i := 0;
      while i < n
        invariant 0 <= i <= count
        invariant rows == old(rows) + ScenarioCRows(|old(rows)|, i, user, startWeekday, daysSpan, draws)
        invariant Valid()
      {
        BurstStep(old(rows), rows, i, user, startWeekday, daysSpan, draws);
        rows := rows + [ScenarioCRow(|rows|, user, startWeekday, daysSpan, draws[i])];
        i := i + 1;
      }
      if IdsByPosition(old(rows)) {
        ScenarioCRowsIdsByPosition(old(rows), count, user, startWeekday, daysSpan, draws);
      }
    }

    /**
      `inject_scenario_d`: appends one Sunday 15:00 Export row for any user,
      numbered from `globalLen`, the length of the module-level frame, which
      equals the table's length when that frame is the one passed.
     */
    method InjectD(user: nat, globalLen: nat, patient: nat)
      requires Valid()
      requires user < RosterSize
      requires 100 <= patient <= 999
      modifies this
      ensures Valid()
      ensures rows == old(rows) + [ScenarioDRow(globalLen, user, DaysUntil(startWeekday, Sunday), patient)]
      ensures IdsByPosition(old(rows)) ==> (IdsByPosition(rows) <==> globalLen == |old(rows)|)
    {
      var sunday := AdvanceToWeekday(startWeekday, Sunday);
      var row := ScenarioDRow(globalLen, user, sunday, patient);
      ScenarioDConsistent(globalLen, user, startWeekday, sunday, patient);
      AppendConsistent(rows, row, startWeekday);
      if IdsByPosition(rows) {
        ScenarioDIdsByPosition(rows, globalLen, user, sunday, patient);
      }
      rows := rows + [row];
    }

    /**
      `inject_scenario_e`: appends one Doctor row at 10:00 on the start date,
      numbered from `globalLen`, the length of the module-level frame, which
      equals the table's length when that frame is the one passed.
     */
    method InjectE(user: nat, globalLen: nat, patient: nat)
      requires Valid()
      requires user < RosterSize && Roles()[user] == Doctor
      requires 100 <= patient <= 999
      modifies this
      ensures Valid()
      ensures rows == old(rows) + [ScenarioERow(globalLen, user, startWeekday, patient)]
      ensures IdsByPosition(old(rows)) ==> (IdsByPosition(rows) <==> globalLen == |old(rows)|)
    {
      var row := ScenarioERow(globalLen, user, startWeekday, patient);
      ScenarioEConsistent(globalLen, user, startWeekday, patient);
      AppendConsistent(rows, row, startWeekday);
      if IdsByPosition(rows) {
        ScenarioEIdsByPosition(rows, globalLen, user, startWeekday, patient);
      }
      rows := rows + [row];
    }
  }
}
