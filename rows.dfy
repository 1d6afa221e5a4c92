/**
  Access-event rows and the bulk generation loop. The random draws of one
  iteration are gathered in a `Draw` value; a row is a function of its
  position, the start weekday, the window length and its draw.
 */
module Rows {
  import opened Format
  import opened Policy
  import opened Roster
  import opened Clock

  /** One record of the table, column by column. */
  datatype Row = Row(
    accessId: string,
    userId: string,
    userRole: Role,
    department: string,
    timestamp: int,          // minutes since the start date's midnight
    dayOfWeek: string,
    hourOfDay: int,
    patientId: string,
    actionType: Action,
    dataSensitivity: Sensitivity,
    accessLocation: Location,
    accessCountPerDay: int,
    isOffHours: int,
    isWeekend: int,
    roleRiskWeight: int,
    accessRiskScore: int)

  /** `f"A{str(i+1).zfill(5)}"` for the row at 0-based position i. */
  function AccessId(i: nat): (id: string)
    ensures |id| >= 6 && id[0] == 'A'
  {
    "A" + ZFill(Decimal(i + 1), 5)
  }

  /** `f"P{n}"`. */
  function PatientId(n: nat): (id: string)
    ensures |id| >= 2 && id[0] == 'P'
  {
    "P" + Decimal(n)
  }

  /** An access identifier is "A" and at least five digits that read back as i+1; six characters up to A99999. */
  lemma AccessIdFormat(i: nat)
    ensures AccessId(i)[0] == 'A' && AllDigits(AccessId(i)[1..])
    ensures ParseDecimal(AccessId(i)[1..]) == i + 1
    ensures |AccessId(i)| >= 6
    ensures i + 1 < 100000 ==> |AccessId(i)| == 6
  {
    assert AccessId(i)[1..] == ZFill(Decimal(i + 1), 5);
    ZFillRoundTrip(i + 1, 5);
    if i + 1 < 100000 {
      assert Pow10(5) == 100000;
      DecimalLengthBound(i + 1, 5);
    }
  }

  /** Distinct positions get distinct access identifiers. */
  lemma AccessIdInjective(i: nat, j: nat)
    requires AccessId(i) == AccessId(j)
    ensures i == j
  {
    AccessIdFormat(i);
    AccessIdFormat(j);
  }

  /** A patient identifier is "P" followed by the digits of its number. */
  lemma PatientIdFormat(n: nat)
    ensures PatientId(n)[0] == 'P' && AllDigits(PatientId(n)[1..])
    ensures ParseDecimal(PatientId(n)[1..]) == n
  {
    assert PatientId(n)[1..] == Decimal(n);
    ParseDecimalOfDecimal(n);
  }

  /**
    The draws of one bulk iteration: `random.choice(users)` as a roster index,
    the timestamp's minute offset, the three weighted choices, the role's
    daily-volume `randint` and the patient number `randint(100, 999)`.
   */
  datatype Draw = Draw(
    user: nat,
    minute: int,
    action: Action,
    sensitivity: Sensitivity,
    location: Location,
    count: int,
    patient: nat)

  /** Each draw lies in the range its sampler can return. */
  predicate ValidDraw(d: Draw, daysSpan: int) {
    && d.user < RosterSize
    && 0 <= d.minute <= daysSpan * 24 * 60 - 1
    && AccessCountRange(Roles()[d.user]).0 <= d.count <= AccessCountRange(Roles()[d.user]).1
    && 100 <= d.patient <= 999
  }

  /**
    The schema every row shares: the role is the roster's role for the user,
    the department and weight come from the role tables, hour and day name are
    those of the timestamp, the flags are the flag functions of those, and the
    score is the shared scorer applied to the row's own fields.
   */
  predicate Consistent(r: Row, startWeekday: nat)
    requires startWeekday < 7
  {
    && r.userId in UserRoleMap() && UserRoleMap()[r.userId] == r.userRole
    && r.userRole in RoleDepartment && r.department == RoleDepartment[r.userRole]
    && r.userRole in RoleRiskWeight && r.roleRiskWeight == RoleRiskWeight[r.userRole]
    && r.hourOfDay == HourOf(r.timestamp)
    && r.dayOfWeek == DayNameOf(startWeekday, r.timestamp)
    && r.isOffHours == IsOffHours(r.hourOfDay)
    && r.isWeekend == IsWeekend(r.dayOfWeek)
    && r.accessRiskScore == ComputeRiskScore(r.userRole, r.actionType, r.dataSensitivity, r.isOffHours)
  }

  /** Every row of a table satisfies the shared schema. */
  predicate AllConsistent(rows: seq<Row>, startWeekday: nat)
    requires startWeekday < 7
  {
    forall k :: 0 <= k < |rows| ==> Consistent(rows[k], startWeekday)
  }

  /** Appending a schema-conforming row to a conforming table keeps it conforming. */
  lemma AppendConsistent(rows: seq<Row>, row: Row, startWeekday: nat)
    requires startWeekday < 7
    requires AllConsistent(rows, startWeekday) && Consistent(row, startWeekday)
    ensures AllConsistent(rows + [row], startWeekday)
  {
    forall k | 0 <= k < |rows| + 1
      ensures Consistent((rows + [row])[k], startWeekday)
    {
      if k < |rows| {
        assert (rows + [row])[k] == rows[k];
      }
    }
  }

  /** The daily-volume counter lies in the inclusive range of the row's role. */
  predicate CountInRoleRange(r: Row) {
    AccessCountRange(r.userRole).0 <= r.accessCountPerDay <= AccessCountRange(r.userRole).1
  }

  /** The body of the bulk loop: the row built at position i from its draws. */
  function BuildRow(i: nat, startWeekday: nat, daysSpan: int, d: Draw): Row
    requires startWeekday < 7 && ValidDraw(d, daysSpan)
  {
    RosterUser(d.user);
    var user := UserId(d.user);
    var role := UserRoleMap()[user];
    TablesCoverEveryRole(role);
    var ts := RandomTimestamp(0, daysSpan, d.minute);
    var hour := HourOf(ts);
    var dayName := DayNameOf(startWeekday, ts);
    var weekendFlag := IsWeekend(dayName);
    var offHoursFlag := IsOffHours(hour);
    Row(
      AccessId(i), user, role, RoleDepartment[role], ts, dayName, hour, PatientId(d.patient),
      d.action, d.sensitivity, d.location, d.count, offHoursFlag, weekendFlag,
      RoleRiskWeight[role], ComputeRiskScore(role, d.action, d.sensitivity, offHoursFlag))
  }

  /**
    A bulk row meets the shared schema, carries the values drawn for it and
    its position's identifier, and has a volume in its role's range.
   */
  lemma BuildRowFacts(i: nat, startWeekday: nat, daysSpan: int, d: Draw)
    requires startWeekday < 7 && ValidDraw(d, daysSpan)
    ensures var row := BuildRow(i, startWeekday, daysSpan, d);
            && Consistent(row, startWeekday)
            && CountInRoleRange(row)
            && row.accessId == AccessId(i) && row.userId == UserId(d.user)
            && row.userRole == Roles()[d.user]
            && row.patientId == PatientId(d.patient) && 100 <= d.patient <= 999
            && row.timestamp == d.minute && row.actionType == d.action
            && row.dataSensitivity == d.sensitivity && row.accessLocation == d.location
            && row.accessCountPerDay == d.count
            && 0 <= DayOf(row.timestamp) < daysSpan && 0 <= row.hourOfDay < 24
            && row.isOffHours in {0, 1} && row.isWeekend in {0, 1}
            && 20 <= row.accessRiskScore <= 120
  {
    RosterUser(d.user);
    TablesCoverEveryRole(Roles()[d.user]);
    TimestampWithinWindow(daysSpan, d.minute);
  }

  /** The rows of the first n bulk iterations, in insertion order. */
  function BuildRows(n: nat, startWeekday: nat, daysSpan: int, draws: seq<Draw>): (rows: seq<Row>)
    requires startWeekday < 7 && n <= |draws|
    requires forall k :: 0 <= k < n ==> ValidDraw(draws[k], daysSpan)
    ensures |rows| == n
  {
    if n == 0 then [] else BuildRows(n - 1, startWeekday, daysSpan, draws) + [BuildRow(n - 1, startWeekday, daysSpan, draws[n - 1])]
  }

  /** Row k of the bulk table is the row built from the k-th draws. */
  lemma {:induction false} BuildRowsAt(n: nat, startWeekday: nat, daysSpan: int, draws: seq<Draw>, k: nat)
    requires startWeekday < 7 && n <= |draws|
    requires forall j :: 0 <= j < n ==> ValidDraw(draws[j], daysSpan)
    requires k < n
    ensures BuildRows(n, startWeekday, daysSpan, draws)[k] == BuildRow(k, startWeekday, daysSpan, draws[k])
  {
    var prev := BuildRows(n - 1, startWeekday, daysSpan, draws);
    var last := BuildRow(n - 1, startWeekday, daysSpan, draws[n - 1]);
    assert BuildRows(n, startWeekday, daysSpan, draws) == prev + [last];
    if k < n - 1 {
      BuildRowsAt(n - 1, startWeekday, daysSpan, draws, k);
      assert (prev + [last])[k] == prev[k];
    }
  }

  /** Every bulk row passes the schema, has its role's volume range and its position's identifier. */
  lemma BuildRowsFacts(n: nat, startWeekday: nat, daysSpan: int, draws: seq<Draw>)
    requires startWeekday < 7 && n <= |draws|
    requires forall j :: 0 <= j < n ==> ValidDraw(draws[j], daysSpan)
    ensures var rows := BuildRows(n, startWeekday, daysSpan, draws);
            forall k :: 0 <= k < n ==>
              Consistent(rows[k], startWeekday) && CountInRoleRange(rows[k]) && rows[k].accessId == AccessId(k)
  {
    var rows := BuildRows(n, startWeekday, daysSpan, draws);
    forall k | 0 <= k < n
      ensures Consistent(rows[k], startWeekday) && CountInRoleRange(rows[k]) && rows[k].accessId == AccessId(k)
    {
      BuildRowsAt(n, startWeekday, daysSpan, draws, k);
      BuildRowFacts(k, startWeekday, daysSpan, draws[k]);
    }
  }

  /**
    The bulk loop: `numRows` iterations, each appending the row built from
    that iteration's draws.
   */
  method GenerateRows(numRows: nat, startWeekday: nat, daysSpan: int, draws: seq<Draw>)
    returns (rows: seq<Row>)
    requires startWeekday < 7
    requires numRows <= |draws|
    requires forall k :: 0 <= k < numRows ==> ValidDraw(draws[k], daysSpan)
    ensures rows == BuildRows(numRows, startWeekday, daysSpan, draws)
    ensures |rows| == numRows
    ensures forall k :: 0 <= k < numRows ==>
              Consistent(rows[k], startWeekday) && CountInRoleRange(rows[k]) && rows[k].accessId == AccessId(k)
    ensures IdsByPosition(rows)
  {
    rows := [];
    for i := 0 to numRows
      invariant rows == BuildRows(i, startWeekday, daysSpan, draws)
    {
      rows := rows + [BuildRow(i, startWeekday, daysSpan, draws[i])];
    }
    BuildRowsFacts(numRows, startWeekday, daysSpan, draws);
  }

  /** Row k carries the identifier of position k, as the bulk loop numbers its rows. */
  predicate IdsByPosition(rows: seq<Row>) {
    forall k :: 0 <= k < |rows| ==> rows[k].accessId == AccessId(k)
  }

  /** A table numbered by position stays so after an append exactly when the new row takes the next number. */
  lemma AppendIdsByPosition(rows: seq<Row>, row: Row)
    requires IdsByPosition(rows)
    ensures IdsByPosition(rows + [row]) <==> row.accessId == AccessId(|rows|)
  {
    var t := rows + [row];
    if row.accessId == AccessId(|rows|) {
      forall k | 0 <= k < |t|
        ensures t[k].accessId == AccessId(k)
      {
        if k < |rows| {
          assert t[k] == rows[k];
        }
      }
    } else {
      assert t[|rows|] == row;
    }
  }

  /** The row identifiers of a bulk table are pairwise distinct. */
  lemma GeneratedIdsDistinct(rows: seq<Row>)
    requires IdsByPosition(rows)
    ensures forall k, l :: 0 <= k < l < |rows| ==> rows[k].accessId != rows[l].accessId
  {
    forall k, l | 0 <= k < l < |rows|
      ensures rows[k].accessId != rows[l].accessId
    {
      if rows[k].accessId == rows[l].accessId {
        AccessIdInjective(k, l);
      }
    }
  }

  /** `df.head(n)`: the first n rows, or all of them when there are fewer. */
  function Head(rows: seq<Row>, n: nat): (r: seq<Row>)
    ensures |r| == if |rows| < n then |rows| else n
    ensures forall k :: 0 <= k < |r| ==> r[k] == rows[k]
  {
    if |rows| <= n then rows else rows[..n]
  }

  /**
    The whole script: the bulk rows of the configured run, then
    `df.head(NUM_ROWS)`, which keeps all of them (no scenario is invoked).
   */
  method GenerateDataset(draws: seq<Draw>) returns (table: seq<Row>)
    requires NumRows <= |draws|
    requires forall k :: 0 <= k < NumRows ==> ValidDraw(draws[k], DaysSpan)
    ensures table == BuildRows(NumRows, StartWeekday, DaysSpan, draws)
    ensures |table| == NumRows && AllConsistent(table, StartWeekday) && IdsByPosition(table)
  {
    var rows := GenerateRows(NumRows, StartWeekday, DaysSpan, draws);
    table := Head(rows, NumRows);
  }
}
