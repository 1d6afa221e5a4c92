/**
  The generator's configuration and its scoring policy: the role, action,
  sensitivity and location enumerations, the two role tables, the weekend and
  off-hours flags, the per-role daily-volume ranges and the risk scorer that
  the bulk sampler and every scenario share.
 */
module Policy {

  datatype Role = Doctor | Nurse | Admin | Receptionist | Pharmacist
  datatype Action = View | Edit | Export
  datatype Sensitivity = Normal | High
  datatype Location = Onsite | Remote

  // Run configuration: 5000 rows over 30 days from 2025-06-01 00:00, a Sunday.
  const NumRows: nat := 5000
  const DaysSpan: int := 30
  /** Weekday of the start date, 0 = Monday .. 6 = Sunday. */
  const StartWeekday: nat := 6
  const MinutesPerDay: nat := 1440

  /** `role_department`. */
  const RoleDepartment: map<Role, string> := map[
    Doctor := "Clinical",
    Nurse := "Clinical",
    Pharmacist := "Pharmacy",
    Admin := "Admin",
    Receptionist := "Admin"
  ]

  /** `role_risk_weight`. */
  const RoleRiskWeight: map<Role, int> := map[
    Doctor := 2,
    Nurse := 3,
    Pharmacist := 3,
    Admin := 5,
    Receptionist := 4
  ]

  /** Both tables have an entry for every role; weights lie in 2..5. */
  lemma TablesCoverEveryRole(r: Role)
    ensures r in RoleDepartment && r in RoleRiskWeight
    ensures 2 <= RoleRiskWeight[r] <= 5
  {
    match r
    case Doctor =>
    case Nurse =>
    case Admin =>
    case Receptionist =>
    case Pharmacist =>
  }

  /** Day names as `strftime("%A")` prints them, indexed by weekday. */
  const DayNames: seq<string> :=
    ["Monday", "Tuesday", "Wednesday", "Thursday", "Friday", "Saturday", "Sunday"]

  function DayName(d: nat): string
    requires d < 7
  {
    DayNames[d]
  }

  /** The seven names are distinct, so a name determines its weekday. */
  lemma DayNameInjective(d: nat, e: nat)
    requires d < 7 && e < 7
    ensures DayName(d) == DayName(e) <==> d == e
  {
    if d != e {
      assert DayNames[d][0] != DayNames[e][0] || DayNames[d][1] != DayNames[e][1];
    }
  }

  /** `is_weekend`: 1 for "Saturday" and "Sunday", 0 for any other string. */
  function IsWeekend(dayName: string): (flag: int)
    ensures flag == 1 <==> dayName == "Saturday" || dayName == "Sunday"
    ensures flag == 0 <==> dayName != "Saturday" && dayName != "Sunday"
  {
    if dayName in ["Saturday", "Sunday"] then 1 else 0
  }

  /** The two literal day names the scenarios write. */
  lemma LiteralDayNames()
    ensures IsWeekend("Sunday") == 1 && IsWeekend("Tuesday") == 0
  {
  }

  /** Of the seven weekdays exactly Saturday (5) and Sunday (6) are weekend days. */
  lemma WeekendByIndex(d: nat)
    requires d < 7
    ensures IsWeekend(DayName(d)) == 1 <==> d >= 5
  {
    DayNameInjective(d, 5);
    DayNameInjective(d, 6);
  }

  /**
    `is_off_hours`: 1 strictly before 08:00 or from 19:00 on. Hour 18 is
    in-hours, so an access at 18:00-18:59 is not flagged.
   */
  function IsOffHours(hour: int): (flag: int)
    ensures flag == 0 || flag == 1
    ensures flag == 1 <==> hour < 8 || hour > 18
    ensures flag == 0 <==> 8 <= hour <= 18
  {
    if hour < 8 || hour > 18 then 1 else 0
  }

  /**
    `compute_risk_score`: the role's weight times ten, plus 30 for High
    sensitivity, 20 for an Export and 20 when the off-hours flag equals 1.
   */
  function ComputeRiskScore(role: Role, action: Action, sensitivity: Sensitivity, offHoursFlag: int): (score: int)
    ensures role in RoleRiskWeight
    ensures score == RoleRiskWeight[role] * 10
                     + (if sensitivity == High then 30 else 0)
                     + (if action == Export then 20 else 0)
                     + (if offHoursFlag == 1 then 20 else 0)
    ensures RoleRiskWeight[role] * 10 <= score <= RoleRiskWeight[role] * 10 + 70
    ensures 20 <= score <= 120
  {
    TablesCoverEveryRole(role);
    var base := RoleRiskWeight[role] * 10;
    var afterSensitivity := if sensitivity == High then base + 30 else base;
    var afterAction := if action == Export then afterSensitivity + 20 else afterSensitivity;
    if offHoursFlag == 1 then afterAction + 20 else afterAction
  }

  /** The score rises above the role's base exactly when some risk factor is present. */
  lemma ScoreAboveBaseIffRisky(role: Role, action: Action, sensitivity: Sensitivity, offHoursFlag: int)
    ensures role in RoleRiskWeight
    ensures ComputeRiskScore(role, action, sensitivity, offHoursFlag) > RoleRiskWeight[role] * 10
            <==> sensitivity == High || action == Export || offHoursFlag == 1
  {
    TablesCoverEveryRole(role);
  }

  /** The score reaches the role's maximum exactly when all three risk factors are present. */
  lemma ScoreMaximalIffAllRisks(role: Role, action: Action, sensitivity: Sensitivity, offHoursFlag: int)
    ensures role in RoleRiskWeight
    ensures ComputeRiskScore(role, action, sensitivity, offHoursFlag) == RoleRiskWeight[role] * 10 + 70
            <==> sensitivity == High && action == Export && offHoursFlag == 1
  {
    TablesCoverEveryRole(role);
  }

  /** With the same event, a role with a higher weight never scores lower. */
  lemma ScoreMonotoneInWeight(r1: Role, r2: Role, action: Action, sensitivity: Sensitivity, offHoursFlag: int)
    requires r1 in RoleRiskWeight && r2 in RoleRiskWeight
    requires RoleRiskWeight[r1] <= RoleRiskWeight[r2]
    ensures ComputeRiskScore(r1, action, sensitivity, offHoursFlag)
            <= ComputeRiskScore(r2, action, sensitivity, offHoursFlag)
  {
  }

  /**
    The inclusive `randint` bounds for AccessCountPerDay, chosen by the
    if/elif chain on the role (Receptionist is the final `else`).
   */
  function AccessCountRange(role: Role): (range: (int, int))
    ensures 5 <= range.0 <= range.1 <= 90
    ensures role == Doctor ==> range == (40, 90)
    ensures role == Nurse ==> range == (25, 60)
    ensures role == Pharmacist ==> range == (10, 30)
    ensures role == Admin ==> range == (5, 20)
    ensures role == Receptionist ==> range == (5, 15)
  {
    if role == Doctor then (40, 90)
    else if role == Nurse then (25, 60)
    else if role == Pharmacist then (10, 30)
    else if role == Admin then (5, 20)
    else (5, 15)
  }

  /** The outlier value 500 written by scenario B lies above every role's range. */
  lemma OutlierAboveEveryRange(role: Role)
    ensures AccessCountRange(role).1 < 500
  {
  }
}
