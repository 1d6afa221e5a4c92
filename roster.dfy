/**
  The staff roster: a fixed list of roles (86 Doctors, 166 Nurses, 15 Admins,
  21 Receptionists, 12 Pharmacists, in that order), the user identifiers
  U001..U300 assigned in order, and the user-to-role dictionary built by
  zipping the two.
 */
module Roster {
  import opened Format
  import opened Policy

  /** `[x] * n`. */
  function Repeat<T>(x: T, n: nat): seq<T> {
    seq(n, _ => x)
  }

  lemma {:induction false} RepeatMultiset<T>(x: T, n: nat, y: T)
    ensures multiset(Repeat(x, n))[y] == if x == y then n else 0
  {
    if n > 0 {
      assert Repeat(x, n) == [x] + Repeat(x, n - 1);
      RepeatMultiset(x, n - 1, y);
    }
  }

  const RosterSize: nat := 300

  /** The `roles` list: user i (0-based) has role Roles()[i]. */
  function Roles(): (rs: seq<Role>)
    ensures |rs| == RosterSize
  {
    Repeat(Doctor, 86) + Repeat(Nurse, 166) + Repeat(Admin, 15)
    + Repeat(Receptionist, 21) + Repeat(Pharmacist, 12)
  }

  /** The exact per-role head counts, and a total that is their sum. */
  lemma RosterRoleCounts()
    ensures |Roles()| == 86 + 166 + 15 + 21 + 12
    ensures multiset(Roles())[Doctor] == 86
    ensures multiset(Roles())[Nurse] == 166
    ensures multiset(Roles())[Admin] == 15
    ensures multiset(Roles())[Receptionist] == 21
    ensures multiset(Roles())[Pharmacist] == 12
  {
    var d, n, a, c, p := Repeat(Doctor, 86), Repeat(Nurse, 166), Repeat(Admin, 15),
                         Repeat(Receptionist, 21), Repeat(Pharmacist, 12);
    assert Roles() == d + n + a + c + p;
    var whole := multiset(d) + multiset(n) + multiset(a) + multiset(c) + multiset(p);
    assert multiset(Roles()) == whole;
    BlockCounts(Doctor);
    BlockCounts(Nurse);
    BlockCounts(Admin);
    BlockCounts(Receptionist);
    BlockCounts(Pharmacist);
  }

  /** How often role r occurs in each of the five blocks of the roles list. */
  lemma BlockCounts(r: Role)
    ensures multiset(Repeat(Doctor, 86))[r] == if r == Doctor then 86 else 0
    ensures multiset(Repeat(Nurse, 166))[r] == if r == Nurse then 166 else 0
    ensures multiset(Repeat(Admin, 15))[r] == if r == Admin then 15 else 0
    ensures multiset(Repeat(Receptionist, 21))[r] == if r == Receptionist then 21 else 0
    ensures multiset(Repeat(Pharmacist, 12))[r] == if r == Pharmacist then 12 else 0
  {
    RepeatMultiset(Doctor, 86, r);
    RepeatMultiset(Nurse, 166, r);
    RepeatMultiset(Admin, 15, r);
    RepeatMultiset(Receptionist, 21, r);
    RepeatMultiset(Pharmacist, 12, r);
  }

  /** The role of user i is fixed by which block of the list i falls in. */
  lemma RoleOfIndex(i: nat)
    requires i < RosterSize
    ensures i < 86 ==> Roles()[i] == Doctor
    ensures 86 <= i < 252 ==> Roles()[i] == Nurse
    ensures 252 <= i < 267 ==> Roles()[i] == Admin
    ensures 267 <= i < 288 ==> Roles()[i] == Receptionist
    ensures 288 <= i ==> Roles()[i] == Pharmacist
  {
  }

  /** `f"U{str(i+1).zfill(3)}"`. */
  function UserId(i: nat): (id: string)
    ensures |id| >= 4 && id[0] == 'U'
  {
    "U" + ZFill(Decimal(i + 1), 3)
  }

  /** The number written after the "U" of a user identifier. */
  function UserNumber(id: string): nat
    requires 1 <= |id| && AllDigits(id[1..])
  {
    ParseDecimal(id[1..])
  }

  /** Any user identifier reads back as its position plus one. */
  lemma UserIdReadBack(i: nat)
    ensures 1 <= |UserId(i)| && AllDigits(UserId(i)[1..])
    ensures UserNumber(UserId(i)) == i + 1
  {
    assert UserId(i)[1..] == ZFill(Decimal(i + 1), 3);
    ZFillRoundTrip(i + 1, 3);
  }

  /** User i's identifier is "U" followed by the three digits of i+1, and reads back as i+1. */
  lemma UserIdFormat(i: nat)
    requires i < RosterSize
    ensures |UserId(i)| == 4 && UserId(i)[0] == 'U'
    ensures AllDigits(UserId(i)[1..])
    ensures UserNumber(UserId(i)) == i + 1
  {
    DecimalLengthBound(i + 1, 3);
    UserIdReadBack(i);
  }

  /** No two positions share an identifier. */
  lemma UserIdInjective(i: nat, j: nat)
    requires UserId(i) == UserId(j)
    ensures i == j
  {
    UserIdReadBack(i);
    UserIdReadBack(j);
  }

  /** The `users` list U001..U300. */
  function Users(): (us: seq<string>)
    ensures |us| == RosterSize
  {
    seq(RosterSize, i requires 0 <= i < RosterSize => UserId(i))
  }

  /** `dict(zip(keys, values))`: pairs inserted left to right, a later key overwriting an earlier one. */
  function ZipMap<K, V>(keys: seq<K>, values: seq<V>): map<K, V>
    requires |keys| == |values|
  {
    if |keys| == 0 then map[]
    else ZipMap(keys[..|keys| - 1], values[..|values| - 1])[keys[|keys| - 1] := values[|values| - 1]]
  }

  /** The keys of the dictionary are exactly the zipped keys. */
  lemma {:induction false} ZipMapKeys<K, V>(keys: seq<K>, values: seq<V>)
    requires |keys| == |values|
    ensures ZipMap(keys, values).Keys == set k | k in keys
  {
    var n := |keys|;
    if n > 0 {
      ZipMapKeys(keys[..n - 1], values[..n - 1]);
      assert keys == keys[..n - 1] + [keys[n - 1]];
    }
  }

  /** With distinct keys, each key maps to the value at its own position. */
  lemma {:induction false} ZipMapAt<K, V>(keys: seq<K>, values: seq<V>, i: nat)
    requires |keys| == |values| && i < |keys|
    requires forall a, b :: 0 <= a < b < |keys| ==> keys[a] != keys[b]
    ensures keys[i] in ZipMap(keys, values) && ZipMap(keys, values)[keys[i]] == values[i]
  {
    var n := |keys|;
    if i < n - 1 {
      ZipMapAt(keys[..n - 1], values[..n - 1], i);
    }
  }

  /** `user_role_map = dict(zip(users, roles))`. */
  function UserRoleMap(): map<string, Role> {
    ZipMap(Users(), Roles())
  }

  /** The roster identifiers are pairwise distinct. */
  lemma UsersDistinct()
    ensures forall a, b :: 0 <= a < b < RosterSize ==> Users()[a] != Users()[b]
  {
    forall a, b | 0 <= a < b < RosterSize
      ensures Users()[a] != Users()[b]
    {
      if Users()[a] == Users()[b] {
        UserIdInjective(a, b);
      }
    }
  }

  /** User i is a key of the role map, with the role at position i. */
  lemma RosterUser(i: nat)
    requires i < RosterSize
    ensures UserId(i) in UserRoleMap() && UserRoleMap()[UserId(i)] == Roles()[i]
  {
    UsersDistinct();
    ZipMapAt(Users(), Roles(), i);
  }

  /** The role map's keys are the roster identifiers and nothing else. */
  lemma UserRoleMapKeys()
    ensures UserRoleMap().Keys == set u | u in Users()
  {
    ZipMapKeys(Users(), Roles());
  }
}
