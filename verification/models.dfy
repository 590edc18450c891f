/** The tables the handlers read and write, and the row-level writes the ORM
    performs on them. The status table exists in the schema but no handler
    touches it, so it is not part of this model. */
module Models {
  import opened Base
  import opened Tables

  datatype CustomerCols = CustomerCols(name: string)

  datatype SiteCols = SiteCols(name: string, customerId: Uuid)

  /** The eight device columns a device request carries, under their JSON names
      `gateway`, `controller`, `controller_serial_number`, `device_type`,
      `device_name`, `device_serial_number`, `building_url`, `auth_token`. */
  datatype DeviceSpec = DeviceSpec(
    gateway: string,
    controller: string,
    controllerSerialNumber: string,
    deviceType: string,
    deviceName: string,
    deviceSerialNumber: string,
    buildingUrl: string,
    authToken: string)

  datatype DeviceCols = DeviceCols(siteId: Uuid, spec: DeviceSpec)

  /** A persisted non-admin session token and the (customer, action) scope it was issued for. */
  datatype TokenCols = TokenCols(customerId: Uuid, action: string, token: string)

  type Customer = Row<CustomerCols>
  type Site = Row<SiteCols>
  type Device = Row<DeviceCols>
  type AuthToken = Row<TokenCols>

  datatype Db = Db(
    customers: Table<CustomerCols>,
    sites: Table<SiteCols>,
    devices: Table<DeviceCols>,
    tokens: Table<TokenCols>)

  /** Every table is in primary-key order (so its ids are unique). */
  ghost predicate Valid(db: Db)
  {
    && Ordered(db.customers)
    && Ordered(db.sites)
    && Ordered(db.devices)
    && Ordered(db.tokens)
  }

  /** A row as `Create` stores it: both timestamps set to the insertion time, live. */
  function NewRow<T>(id: Uuid, now: int, cols: T): Row<T>
  {
    Row(id, now, now, None, cols)
  }

  /** `Create`: None when the primary key is taken (the database refuses the row). */
  function CreateRow<T>(t: Table<T>, row: Row<T>): (r: Option<Table<T>>)
    ensures r.None? <==> HasId(t, row.id)
    ensures r.Some? ==> multiset(r.value) == multiset(t) + multiset{row}
    ensures r.Some? && Ordered(t) ==> Ordered(r.value)
  {
    if HasId(t, row.id) then None
    else
      InsertKeepsOrder(t, row);
      Some(Insert(t, row))
  }

  lemma InsertKeepsOrder<T>(t: Table<T>, row: Row<T>)
    requires !HasId(t, row.id)
    ensures Ordered(t) ==> Ordered(Insert(t, row))
  {
    if Ordered(t) {
      InsertOrdered(t, row);
    }
  }

  /** The soft delete the ORM performs: only the marker is written. */
  function SoftDeleted<T>(r: Row<T>, now: int): Row<T>
  {
    r.(deletedAt := Some(now))
  }

  /** Clearing the marker and resetting both timestamps, as the create handlers do on restore. */
  function Restored<T>(r: Row<T>, now: int): Row<T>
  {
    r.(deletedAt := None, createdAt := now, updatedAt := now)
  }

  /** `Unscoped().Save(&row)`: every column of the row with that id is written from `row`. */
  function SaveRow<T>(t: Table<T>, row: Row<T>): (r: Table<T>)
    ensures |r| == |t|
    ensures forall i :: 0 <= i < |t| ==> r[i] == if t[i].id == row.id then row else t[i]
    ensures Ordered(t) ==> Ordered(r)
  {
    Modify(t, Unscoped, ById(row.id), (x: Row<T>) => row)
  }

  /** A live row with the given id exists: what a scoped lookup by id finds. */
  ghost predicate LiveId<T>(t: Table<T>, id: string)
  {
    exists i :: 0 <= i < |t| && t[i].id == id && t[i].Live()
  }

  /** A row with the given id that a query under `scope` sees exists. */
  ghost predicate VisibleId<T>(t: Table<T>, scope: Scope, id: string)
  {
    exists i :: 0 <= i < |t| && t[i].id == id && Visible(t[i], scope)
  }

  /** The zero values a preload leaves in place when it finds no row: nil id, empty columns. */
  const ZeroCustomer: Customer := NewRow(NilUuid, 0, CustomerCols(""))
  const ZeroSite: Site := NewRow(NilUuid, 0, SiteCols("", NilUuid))

  /** Position `k` holds the first row, in primary-key order, that `p` selects
      among all rows, soft-deleted ones included: the row an unscoped `First` returns. */
  ghost predicate FirstUnscoped<T>(t: Table<T>, p: Row<T> -> bool, k: int)
  {
    0 <= k < |t| && p(t[k]) && forall j :: 0 <= j < k ==> !p(t[j])
  }

  /** Removing a table's rows from consideration: none of them is selected by `p`. */
  ghost predicate NoneSelected<T>(t: Table<T>, p: Row<T> -> bool)
  {
    forall j :: 0 <= j < |t| ==> !p(t[j])
  }

  /** A row inserted when no row matched `p` is, afterwards, the only row `p` selects. */
  lemma InsertedIsOnlyMatch<T>(t: Table<T>, row: Row<T>, p: Row<T> -> bool) returns (k: int)
    requires NoneSelected(t, p) && p(row)
    ensures 0 <= k < |Insert(t, row)| && Insert(t, row)[k] == row
    ensures forall j :: 0 <= j < |Insert(t, row)| && j != k ==> !p(Insert(t, row)[j])
    ensures FirstUnscoped(Insert(t, row), p, k)
  {
    k := InsertSplit(t, row);
    var r := Insert(t, row);
    forall j | 0 <= j < |r| && j != k
      ensures !p(r[j])
    {
      if j < k {
        assert r[j] == t[j];
      } else {
        assert r[j] == t[j - 1];
      }
    }
  }

  /** No two rows, live or soft-deleted, share a value of the natural key `key`. */
  ghost predicate KeysUnique<T>(t: Table<T>, key: Row<T> -> string)
  {
    forall i, j :: 0 <= i < |t| && 0 <= j < |t| && i != j ==> key(t[i]) != key(t[j])
  }

  lemma ConsKeepsKeysUnique<T>(x: Row<T>, s: Table<T>, key: Row<T> -> string)
    requires KeysUnique(s, key)
    requires forall j :: 0 <= j < |s| ==> key(s[j]) != key(x)
    ensures KeysUnique([x] + s, key)
  {
    var r := [x] + s;
    forall i, j | 0 <= i < |r| && 0 <= j < |r| && i != j
      ensures key(r[i]) != key(r[j])
    {
      if i > 0 && j > 0 {
        assert r[i] == s[i - 1] && r[j] == s[j - 1];
      } else if i == 0 {
        assert r[j] == s[j - 1];
      } else {
        assert r[i] == s[i - 1];
      }
    }
  }

  /** Inserting a row whose key no row has keeps the key unique. */
  lemma {:induction false} InsertKeepsKeysUnique<T>(t: Table<T>, row: Row<T>, key: Row<T> -> string)
    requires KeysUnique(t, key)
    requires forall j :: 0 <= j < |t| ==> key(t[j]) != key(row)
    ensures KeysUnique(Insert(t, row), key)
    decreases |t|
  {
    if |t| == 0 || IdLess(row.id, t[0].id) {
      ConsKeepsKeysUnique(row, t, key);
    } else {
      var tail := t[1..];
      assert KeysUnique(tail, key) by {
        assert forall j :: 0 <= j < |tail| ==> tail[j] == t[j + 1];
      }
      InsertKeepsKeysUnique(tail, row, key);
      var rest := Insert(tail, row);
      forall j | 0 <= j < |rest|
        ensures key(rest[j]) != key(t[0])
      {
        InsertMember(tail, row, rest[j]);
        if rest[j] != row {
          var a :| 0 <= a < |tail| && tail[a] == rest[j];
          assert tail[a] == t[a + 1];
        }
      }
      ConsKeepsKeysUnique(t[0], rest, key);
    }
  }

  /** Rewriting rows without touching their key keeps the key unique. */
  lemma ModifyKeepsKeysUnique<T>(t: Table<T>, scope: Scope, p: Row<T> -> bool, f: Row<T> -> Row<T>,
                                 key: Row<T> -> string)
    requires KeysUnique(t, key)
    requires forall i :: 0 <= i < |t| && Hit(t[i], scope, p) ==> key(f(t[i])) == key(t[i])
    ensures KeysUnique(Modify(t, scope, p, f), key)
  {
    var r := Modify(t, scope, p, f);
    assert forall i :: 0 <= i < |t| ==> key(r[i]) == key(t[i]);
  }

  /** `Delete(...)` on a soft-delete model: `UPDATE SET deleted_at = now WHERE p AND deleted_at IS NULL`. */
  function SoftDeleteWhere<T>(t: Table<T>, p: Row<T> -> bool, now: int): (r: Table<T>)
    ensures |r| == |t|
    ensures forall i :: 0 <= i < |t| ==> r[i].id == t[i].id && r[i].fields == t[i].fields
                                         && r[i].createdAt == t[i].createdAt && r[i].updatedAt == t[i].updatedAt
    ensures forall i :: 0 <= i < |t| ==> r[i].deletedAt == if t[i].Live() && p(t[i]) then Some(now) else t[i].deletedAt
    ensures Ordered(t) ==> Ordered(r)
  {
    Modify(t, Scoped, p, (x: Row<T>) => SoftDeleted(x, now))
  }

  /** A soft delete that selects no live row leaves the table as it was. */
  lemma SoftDeleteNothing<T>(t: Table<T>, p: Row<T> -> bool, now: int)
    requires forall i :: 0 <= i < |t| ==> !(t[i].Live() && p(t[i]))
    ensures SoftDeleteWhere(t, p, now) == t
  {
    var r := SoftDeleteWhere(t, p, now);
    forall i | 0 <= i < |t|
      ensures r[i] == t[i]
    {
    }
  }

  /** The `token` column of the record a scoped `First` loads into a zero-valued
      struct: the empty string when no live row matches. */
  function FirstTokenText(t: Table<TokenCols>, p: AuthToken -> bool): (s: string)
    ensures (forall j :: 0 <= j < |t| ==> !Hit(t[j], Scoped, p)) ==> s == ""
    ensures forall i :: 0 <= i < |t| && Hit(t[i], Scoped, p) && (forall j :: 0 <= j < i ==> !Hit(t[j], Scoped, p))
                        ==> s == t[i].fields.token
  {
    forall i | 0 <= i < |t| && Hit(t[i], Scoped, p) && (forall j :: 0 <= j < i ==> !Hit(t[j], Scoped, p))
      ensures FirstIndex(t, Scoped, p) == Some(i)
    {
      FirstIndexAt(t, Scoped, p, i);
    }
    match FirstIndex(t, Scoped, p)
    case None => ""
    case Some(i) => t[i].fields.token
  }

  function CustomerNamed(name: string): Customer -> bool
  {
    (r: Customer) => r.fields.name == name
  }

  function SiteNamed(name: string): Site -> bool
  {
    (r: Site) => r.fields.name == name
  }

  function SiteOwnedBy(customerId: string): Site -> bool
  {
    (r: Site) => r.fields.customerId == customerId
  }

  function DeviceWithSerial(serial: string): Device -> bool
  {
    (r: Device) => r.fields.spec.deviceSerialNumber == serial
  }

  function DeviceAtSite(siteId: string): Device -> bool
  {
    (r: Device) => r.fields.siteId == siteId
  }

  function TokenScope(customerId: string, action: string): AuthToken -> bool
  {
    (r: AuthToken) => r.fields.customerId == customerId && r.fields.action == action
  }

  function TokenText(token: string): AuthToken -> bool
  {
    (r: AuthToken) => r.fields.token == token
  }
}
