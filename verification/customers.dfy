/** The customer handlers: create-or-restore-or-reject by name, fetch, update
    and soft delete, plus the two customer lookups the other handlers share. */
module Customers {
  import opened Base
  import opened Tables
  import opened Models
  import opened ServerUtils

  /** `FetchCustomerByID`: scoped, so a soft-deleted customer is not found. */
  function FetchCustomerById(db: Db, id: string): (r: Option<Customer>)
    ensures r.Some? ==> r.value in db.customers && r.value.id == id && r.value.Live()
    ensures r.None? <==> !LiveId(db.customers, id)
  {
    First(db.customers, Scoped, ById(id))
  }

  /** `FetchCustomerByName`: unscoped, so soft-deleted customers are found too. */
  function FetchCustomerByName(db: Db, name: string): (r: Option<Customer>)
    ensures r.None? <==> NoneSelected(db.customers, CustomerNamed(name))
    ensures r.Some? ==> exists k :: FirstUnscoped(db.customers, CustomerNamed(name), k) && r.value == db.customers[k]
  {
    First(db.customers, Unscoped, CustomerNamed(name))
  }

  function View(c: Customer): CustomerView
  {
    CustomerView(c.id, c.fields.name)
  }

  /** The name a customer request body carries, when it binds and is not empty. */
  predicate NamedBody(body: Json)
  {
    body.Object? && Member(body, "name") != ""
  }

  /** `CustomerCreate`: insert, restore or reject, decided by the unscoped lookup of the name. */
  function CustomerCreate(body: Json, db: Db, now: int, newId: Uuid): (o: Outcome)
    ensures !NamedBody(body) ==> o.reply.code == 400 && o.db == db
    ensures o.reply.code in {200, 201, 400, 500}
    ensures o.reply.code in {400, 500} ==> o.db == db
    ensures o.db.sites == db.sites && o.db.devices == db.devices && o.db.tokens == db.tokens
    ensures Valid(db) ==> Valid(o.db)
  {
    if !NamedBody(body) then
      Outcome(WriteError(400, "Invalid request body", Text("Name field is required")), db)
    else
      var name := Member(body, "name");
      match FetchCustomerByName(db, name)
      case None =>
        (match CreateRow(db.customers, NewRow(newId, now, CustomerCols(name)))
         case None => Outcome(WriteError(500, "Failed to create customer", External), db)
         case Some(t) =>
           Outcome(WriteJson(201, "Customer created", OneCustomer(CustomerView(newId, name))), db.(customers := t)))
      case Some(c) =>
        if !c.Live() then
          var restored := Restored(c, now);
          Outcome(WriteJson(200, "Customer restored", OneCustomer(View(restored))),
                  db.(customers := SaveRow(db.customers, restored)))
        else
          Outcome(WriteError(400, "Customer already exists", Text("A customer with this name already exists")), db)
  }

  /** `CustomerFetchAll`: every live customer, in the order `Find` returns them. */
  function CustomerFetchAll(db: Db): (r: Reply)
    ensures r.code == 200 && r.body.Envelope? && r.body.data.Customers?
    ensures forall v :: v in r.body.data.customers ==>
              exists i :: 0 <= i < |db.customers| && db.customers[i].Live() && v == View(db.customers[i])
    ensures forall i :: 0 <= i < |db.customers| && db.customers[i].Live() ==>
              View(db.customers[i]) in r.body.data.customers
  {
    var live := FindAll(db.customers, Scoped, (c: Customer) => true);
    var views := seq(|live|, i requires 0 <= i < |live| => View(live[i]));
    assert forall i :: 0 <= i < |db.customers| && db.customers[i].Live() ==> View(db.customers[i]) in views by {
      forall i | 0 <= i < |db.customers| && db.customers[i].Live()
        ensures View(db.customers[i]) in views
      {
        var k :| 0 <= k < |live| && live[k] == db.customers[i];
        assert views[k] == View(db.customers[i]);
      }
    }
    WriteJson(200, "Customers fetched", Customers(views))
  }

  /** `CustomerFetchByID`: malformed id 400, then the ownership check 403 (before
      any lookup), then the scoped lookup 404. */
  function CustomerFetchById(env: Env, ctx: Ctx, id: string, db: Db): (r: Reply)
    ensures !env.isValidUuid(id) ==> r.code == 400
    ensures env.isValidUuid(id) && GetString(ctx, "role") != "admin" && GetString(ctx, "customer_id") != id
            ==> r.code == 403
    ensures env.isValidUuid(id) && (GetString(ctx, "role") == "admin" || GetString(ctx, "customer_id") == id)
            ==> (r.code == 404 <==> !LiveId(db.customers, id))
                && (r.code == 200 <==> LiveId(db.customers, id))
    ensures r.code == 200 ==> r.body.Envelope? && r.body.data.OneCustomer? && r.body.data.customer.id == id
                              && exists c :: c in db.customers && c.id == id && c.Live()
                                             && r.body.data.customer == View(c)
  {
    if !env.isValidUuid(id) then
      WriteError(400, "Invalid customer ID", Text("Invalid UUID format"))
    else if GetString(ctx, "role") != "admin" && GetString(ctx, "customer_id") != id then
      WriteError(403, "Forbidden", Text("Unauthorized access"))
    else
      match FetchCustomerById(db, id)
      case None => WriteError(404, "Customer not found", Text("No customer found with the given ID"))
      case Some(c) => WriteJson(200, "Customer fetched", OneCustomer(View(c)))
  }

  /** The single-column update `Update("name", ...)`: the name and the ORM's update time. */
  function Renamed(c: Customer, name: string, now: int): Customer
  {
    c.(fields := CustomerCols(name), updatedAt := now)
  }

  /** `CustomerUpdate`: non-admin 403, malformed id 400, empty name 400, missing 404. */
  function CustomerUpdate(env: Env, ctx: Ctx, id: string, body: Json, db: Db, now: int): (o: Outcome)
    ensures GetString(ctx, "role") != "admin" ==> o.reply.code == 403
    ensures GetString(ctx, "role") == "admin" && !env.isValidUuid(id) ==> o.reply.code == 400
    ensures GetString(ctx, "role") == "admin" && env.isValidUuid(id) && !NamedBody(body) ==> o.reply.code == 400
    ensures GetString(ctx, "role") == "admin" && env.isValidUuid(id) && NamedBody(body)
            ==> (o.reply.code == 404 <==> !LiveId(db.customers, id))
                && (o.reply.code == 200 <==> LiveId(db.customers, id))
    ensures o.reply.code != 200 ==> o.db == db
    ensures o.reply.code == 200 ==>
              |o.db.customers| == |db.customers|
              && forall i :: 0 <= i < |db.customers| ==>
                   o.db.customers[i] == if db.customers[i].id == id && db.customers[i].Live()
                                        then Renamed(db.customers[i], Member(body, "name"), now)
                                        else db.customers[i]
    ensures o.db.sites == db.sites && o.db.devices == db.devices && o.db.tokens == db.tokens
    ensures Valid(db) ==> Valid(o.db)
  {
    if GetString(ctx, "role") != "admin" then
      Outcome(WriteError(403, "Forbidden", Text("Unauthorized access")), db)
    else if !env.isValidUuid(id) then
      Outcome(WriteError(400, "Invalid customer ID", Text("Invalid UUID format")), db)
    else if !NamedBody(body) then
      Outcome(WriteError(400, "Invalid request body", Text("Name field is required")), db)
    else
      match FetchCustomerById(db, id)
      case None => Outcome(WriteError(404, "Customer not found", Text("No customer found with the given ID")), db)
      case Some(c) =>
        var name := Member(body, "name");
        var t := Modify(db.customers, Scoped, ById(c.id), (x: Customer) => Renamed(x, name, now));
        Outcome(WriteJson(200, "Customer updated", OneCustomer(CustomerView(c.id, name))), db.(customers := t))
  }

  /** `CustomerDelete`: non-admin 403, malformed id 400, otherwise 200 with no
      existence check; only a live row with that id is soft-deleted. */
  function CustomerDelete(env: Env, ctx: Ctx, id: string, db: Db, now: int): (o: Outcome)
    ensures GetString(ctx, "role") != "admin" ==> o.reply.code == 403 && o.db == db
    ensures GetString(ctx, "role") == "admin" && !env.isValidUuid(id) ==> o.reply.code == 400 && o.db == db
    ensures GetString(ctx, "role") == "admin" && env.isValidUuid(id) ==>
              o.reply.code == 200
              && |o.db.customers| == |db.customers|
              && forall i :: 0 <= i < |db.customers| ==>
                   o.db.customers[i] == if db.customers[i].id == id && db.customers[i].Live()
                                        then SoftDeleted(db.customers[i], now)
                                        else db.customers[i]
    ensures o.db.sites == db.sites && o.db.devices == db.devices && o.db.tokens == db.tokens
    ensures Valid(db) ==> Valid(o.db)
  {
    if GetString(ctx, "role") != "admin" then
      Outcome(WriteError(403, "Forbidden", Text("Unauthorized access")), db)
    else if !env.isValidUuid(id) then
      Outcome(WriteError(400, "Invalid customer ID", Text("Invalid UUID format")), db)
    else
      Outcome(WriteJson(200, "Customer deleted", NoData), db.(customers := SoftDeleteWhere(db.customers, ById(id), now)))
  }

  // ---------------------------------------------------------------------------
  // The create decision, branch by branch

  /** No customer of that name, live or deleted: a new live row with the newId id
      is inserted, nothing else changes, and that row is then the only one with the name. */
  lemma CreateInserts(body: Json, db: Db, now: int, newId: Uuid) returns (k: int)
    requires NamedBody(body)
    requires NoneSelected(db.customers, CustomerNamed(Member(body, "name")))
    requires !HasId(db.customers, newId)
    ensures var o := CustomerCreate(body, db, now, newId);
            && o.reply.code == 201 && o.reply.body.message == "Customer created"
            && o.reply.body.data == OneCustomer(CustomerView(newId, Member(body, "name")))
            && multiset(o.db.customers)
               == multiset(db.customers) + multiset{NewRow(newId, now, CustomerCols(Member(body, "name")))}
            && FirstUnscoped(o.db.customers, CustomerNamed(Member(body, "name")), k)
            && o.db.customers[k] == NewRow(newId, now, CustomerCols(Member(body, "name")))
            && forall j :: 0 <= j < |o.db.customers| && j != k ==> !CustomerNamed(Member(body, "name"))(o.db.customers[j])
  {
    k := InsertedIsOnlyMatch(db.customers, NewRow(newId, now, CustomerCols(Member(body, "name"))),
                             CustomerNamed(Member(body, "name")));
  }

  /** The first customer of that name is soft-deleted: it is restored in place,
      keeping its id and name, with the marker cleared and both times reset. */
  lemma CreateRestores(body: Json, db: Db, now: int, newId: Uuid, k: int)
    requires Valid(db) && NamedBody(body)
    requires FirstUnscoped(db.customers, CustomerNamed(Member(body, "name")), k)
    requires !db.customers[k].Live()
    ensures var o := CustomerCreate(body, db, now, newId);
            && o.reply.code == 200 && o.reply.body.message == "Customer restored"
            && o.reply.body.data == OneCustomer(CustomerView(db.customers[k].id, Member(body, "name")))
            && o.db.customers == db.customers[k := Restored(db.customers[k], now)]
  {
    var t := db.customers;
    var c := FetchCustomerByName(db, Member(body, "name"));
    var k' :| FirstUnscoped(t, CustomerNamed(Member(body, "name")), k') && c.value == t[k'];
    assert k' == k;
    var r := SaveRow(t, Restored(t[k], now));
    forall i | 0 <= i < |t|
      ensures r[i] == t[k := Restored(t[k], now)][i]
    {
      if i != k {
        OrderedIdsDistinct(t, i, k);
      }
    }
  }

  /** The first customer of that name is live: 400 and the store is unchanged. */
  lemma CreateRejectsLive(body: Json, db: Db, now: int, newId: Uuid, k: int)
    requires NamedBody(body)
    requires FirstUnscoped(db.customers, CustomerNamed(Member(body, "name")), k)
    requires db.customers[k].Live()
    ensures var o := CustomerCreate(body, db, now, newId);
            o.reply.code == 400 && o.reply.body.message == "Customer already exists" && o.db == db
  {
    var c := FetchCustomerByName(db, Member(body, "name"));
    var k' :| FirstUnscoped(db.customers, CustomerNamed(Member(body, "name")), k') && c.value == db.customers[k'];
    assert k' == k;
  }

  // ---------------------------------------------------------------------------
  // Lifecycle

  /** The natural key of a customer. */
  function NameOf(c: Customer): string
  {
    c.fields.name
  }

  /** Create never introduces a second row with a name, live or deleted: it
      inserts only when no row has the name, and a restore keeps the name. */
  lemma CreateKeepsNamesUnique(body: Json, db: Db, now: int, newId: Uuid)
    requires Valid(db) && KeysUnique(db.customers, NameOf)
    ensures KeysUnique(CustomerCreate(body, db, now, newId).db.customers, NameOf)
  {
    var o := CustomerCreate(body, db, now, newId);
    if NamedBody(body) {
      var name := Member(body, "name");
      var t := db.customers;
      match FetchCustomerByName(db, name)
      case None =>
        var row := NewRow(newId, now, CustomerCols(name));
        if !HasId(t, newId) {
          assert forall j :: 0 <= j < |t| ==> NameOf(t[j]) != NameOf(row) by {
            assert NoneSelected(t, CustomerNamed(name));
          }
          InsertKeepsKeysUnique(t, row, NameOf);
          assert o.db.customers == Insert(t, row);
        }
      case Some(c) =>
        if !c.Live() {
          var restored := Restored(c, now);
          var k :| FirstUnscoped(t, CustomerNamed(name), k) && c == t[k];
          forall i | 0 <= i < |t| && Hit(t[i], Unscoped, ById(restored.id))
            ensures NameOf(restored) == NameOf(t[i])
          {
            if i != k {
              OrderedIdsDistinct(t, i, k);
            }
          }
          ModifyKeepsKeysUnique(t, Unscoped, ById(restored.id), (x: Customer) => restored, NameOf);
          assert o.db.customers == Modify(t, Unscoped, ById(restored.id), (x: Customer) => restored);
        }
    }
  }

  /** Soft-deleting by id leaves no live row with that id. */
  lemma DeleteHidesCustomer(env: Env, ctx: Ctx, id: string, db: Db, now: int)
    requires GetString(ctx, "role") == "admin" && env.isValidUuid(id)
    ensures !LiveId(CustomerDelete(env, ctx, id, db, now).db.customers, id)
  {
    var t := CustomerDelete(env, ctx, id, db, now).db.customers;
    forall i | 0 <= i < |t| && t[i].id == id
      ensures !t[i].Live()
    {
    }
  }

  /** After a delete, the customer is not found by id, whoever asks. */
  lemma DeletedCustomerNotFound(env: Env, ctx: Ctx, id: string, db: Db, now: int, asker: Ctx)
    requires GetString(ctx, "role") == "admin" && env.isValidUuid(id)
    requires GetString(asker, "role") == "admin" || GetString(asker, "customer_id") == id
    ensures CustomerFetchById(env, asker, id, CustomerDelete(env, ctx, id, db, now).db).code == 404
  {
    DeleteHidesCustomer(env, ctx, id, db, now);
  }

  /** Creating a name that was just created or restored is rejected, and the store stays as it was. */
  lemma CreateTwiceRejected(body: Json, db: Db, now: int, newId: Uuid, now': int, newId': Uuid)
    requires Valid(db)
    requires CustomerCreate(body, db, now, newId).reply.code in {200, 201}
    ensures var o := CustomerCreate(body, db, now, newId);
            var o' := CustomerCreate(body, o.db, now', newId');
            o'.reply.code == 400 && o'.reply.body.message == "Customer already exists" && o'.db == o.db
  {
    var o := CustomerCreate(body, db, now, newId);
    var name := Member(body, "name");
    var t := db.customers;
    match FetchCustomerByName(db, name)
    case None =>
      var k := CreateInserts(body, db, now, newId);
      CreateRejectsLive(body, o.db, now', newId', k);
    case Some(c) =>
      var k :| FirstUnscoped(t, CustomerNamed(name), k) && c == t[k];
      CreateRestores(body, db, now, newId, k);
      CreateRejectsLive(body, o.db, now', newId', k);
  }

  /** Create, delete, create: the second create restores the very row the first one
      inserted, under its original id, rather than inserting another. */
  lemma DeleteThenCreateRestoresIdentity(env: Env, ctx: Ctx, body: Json, db: Db,
                                         now1: int, newId: Uuid, now2: int, now3: int, newId': Uuid)
    requires Valid(db) && NamedBody(body)
    requires NoneSelected(db.customers, CustomerNamed(Member(body, "name")))
    requires !HasId(db.customers, newId)
    requires GetString(ctx, "role") == "admin" && env.isValidUuid(newId)
    ensures var o1 := CustomerCreate(body, db, now1, newId);
            var o2 := CustomerDelete(env, ctx, newId, o1.db, now2);
            var o3 := CustomerCreate(body, o2.db, now3, newId');
            && o1.reply.code == 201 && o1.reply.body.data.customer.id == newId
            && o2.reply.code == 200
            && o3.reply.code == 200 && o3.reply.body.message == "Customer restored"
            && o3.reply.body.data == OneCustomer(CustomerView(newId, Member(body, "name")))
  {
    var name := Member(body, "name");
    var o1 := CustomerCreate(body, db, now1, newId);
    var k := CreateInserts(body, db, now1, newId);
    var o2 := CustomerDelete(env, ctx, newId, o1.db, now2);
    var t1 := o1.db.customers;
    var t2 := o2.db.customers;
    assert t2[k] == SoftDeleted(t1[k], now2);
    forall j | 0 <= j < k
      ensures !CustomerNamed(name)(t2[j])
    {
      assert t2[j].fields == t1[j].fields;
    }
    CreateRestores(body, o2.db, now3, newId', k);
  }
}
