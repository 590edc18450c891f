/** The device handlers: create-or-restore-or-reject by serial number under a
    customer's site, the three listings, fetch, overwrite and soft delete by
    serial number. Lookups by serial number are unscoped, so a soft-deleted
    device stays visible to fetch, update and delete. */
module Devices {
  import opened Base
  import opened Tables
  import opened Models
  import opened ServerUtils
  import opened Customers
  import opened Sites

  /** `FetchDeviceBySerialNumber`: unscoped, so soft-deleted devices are found too. */
  function FetchDeviceBySerial(db: Db, serial: string): (r: Option<Device>)
    ensures r.None? <==> NoneSelected(db.devices, DeviceWithSerial(serial))
    ensures r.Some? ==> exists k :: FirstUnscoped(db.devices, DeviceWithSerial(serial), k) && r.value == db.devices[k]
  {
    First(db.devices, Unscoped, DeviceWithSerial(serial))
  }

  /** The site, and that site's customer, that `Preload("Site.Customer")` attaches to a device. */
  datatype Attached = Attached(site: Site, customer: Customer)

  /** A preload under `scope`: a row the scope hides is left at its zero value,
      and a missing site leaves the customer at its zero value too. */
  function Preload(db: Db, d: Device, scope: Scope): (a: Attached)
    ensures VisibleId(db.sites, scope, d.fields.siteId) ==>
              a.site in db.sites && a.site.id == d.fields.siteId && Visible(a.site, scope)
    ensures !VisibleId(db.sites, scope, d.fields.siteId) ==> a == Attached(ZeroSite, ZeroCustomer)
    ensures VisibleId(db.sites, scope, d.fields.siteId) && VisibleId(db.customers, scope, a.site.fields.customerId) ==>
              a.customer in db.customers && a.customer.id == a.site.fields.customerId && Visible(a.customer, scope)
    ensures VisibleId(db.sites, scope, d.fields.siteId) && !VisibleId(db.customers, scope, a.site.fields.customerId) ==>
              a.customer == ZeroCustomer
  {
    match First(db.sites, scope, ById(d.fields.siteId))
    case None => Attached(ZeroSite, ZeroCustomer)
    case Some(s) =>
      match First(db.customers, scope, ById(s.fields.customerId))
      case None => Attached(s, ZeroCustomer)
      case Some(c) => Attached(s, c)
  }

  /** The response for a device, reporting the given customer and site. */
  function DeviceViewOf(d: Device, c: Customer, s: Site): DeviceView
  {
    DeviceView(d.id, c.id, c.fields.name, s.id, s.fields.name, d.fields.spec)
  }

  /** The eight device columns a request body binds; a member that is absent binds as "". */
  function SpecOf(body: Json): (spec: DeviceSpec)
    requires body.Object?
    ensures spec.deviceSerialNumber == Member(body, "device_serial_number")
    ensures spec.gateway == Member(body, "gateway") && spec.controller == Member(body, "controller")
    ensures spec.controllerSerialNumber == Member(body, "controller_serial_number")
    ensures spec.deviceType == Member(body, "device_type") && spec.deviceName == Member(body, "device_name")
    ensures spec.buildingUrl == Member(body, "building_url") && spec.authToken == Member(body, "auth_token")
  {
    DeviceSpec(
      Member(body, "gateway"), Member(body, "controller"), Member(body, "controller_serial_number"),
      Member(body, "device_type"), Member(body, "device_name"), Member(body, "device_serial_number"),
      Member(body, "building_url"), Member(body, "auth_token"))
  }

  /** A live site with that id belongs to that customer. */
  ghost predicate LiveSiteOf(db: Db, siteId: string, customerId: string)
  {
    exists i :: 0 <= i < |db.sites| && db.sites[i].id == siteId && db.sites[i].Live()
                && db.sites[i].fields.customerId == customerId
  }

  /** The second half of `DeviceCreate`, once the customer `c` and its site `s`
      are established: insert, restore or reject by serial number. A restore
      keeps the device's stored site; the response reports `c` and `s` either way. */
  function PlaceDevice(db: Db, c: Customer, s: Site, spec: DeviceSpec, now: int, newId: Uuid): (o: Outcome)
    ensures o.reply.code in {200, 400, 500}
    ensures o.reply.code != 200 ==> o.db == db
    ensures o.reply.code == 400 <==> exists k :: FirstUnscoped(db.devices, DeviceWithSerial(spec.deviceSerialNumber), k)
                                                && db.devices[k].Live()
    ensures o.reply.code == 200 ==>
              && o.reply.body.Envelope? && o.reply.body.data.OneDevice?
              && o.reply.body.data.device.customerId == c.id && o.reply.body.data.device.customerName == c.fields.name
              && o.reply.body.data.device.siteId == s.id && o.reply.body.data.device.siteName == s.fields.name
              && o.reply.body.data.device.spec.deviceSerialNumber == spec.deviceSerialNumber
    ensures o.db.customers == db.customers && o.db.sites == db.sites && o.db.tokens == db.tokens
    ensures Valid(db) ==> Valid(o.db)
  {
    match FetchDeviceBySerial(db, spec.deviceSerialNumber)
    case None =>
      var row := NewRow(newId, now, DeviceCols(s.id, spec));
      (match CreateRow(db.devices, row)
       case None => Outcome(WriteError(500, "Failed to create device", External), db)
       case Some(t) => Outcome(WriteJson(200, "Device created", OneDevice(DeviceViewOf(row, c, s))),
                               db.(devices := t)))
    case Some(d) =>
      if !d.Live() then
        var restored := Restored(d, now);
        Outcome(WriteJson(200, "Device restored", OneDevice(DeviceViewOf(restored, c, s))),
                db.(devices := SaveRow(db.devices, restored)))
      else
        Outcome(WriteError(400, "Device already exists", Text("A device with this serial number already exists")), db)
  }

  /** `DeviceCreate`: malformed body 400, malformed customer or site id 400,
      unknown customer or site 404, a site of another customer 403; then insert,
      restore or reject, decided by the unscoped lookup of the serial number. */
  function DeviceCreate(env: Env, customerId: string, siteId: string, body: Json, db: Db, now: int, newId: Uuid)
    : (o: Outcome)
    ensures body.Malformed? ==> o.reply.code == 400 && o.reply.body.message == "Invalid request body"
    ensures body.Object? && !env.isValidUuid(customerId) ==> o.reply.code == 400
    ensures body.Object? && env.isValidUuid(customerId) && !env.isValidUuid(siteId) ==> o.reply.code == 400
    ensures body.Object? && env.isValidUuid(customerId) && env.isValidUuid(siteId) && !LiveId(db.customers, customerId)
            ==> o.reply.code == 404
    ensures body.Object? && env.isValidUuid(customerId) && env.isValidUuid(siteId)
            && LiveId(db.customers, customerId) && !LiveId(db.sites, siteId)
            ==> o.reply.code == 404
    ensures o.reply.code in {200, 400, 403, 404, 500}
    ensures o.reply.code == 403 ==> exists i :: 0 <= i < |db.sites| && db.sites[i].id == siteId && db.sites[i].Live()
                                                && db.sites[i].fields.customerId != customerId
    ensures o.reply.code != 200 ==> o.db == db
    ensures o.reply.code == 200 ==>
              && LiveId(db.customers, customerId) && LiveSiteOf(db, siteId, customerId)
              && o.reply.body.Envelope? && o.reply.body.data.OneDevice?
              && o.reply.body.data.device.customerId == customerId && o.reply.body.data.device.siteId == siteId
              && o.reply.body.data.device.spec.deviceSerialNumber == Member(body, "device_serial_number")
    ensures o.db.customers == db.customers && o.db.sites == db.sites && o.db.tokens == db.tokens
    ensures Valid(db) ==> Valid(o.db)
  {
    if body.Malformed? then
      Outcome(WriteError(400, "Invalid request body", Text("Invalid JSON format")), db)
    else if !env.isValidUuid(customerId) then
      Outcome(WriteError(400, "Invalid customer ID", Text("Invalid UUID format")), db)
    else if !env.isValidUuid(siteId) then
      Outcome(WriteError(400, "Invalid site ID", Text("Invalid UUID format")), db)
    else
      match FetchCustomerById(db, customerId)
      case None => Outcome(WriteError(404, "Customer not found", Text("No customer found with the given ID")), db)
      case Some(c) =>
        match FetchSiteById(db, siteId)
        case None => Outcome(WriteError(404, "Site not found", Text("No site found with the given ID")), db)
        case Some(s) =>
          if s.fields.customerId != c.id then
            Outcome(WriteError(403, "Forbidden", Text("There is no site with the given ID for the given customer")), db)
          else
            PlaceDevice(db, c, s, SpecOf(body), now, newId)
  }

  /** One entry of `DeviceFetchAll`: the device with its scoped-preloaded site and
      that site's owner looked up by id; None when the owner is not a live customer. */
  function FullEntry(db: Db, d: Device): (r: Option<DeviceView>)
    ensures var s := Preload(db, d, Scoped).site;
            && (r.None? <==> !LiveId(db.customers, s.fields.customerId))
            && (r.Some? ==> && r.value.id == d.id && r.value.spec == d.fields.spec
                            && r.value.siteId == s.id && r.value.siteName == s.fields.name
                            && r.value.customerId == s.fields.customerId
                            && OwnerNamed(db, s.fields.customerId, r.value.customerName))
  {
    var s := Preload(db, d, Scoped).site;
    match FetchCustomerById(db, s.fields.customerId)
    case None => None
    case Some(c) => Some(DeviceViewOf(d, c, s))
  }

  function AnyDevice(d: Device): bool { true }

  function FullEntries(db: Db): Device -> Option<DeviceView>
  {
    d => FullEntry(db, d)
  }

  /** `DeviceFetchAll`: every live device with its site and owner, or 500 as soon
      as a device's scoped-preloaded site has no live owner. */
  function DeviceFetchAll(db: Db): (r: Reply)
    ensures r.code in {200, 500} && r.body.Envelope?
    ensures r.code == 500 <==> exists i :: 0 <= i < |db.devices| && db.devices[i].Live()
                                           && !LiveId(db.customers, Preload(db, db.devices[i], Scoped).site.fields.customerId)
    ensures r.code == 500 ==> r.body.message == "Failed to fetch customer" && r.body.error == Text(RecordNotFound)
    ensures r.code == 200 ==> r.body.data.Devices?
                              && ListsAll(db.devices, Scoped, AnyDevice, FullEntries(db), r.body.data.devices)
  {
    FullListingFails(db);
    match SelectAll(db.devices, Scoped, AnyDevice, FullEntries(db))
    case None => WriteError(500, "Failed to fetch customer", Text(RecordNotFound))
    case Some(views) => WriteJson(200, "Devices fetched", Devices(views))
  }

  lemma FullListingFails(db: Db)
    ensures SelectAll(db.devices, Scoped, AnyDevice, FullEntries(db)).None?
            <==> exists i :: 0 <= i < |db.devices| && db.devices[i].Live()
                             && !LiveId(db.customers, Preload(db, db.devices[i], Scoped).site.fields.customerId)
  {
    var f := FullEntries(db);
    if SelectAll(db.devices, Scoped, AnyDevice, f).None? {
      var i :| 0 <= i < |db.devices| && Hit(db.devices[i], Scoped, AnyDevice) && f(db.devices[i]).None?;
      EntryFails(db, db.devices[i]);
    } else {
      forall i | 0 <= i < |db.devices| && db.devices[i].Live()
        ensures LiveId(db.customers, Preload(db, db.devices[i], Scoped).site.fields.customerId)
      {
        assert Hit(db.devices[i], Scoped, AnyDevice);
        EntryFails(db, db.devices[i]);
      }
    }
  }

  lemma EntryFails(db: Db, d: Device)
    ensures FullEntries(db)(d).None? <==> !LiveId(db.customers, Preload(db, d, Scoped).site.fields.customerId)
  {
    assert FullEntries(db)(d) == FullEntry(db, d);
  }

  /** Some site row with that id, live or soft-deleted, belongs to that customer:
      the raw sub-select `site_id IN (SELECT id FROM sites WHERE customer_id = ?)`,
      which the soft-delete scope does not reach. */
  predicate OnSiteOf(sites: Table<SiteCols>, siteId: string, customerId: string)
  {
    exists i :: 0 <= i < |sites| && sites[i].id == siteId && sites[i].fields.customerId == customerId
  }

  /** One entry of a customer's device listing: the customer from the path and the scoped-preloaded site. */
  function CustomerEntry(db: Db, c: Customer, d: Device): (r: Option<DeviceView>)
    ensures r.Some? && r.value.id == d.id && r.value.spec == d.fields.spec
    ensures r.value.customerId == c.id && r.value.customerName == c.fields.name
    ensures r.value.siteId == Preload(db, d, Scoped).site.id
  {
    Some(DeviceViewOf(d, c, Preload(db, d, Scoped).site))
  }

  /** The devices query `site_id IN (SELECT id FROM sites WHERE customer_id = ?)`. */
  function OnCustomerSites(db: Db, customerId: string): Device -> bool
  {
    (d: Device) => OnSiteOf(db.sites, d.fields.siteId, customerId)
  }

  function CustomerEntries(db: Db, c: Customer): Device -> Option<DeviceView>
  {
    (d: Device) => CustomerEntry(db, c, d)
  }

  /** `DeviceFetchByCustomerID`: malformed id 400, unknown customer 404, the
      ownership check against `user_id` 403, then every live device on any site
      row of the customer. */
  function DeviceFetchByCustomerId(env: Env, ctx: Ctx, customerId: string, db: Db): (r: Reply)
    ensures !env.isValidUuid(customerId) ==> r.code == 400
    ensures env.isValidUuid(customerId) && !LiveId(db.customers, customerId) ==> r.code == 404
    ensures r.code in {200, 400, 403, 404}
    ensures r.code == 403 ==> GetString(ctx, "role") != "admin"
    ensures env.isValidUuid(customerId) && GetString(ctx, "role") == "admin"
            ==> (r.code == 200 <==> LiveId(db.customers, customerId))
    ensures r.code == 200 ==>
              && LiveId(db.customers, customerId)
              && (GetString(ctx, "role") == "admin" || GetString(ctx, "user_id") == customerId)
              && r.body.Envelope? && r.body.data.Devices?
              && exists c :: c in db.customers && c.id == customerId && c.Live()
                             && ListsAll(db.devices, Scoped, OnCustomerSites(db, customerId),
                                         CustomerEntries(db, c), r.body.data.devices)
  {
    if !env.isValidUuid(customerId) then
      WriteError(400, "Invalid customer ID", Text("Invalid UUID format"))
    else
      match FetchCustomerById(db, customerId)
      case None => WriteError(404, "Customer not found", Text("No customer found with the given ID"))
      case Some(c) =>
        if GetString(ctx, "role") != "admin" && c.id != GetString(ctx, "user_id") then
          WriteError(403, "Forbidden", Text("You are not authorized to access this customer's devices"))
        else
          var views := SelectAll(db.devices, Scoped, OnCustomerSites(db, c.id), CustomerEntries(db, c));
          WriteJson(200, "Devices fetched", Devices(views.value))
  }

  /** One entry of a site's device listing: the site from the path and its scoped-preloaded customer. */
  function SiteEntry(db: Db, s: Site, d: Device): (r: Option<DeviceView>)
    ensures r.Some? && r.value.id == d.id && r.value.spec == d.fields.spec
    ensures r.value.siteId == s.id && r.value.siteName == s.fields.name
    ensures r.value.customerId == Preload(db, d, Scoped).customer.id
  {
    Some(DeviceViewOf(d, Preload(db, d, Scoped).customer, s))
  }

  /** `DeviceFetchBySiteID`: malformed id 400, missing site 404, then every live
      device of the site. There is no ownership check. */
  function DeviceFetchBySiteId(env: Env, siteId: string, db: Db): (r: Reply)
    ensures !env.isValidUuid(siteId) ==> r.code == 400
    ensures env.isValidUuid(siteId) ==> (r.code == 404 <==> !LiveId(db.sites, siteId))
                                        && (r.code == 200 <==> LiveId(db.sites, siteId))
    ensures r.code == 200 ==>
              && r.body.Envelope? && r.body.data.Devices?
              && exists s :: s in db.sites && s.id == siteId && s.Live()
                             && ListsAll(db.devices, Scoped, DeviceAtSite(siteId), d => SiteEntry(db, s, d),
                                         r.body.data.devices)
  {
    if !env.isValidUuid(siteId) then
      WriteError(400, "Invalid site ID", Text("Invalid UUID format"))
    else
      match FetchSiteById(db, siteId)
      case None => WriteError(404, "Site not found", Text("No site found with the given ID"))
      case Some(s) =>
        var views := SelectAll(db.devices, Scoped, DeviceAtSite(s.id), d => SiteEntry(db, s, d));
        WriteJson(200, "Devices fetched", Devices(views.value))
  }

  /** The response for a device found by serial number: its unscoped-preloaded site and customer. */
  function SerialView(db: Db, d: Device): DeviceView
  {
    var a := Preload(db, d, Unscoped);
    DeviceViewOf(d, a.customer, a.site)
  }

  /** `DeviceFetchBySerialNumber`: 404 only when no device, live or deleted,
      has the serial number; the ownership check compares the preloaded
      customer's id with `user_id`. */
  function DeviceFetchBySerialNumber(ctx: Ctx, serial: string, db: Db): (r: Reply)
    ensures r.code in {200, 403, 404}
    ensures r.code == 404 <==> NoneSelected(db.devices, DeviceWithSerial(serial))
    ensures GetString(ctx, "role") == "admin" ==> (r.code == 200 <==> !NoneSelected(db.devices, DeviceWithSerial(serial)))
    ensures r.code == 200 ==>
              && r.body.Envelope? && r.body.data.OneDevice?
              && r.body.data.device.spec.deviceSerialNumber == serial
              && (GetString(ctx, "role") == "admin" || GetString(ctx, "user_id") == r.body.data.device.customerId)
              && exists k :: FirstUnscoped(db.devices, DeviceWithSerial(serial), k)
                             && r.body.data.device == SerialView(db, db.devices[k])
  {
    match FetchDeviceBySerial(db, serial)
    case None => WriteError(404, "Device not found", Text("No device found with the given serial number"))
    case Some(d) =>
      var v := SerialView(db, d);
      if GetString(ctx, "role") != "admin" && v.customerId != GetString(ctx, "user_id") then
        WriteError(403, "Forbidden", Text("You are not authorized to access this customer's devices"))
      else
        WriteJson(200, "Device fetched", OneDevice(v))
  }

  /** The overwrite `DeviceUpdate` saves: the eight columns from the body and the update time. */
  function Overwritten(d: Device, spec: DeviceSpec, now: int): Device
  {
    d.(fields := d.fields.(spec := spec), updatedAt := now)
  }

  /** `DeviceUpdate`: malformed body 400, unknown serial number 404; otherwise the
      first device with that serial number, live or deleted, gets the body's eight
      columns, keeping its id, site, creation time and delete marker. */
  function DeviceUpdate(body: Json, serial: string, db: Db, now: int): (o: Outcome)
    ensures body.Malformed? ==> o.reply.code == 400 && o.db == db
    ensures body.Object? ==> (o.reply.code == 404 <==> NoneSelected(db.devices, DeviceWithSerial(serial)))
                             && (o.reply.code == 200 <==> !NoneSelected(db.devices, DeviceWithSerial(serial)))
    ensures o.reply.code != 200 ==> o.db == db
    ensures o.reply.code == 200 ==>
              body.Object? && |o.db.devices| == |db.devices|
              && (exists k :: FirstUnscoped(db.devices, DeviceWithSerial(serial), k)
                              && o.db.devices == SaveRow(db.devices, Overwritten(db.devices[k], SpecOf(body), now)))
              && o.reply.body.Envelope? && o.reply.body.data.OneDevice? && o.reply.body.data.device.spec == SpecOf(body)
    ensures o.db.customers == db.customers && o.db.sites == db.sites && o.db.tokens == db.tokens
    ensures Valid(db) ==> Valid(o.db)
  {
    if body.Malformed? then
      Outcome(WriteError(400, "Invalid request body", Text("Invalid JSON format")), db)
    else
      match FetchDeviceBySerial(db, serial)
      case None => Outcome(WriteError(404, "Device not found", Text("No device found with the given serial number")), db)
      case Some(d) =>
        var updated := Overwritten(d, SpecOf(body), now);
        Outcome(WriteJson(200, "Device updated", OneDevice(SerialView(db, updated))),
                db.(devices := SaveRow(db.devices, updated)))
  }

  /** `DeviceDelete`: unknown serial number 404; otherwise 200, and the device
      found is soft-deleted if it is live (a deleted one keeps its marker). */
  function DeviceDelete(serial: string, db: Db, now: int): (o: Outcome)
    ensures (o.reply.code == 404 <==> NoneSelected(db.devices, DeviceWithSerial(serial)))
            && (o.reply.code == 200 <==> !NoneSelected(db.devices, DeviceWithSerial(serial)))
    ensures o.reply.code != 200 ==> o.db == db
    ensures o.reply.code == 200 ==>
              exists k :: FirstUnscoped(db.devices, DeviceWithSerial(serial), k)
                          && o.db.devices == SoftDeleteWhere(db.devices, ById(db.devices[k].id), now)
    ensures o.db.customers == db.customers && o.db.sites == db.sites && o.db.tokens == db.tokens
    ensures Valid(db) ==> Valid(o.db)
  {
    match FetchDeviceBySerial(db, serial)
    case None => Outcome(WriteError(404, "Device not found", Text("No device found with the given serial number")), db)
    case Some(d) =>
      Outcome(WriteJson(200, "Device deleted", NoData), db.(devices := SoftDeleteWhere(db.devices, ById(d.id), now)))
  }

  // ---------------------------------------------------------------------------
  // Properties

  /** The position of the first device with a serial number, live or deleted, is
      determined by the table: a table that differs from it only in delete markers
      has its first match at the same position. */
  lemma SameFirstSerial(t: Table<DeviceCols>, t': Table<DeviceCols>, serial: string, k: int)
    requires |t'| == |t| && forall i :: 0 <= i < |t| ==> t'[i].fields == t[i].fields
    requires FirstUnscoped(t, DeviceWithSerial(serial), k)
    ensures FirstUnscoped(t', DeviceWithSerial(serial), k)
  {
    forall j | 0 <= j < k
      ensures !DeviceWithSerial(serial)(t'[j])
    {
      assert !DeviceWithSerial(serial)(t[j]);
    }
  }

  /** Two first-match positions of one query coincide. */
  lemma FirstUnscopedUnique<T>(t: Table<T>, p: Row<T> -> bool, k: int, k': int)
    requires FirstUnscoped(t, p, k) && FirstUnscoped(t, p, k')
    ensures k == k'
  {
  }

  /** The serial-number lookup after a delete finds the same device, with the
      same id and columns. */
  lemma DeleteKeepsMatch(serial: string, db: Db, now: int)
    ensures var before := FetchDeviceBySerial(db, serial);
            var after := FetchDeviceBySerial(DeviceDelete(serial, db, now).db, serial);
            && after.Some? == before.Some?
            && (after.Some? ==> after.value.id == before.value.id && after.value.fields == before.value.fields)
  {
    var o := DeviceDelete(serial, db, now);
    var t := db.devices;
    var t' := o.db.devices;
    if !NoneSelected(t, DeviceWithSerial(serial)) {
      var k :| FirstUnscoped(t, DeviceWithSerial(serial), k)
               && t' == SoftDeleteWhere(t, ById(t[k].id), now);
      SameFirstSerial(t, t', serial, k);
      var d := FetchDeviceBySerial(db, serial).value;
      var d' := FetchDeviceBySerial(o.db, serial).value;
      var a :| FirstUnscoped(t, DeviceWithSerial(serial), a) && d == t[a];
      var b :| FirstUnscoped(t', DeviceWithSerial(serial), b) && d' == t'[b];
      FirstUnscopedUnique(t, DeviceWithSerial(serial), a, k);
      FirstUnscopedUnique(t', DeviceWithSerial(serial), b, k);
    }
  }

  /** A device's response by serial number depends only on its id and columns. */
  lemma SerialViewOfColumns(db: Db, d: Device, d': Device)
    requires d.id == d'.id && d.fields == d'.fields
    ensures SerialView(db, d) == SerialView(db, d')
  {
  }

  /** Deleting a device does not hide it: fetching it by serial number afterwards
      gives exactly the reply it gave before. */
  lemma DeletedDeviceStillFetched(ctx: Ctx, serial: string, db: Db, now: int)
    ensures DeviceFetchBySerialNumber(ctx, serial, DeviceDelete(serial, db, now).db)
            == DeviceFetchBySerialNumber(ctx, serial, db)
  {
    var db' := DeviceDelete(serial, db, now).db;
    DeleteKeepsMatch(serial, db, now);
    var before := FetchDeviceBySerial(db, serial);
    var after := FetchDeviceBySerial(db', serial);
    if after.Some? {
      SerialViewOfColumns(db, before.value, after.value);
      SerialReplyDetermined(ctx, serial, db, db', before.value, after.value);
    }
  }

  /** The reply by serial number is a function of the preloaded response alone. */
  lemma SerialReplyDetermined(ctx: Ctx, serial: string, db: Db, db': Db, d: Device, d': Device)
    requires FetchDeviceBySerial(db, serial) == Some(d) && FetchDeviceBySerial(db', serial) == Some(d')
    requires SerialView(db, d) == SerialView(db', d')
    ensures DeviceFetchBySerialNumber(ctx, serial, db') == DeviceFetchBySerialNumber(ctx, serial, db)
  {
  }

  /** After a delete the device the serial number selects is soft-deleted, and so
      is every row sharing its id. */
  lemma DeleteLeavesNoLiveCopy(serial: string, db: Db, now: int)
    requires Valid(db)
    ensures var db' := DeviceDelete(serial, db, now).db;
            var d := FetchDeviceBySerial(db', serial);
            d.Some? ==> forall i :: 0 <= i < |db'.devices| && db'.devices[i].id == d.value.id ==> !db'.devices[i].Live()
  {
    DeleteKeepsMatch(serial, db, now);
  }

  /** A second delete of the same serial number still answers 200 but changes nothing. */
  lemma DeleteIdempotent(serial: string, db: Db, now: int, now': int)
    requires Valid(db)
    ensures var o := DeviceDelete(serial, db, now);
            var o' := DeviceDelete(serial, o.db, now');
            o'.reply.code == o.reply.code && o'.db == o.db
  {
    var o := DeviceDelete(serial, db, now);
    DeleteKeepsMatch(serial, db, now);
    var d := FetchDeviceBySerial(o.db, serial);
    if d.Some? {
      DeleteLeavesNoLiveCopy(serial, db, now);
      SoftDeleteNothing(o.db.devices, ById(d.value.id), now');
    }
  }

  /** After an update that gives the device a serial number no other device has,
      an admin fetching that serial number gets the device back with the columns written. */
  lemma UpdateThenFetch(ctx: Ctx, body: Json, serial: string, db: Db, now: int, k: int)
    requires Valid(db) && body.Object? && GetString(ctx, "role") == "admin"
    requires FirstUnscoped(db.devices, DeviceWithSerial(serial), k)
    requires forall j :: 0 <= j < |db.devices| && j != k ==>
               db.devices[j].fields.spec.deviceSerialNumber != Member(body, "device_serial_number")
    ensures var o := DeviceUpdate(body, serial, db, now);
            var r := DeviceFetchBySerialNumber(ctx, Member(body, "device_serial_number"), o.db);
            && o.reply.code == 200
            && r.code == 200 && r.body.data.device.id == db.devices[k].id
            && r.body.data.device.spec == SpecOf(body)
  {
    var o := DeviceUpdate(body, serial, db, now);
    var t := db.devices;
    var k' :| FirstUnscoped(t, DeviceWithSerial(serial), k')
              && o.db.devices == SaveRow(t, Overwritten(t[k'], SpecOf(body), now));
    FirstUnscopedUnique(t, DeviceWithSerial(serial), k, k');
    var t' := o.db.devices;
    var serial' := Member(body, "device_serial_number");
    assert t'[k] == Overwritten(t[k], SpecOf(body), now);
    forall j | 0 <= j < |t'| && j != k
      ensures !DeviceWithSerial(serial')(t'[j])
    {
      OrderedIdsDistinct(t, j, k);
      assert t'[j] == t[j];
    }
    assert FirstUnscoped(t', DeviceWithSerial(serial'), k);
    var d := FetchDeviceBySerial(o.db, serial').value;
    var b :| FirstUnscoped(t', DeviceWithSerial(serial'), b) && d == t'[b];
    FirstUnscopedUnique(t', DeviceWithSerial(serial'), b, k);
  }

  /** No device has that serial number, live or deleted: a new live device on the
      path's site, holding the body's eight columns, is inserted, and it is then
      the only device with that serial number. */
  lemma PlaceDeviceInserts(db: Db, c: Customer, s: Site, spec: DeviceSpec, now: int, newId: Uuid) returns (k: int)
    requires NoneSelected(db.devices, DeviceWithSerial(spec.deviceSerialNumber))
    requires !HasId(db.devices, newId)
    ensures var o := PlaceDevice(db, c, s, spec, now, newId);
            var row := NewRow(newId, now, DeviceCols(s.id, spec));
            && o.reply.code == 200 && o.reply.body.message == "Device created"
            && o.reply.body.data.device == DeviceViewOf(row, c, s)
            && multiset(o.db.devices) == multiset(db.devices) + multiset{row}
            && FirstUnscoped(o.db.devices, DeviceWithSerial(spec.deviceSerialNumber), k) && o.db.devices[k] == row
            && forall j :: 0 <= j < |o.db.devices| && j != k ==> !DeviceWithSerial(spec.deviceSerialNumber)(o.db.devices[j])
  {
    k := InsertedIsOnlyMatch(db.devices, NewRow(newId, now, DeviceCols(s.id, spec)),
                             DeviceWithSerial(spec.deviceSerialNumber));
  }

  /** The customer and its site are live and the serial number is new: the device
      is created on the path's site with the body's columns. */
  lemma DeviceCreateInserts(env: Env, customerId: string, siteId: string, body: Json, db: Db, now: int, newId: Uuid)
    returns (k: int)
    requires Valid(db) && body.Object? && env.isValidUuid(customerId) && env.isValidUuid(siteId)
    requires LiveId(db.customers, customerId) && LiveSiteOf(db, siteId, customerId)
    requires NoneSelected(db.devices, DeviceWithSerial(Member(body, "device_serial_number")))
    requires !HasId(db.devices, newId)
    ensures var o := DeviceCreate(env, customerId, siteId, body, db, now, newId);
            var row := NewRow(newId, now, DeviceCols(siteId, SpecOf(body)));
            && o.reply.code == 200 && o.reply.body.message == "Device created"
            && o.reply.body.data.device.id == newId && o.reply.body.data.device.spec == SpecOf(body)
            && o.reply.body.data.device.customerId == customerId && o.reply.body.data.device.siteId == siteId
            && multiset(o.db.devices) == multiset(db.devices) + multiset{row}
            && FirstUnscoped(o.db.devices, DeviceWithSerial(Member(body, "device_serial_number")), k)
            && o.db.devices[k] == row
  {
    var c := FetchCustomerById(db, customerId).value;
    var s := FetchSiteById(db, siteId).value;
    var i :| 0 <= i < |db.sites| && db.sites[i].id == siteId && db.sites[i].Live()
             && db.sites[i].fields.customerId == customerId;
    var m :| 0 <= m < |db.sites| && db.sites[m] == s;
    if m != i {
      OrderedIdsDistinct(db.sites, m, i);
    }
    assert s.fields.customerId == c.id;
    k := PlaceDeviceInserts(db, c, s, SpecOf(body), now, newId);
  }

  /** A live site with that id that belongs to another customer: 403 and the store is unchanged. */
  lemma DeviceCreateRefusesForeignSite(env: Env, customerId: string, siteId: string, body: Json, db: Db,
                                       now: int, newId: Uuid, i: int)
    requires Valid(db) && body.Object? && env.isValidUuid(customerId) && env.isValidUuid(siteId)
    requires LiveId(db.customers, customerId)
    requires 0 <= i < |db.sites| && db.sites[i].id == siteId && db.sites[i].Live()
    requires db.sites[i].fields.customerId != customerId
    ensures var o := DeviceCreate(env, customerId, siteId, body, db, now, newId);
            o.reply.code == 403 && o.db == db
  {
    var s := FetchSiteById(db, siteId).value;
    var m :| 0 <= m < |db.sites| && db.sites[m] == s;
    if m != i {
      OrderedIdsDistinct(db.sites, m, i);
    }
  }

  /** Restoring a soft-deleted device through another site's path does not move
      it: the stored site is kept while the response reports the path's site. */
  lemma RestoreKeepsSite(db: Db, c: Customer, s: Site, spec: DeviceSpec, now: int, newId: Uuid, k: int)
    requires Valid(db)
    requires FirstUnscoped(db.devices, DeviceWithSerial(spec.deviceSerialNumber), k) && !db.devices[k].Live()
    ensures var o := PlaceDevice(db, c, s, spec, now, newId);
            && o.reply.code == 200 && o.reply.body.message == "Device restored"
            && o.reply.body.data.device.id == db.devices[k].id && o.reply.body.data.device.siteId == s.id
            && o.reply.body.data.device.spec == db.devices[k].fields.spec
            && o.db.devices == db.devices[k := Restored(db.devices[k], now)]
            && o.db.devices[k].fields == db.devices[k].fields
  {
    var t := db.devices;
    var d := FetchDeviceBySerial(db, spec.deviceSerialNumber).value;
    var a :| FirstUnscoped(t, DeviceWithSerial(spec.deviceSerialNumber), a) && d == t[a];
    FirstUnscopedUnique(t, DeviceWithSerial(spec.deviceSerialNumber), a, k);
    var r := SaveRow(t, Restored(t[k], now));
    forall i | 0 <= i < |t|
      ensures r[i] == t[k := Restored(t[k], now)][i]
    {
      if i != k {
        OrderedIdsDistinct(t, i, k);
      }
    }
  }

  /** Deleting a site that still has live devices breaks the full device listing:
      the scoped preload no longer finds the site, and the nil owner id it leaves
      behind names no live customer. */
  lemma SiteDeleteBreaksDeviceListing(env: Env, siteId: string, db: Db, now: int, i: int)
    requires env.isValidUuid(siteId) && LiveId(db.sites, siteId)
    requires 0 <= i < |db.devices| && db.devices[i].Live() && db.devices[i].fields.siteId == siteId
    requires !LiveId(db.customers, NilUuid)
    ensures var o := SiteDelete(env, siteId, db, now);
            o.reply.code == 200 && DeviceFetchAll(o.db).code == 500
  {
    var o := SiteDelete(env, siteId, db, now);
    assert !VisibleId(o.db.sites, Scoped, siteId) by {
      forall j | 0 <= j < |o.db.sites| && o.db.sites[j].id == siteId
        ensures !o.db.sites[j].Live()
      {
      }
    }
    assert Preload(o.db, o.db.devices[i], Scoped).site == ZeroSite;
  }

  /** A customer's device listing still includes a live device whose site was
      soft-deleted, reporting the nil site id the scoped preload leaves behind. */
  lemma CustomerListingKeepsOrphans(env: Env, ctx: Ctx, customerId: string, db: Db, i: int)
    requires GetString(ctx, "role") == "admin" && env.isValidUuid(customerId) && LiveId(db.customers, customerId)
    requires 0 <= i < |db.devices| && db.devices[i].Live()
    requires OnSiteOf(db.sites, db.devices[i].fields.siteId, customerId)
    requires !LiveId(db.sites, db.devices[i].fields.siteId)
    ensures var r := DeviceFetchByCustomerId(env, ctx, customerId, db);
            r.code == 200
            && exists j :: 0 <= j < |r.body.data.devices| && r.body.data.devices[j].id == db.devices[i].id
                           && r.body.data.devices[j].siteId == NilUuid
  {
    var r := DeviceFetchByCustomerId(env, ctx, customerId, db);
    var views := r.body.data.devices;
    var c :| c in db.customers && c.id == customerId && c.Live()
             && ListsAll(db.devices, Scoped, OnCustomerSites(db, customerId), CustomerEntries(db, c), views);
    assert Hit(db.devices[i], Scoped, OnCustomerSites(db, customerId));
    var j := EntryOf(db.devices, Scoped, OnCustomerSites(db, customerId), CustomerEntries(db, c), views, i);
    assert CustomerEntry(db, c, db.devices[i]) == Some(views[j]);
    OrphanHasNilSite(db, c, db.devices[i]);
  }

  /** A device whose site is soft-deleted is listed with the nil site id. */
  lemma OrphanHasNilSite(db: Db, c: Customer, d: Device)
    requires !LiveId(db.sites, d.fields.siteId)
    ensures CustomerEntry(db, c, d).value.siteId == NilUuid
  {
    assert !VisibleId(db.sites, Scoped, d.fields.siteId);
  }

  /** The middleware never binds `user_id` and a preloaded customer id is never
      empty, so only an admin gets a device by serial number or a customer's devices. */
  lemma OnlyAdminSeesDevices(env: Env, ctx: Ctx, serial: string, customerId: string, db: Db)
    requires "user_id" !in ctx && GetString(ctx, "role") != "admin"
    ensures DeviceFetchBySerialNumber(ctx, serial, db).code != 200
    ensures DeviceFetchByCustomerId(env, ctx, customerId, db).code != 200
  {
  }
}
