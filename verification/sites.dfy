/** The site handlers: create-or-restore-or-reject by name under a customer,
    the listings, fetch by id, rename and soft delete. */
module Sites {
  import opened Base
  import opened Tables
  import opened Models
  import opened ServerUtils
  import opened Customers

  /** `FetchSiteByID`: scoped, so a soft-deleted site is not found. */
  function FetchSiteById(db: Db, id: string): (r: Option<Site>)
    ensures r.Some? ==> r.value in db.sites && r.value.id == id && r.value.Live()
    ensures r.None? <==> !LiveId(db.sites, id)
  {
    First(db.sites, Scoped, ById(id))
  }

  /** `FetchSiteByName`: unscoped, so soft-deleted sites are found too. */
  function FetchSiteByName(db: Db, name: string): (r: Option<Site>)
    ensures r.None? <==> NoneSelected(db.sites, SiteNamed(name))
    ensures r.Some? ==> exists k :: FirstUnscoped(db.sites, SiteNamed(name), k) && r.value == db.sites[k]
  {
    First(db.sites, Unscoped, SiteNamed(name))
  }

  /** A site reported together with the customer the handler looked up for it. */
  function SiteViewOf(s: Site, c: Customer): SiteView
  {
    SiteView(s.id, s.fields.name, c.id, c.fields.name)
  }

  /** The customer a scoped `Preload("Customer")` attaches: the zero customer
      (nil id, empty name) when the owner is soft-deleted or missing. */
  function PreloadedOwner(db: Db, s: Site): (c: Customer)
    ensures LiveId(db.customers, s.fields.customerId) ==> c.id == s.fields.customerId && c in db.customers
    ensures !LiveId(db.customers, s.fields.customerId) ==> c.id == NilUuid && c.fields.name == ""
  {
    match FetchCustomerById(db, s.fields.customerId)
    case Some(c) => c
    case None => ZeroCustomer
  }

  /** `SiteCreate`: malformed customer id 400, empty name 400, unknown customer
      404; then insert, restore or reject, decided by the unscoped lookup of the name. */
  function SiteCreate(env: Env, customerId: string, body: Json, db: Db, now: int, newId: Uuid): (o: Outcome)
    ensures !env.isValidUuid(customerId) ==> o.reply.code == 400 && o.reply.body.message == "Invalid customer ID"
    ensures env.isValidUuid(customerId) && !NamedBody(body)
            ==> o.reply.code == 400 && o.reply.body.message == "Invalid request body"
    ensures env.isValidUuid(customerId) && NamedBody(body) && !LiveId(db.customers, customerId)
            ==> o.reply.code == 404
    ensures o.reply.code in {200, 400, 404, 500}
    ensures o.reply.code != 200 ==> o.db == db
    ensures o.reply.code == 200 ==> (LiveId(db.customers, customerId)
                                    && o.reply.body.Envelope? && o.reply.body.data.OneSite?
                                    && o.reply.body.data.site.customerId == customerId)
    ensures o.db.customers == db.customers && o.db.devices == db.devices && o.db.tokens == db.tokens
    ensures Valid(db) ==> Valid(o.db)
  {
    if !env.isValidUuid(customerId) then
      Outcome(WriteError(400, "Invalid customer ID", Text("Invalid UUID format")), db)
    else if !NamedBody(body) then
      Outcome(WriteError(400, "Invalid request body", Text("Name field is required")), db)
    else
      match FetchCustomerById(db, customerId)
      case None => Outcome(WriteError(404, "Customer not found", Text("No customer found with the given ID")), db)
      case Some(c) =>
        var name := Member(body, "name");
        match FetchSiteByName(db, name)
        case None =>
          (match CreateRow(db.sites, NewRow(newId, now, SiteCols(name, c.id)))
           case None => Outcome(WriteError(500, "Failed to create site", External), db)
           case Some(t) =>
             Outcome(WriteJson(200, "Site created", OneSite(SiteViewOf(NewRow(newId, now, SiteCols(name, c.id)), c))),
                     db.(sites := t)))
        case Some(s) =>
          if !s.Live() then
            var restored := Restored(s, now);
            Outcome(WriteJson(200, "Site restored", OneSite(SiteViewOf(restored, c))),
                    db.(sites := SaveRow(db.sites, restored)))
          else
            Outcome(WriteError(400, "Site already exists", Text("A site with this name already exists")), db)
  }

  /** `v` reports site `s` under the owner id the site stores. */
  predicate ListedAs(v: SiteView, s: Site)
  {
    v.id == s.id && v.name == s.fields.name && v.customerId == s.fields.customerId
  }

  /** `v` reports one of the live sites. */
  ghost predicate ListsLiveSite(db: Db, v: SiteView)
  {
    exists i :: 0 <= i < |db.sites| && db.sites[i].Live() && ListedAs(v, db.sites[i])
  }

  /** A live customer with that id has that name. */
  ghost predicate OwnerNamed(db: Db, customerId: string, name: string)
  {
    exists k :: 0 <= k < |db.customers| && db.customers[k].Live()
                && db.customers[k].id == customerId && db.customers[k].fields.name == name
  }

  /** The response rows of `SiteFetchAll`, built site by site; the first site
      whose owner is not a live customer aborts the listing. */
  function SiteListing(db: Db, sites: seq<Site>): (r: Option<seq<SiteView>>)
    ensures r.None? <==> exists i :: 0 <= i < |sites| && !LiveId(db.customers, sites[i].fields.customerId)
    ensures r.Some? ==> |r.value| == |sites|
    ensures r.Some? ==> forall i :: 0 <= i < |sites| ==>
              ListedAs(r.value[i], sites[i]) && OwnerNamed(db, sites[i].fields.customerId, r.value[i].customerName)
    decreases |sites|
  {
    if |sites| == 0 then Some([])
    else
      match FetchCustomerById(db, sites[0].fields.customerId)
      case None => None
      case Some(c) =>
        match SiteListing(db, sites[1..])
        case None => None
        case Some(rest) =>
          assert forall i :: 1 <= i < |sites| ==> sites[1..][i - 1] == sites[i];
          Some([SiteViewOf(sites[0], c)] + rest)
  }

  /** The query with no condition. */
  function AnySite(s: Site): bool { true }

  /** The listing of every live site; None when an owner is not a live customer.
      Otherwise there is one view per live site, in the order `Find` returns them,
      each carrying the name of the site's live owner. */
  function AllSiteViews(db: Db): (r: Option<seq<SiteView>>)
    ensures r.None? <==> exists i :: 0 <= i < |db.sites| && db.sites[i].Live()
                                     && !LiveId(db.customers, db.sites[i].fields.customerId)
    ensures r.Some? ==> var live := FindAll(db.sites, Scoped, AnySite);
              && |r.value| == |live|
              && forall j :: 0 <= j < |live| ==>
                   ListedAs(r.value[j], live[j]) && OwnerNamed(db, live[j].fields.customerId, r.value[j].customerName)
    ensures r.Some? ==> forall j :: 0 <= j < |r.value| ==>
              ListsLiveSite(db, r.value[j]) && OwnerNamed(db, r.value[j].customerId, r.value[j].customerName)
    ensures r.Some? ==> forall i :: 0 <= i < |db.sites| && db.sites[i].Live() ==>
              exists j :: 0 <= j < |r.value| && r.value[j].id == db.sites[i].id
  {
    var live := FindAll(db.sites, Scoped, AnySite);
    ListingFailsOnOrphan(db, live);
    ListingSound(db, live);
    ListingComplete(db, live);
    SiteListing(db, live)
  }

  lemma ListingFailsOnOrphan(db: Db, live: seq<Site>)
    requires live == FindAll(db.sites, Scoped, AnySite)
    ensures SiteListing(db, live).None? <==> exists i :: 0 <= i < |db.sites| && db.sites[i].Live()
                                                       && !LiveId(db.customers, db.sites[i].fields.customerId)
  {
    if SiteListing(db, live).None? {
      var j :| 0 <= j < |live| && !LiveId(db.customers, live[j].fields.customerId);
      var i :| 0 <= i < |db.sites| && db.sites[i] == live[j];
    } else {
      forall i | 0 <= i < |db.sites| && db.sites[i].Live()
        ensures LiveId(db.customers, db.sites[i].fields.customerId)
      {
        assert Hit(db.sites[i], Scoped, AnySite);
        var k :| 0 <= k < |live| && live[k] == db.sites[i];
      }
    }
  }

  lemma ListingSound(db: Db, live: seq<Site>)
    requires live == FindAll(db.sites, Scoped, AnySite)
    ensures var r := SiteListing(db, live);
            r.Some? ==> forall j :: 0 <= j < |r.value| ==>
              ListsLiveSite(db, r.value[j]) && OwnerNamed(db, r.value[j].customerId, r.value[j].customerName)
  {
    var r := SiteListing(db, live);
    if r.Some? {
      forall j | 0 <= j < |r.value|
        ensures ListsLiveSite(db, r.value[j]) && OwnerNamed(db, r.value[j].customerId, r.value[j].customerName)
      {
        assert live[j] in db.sites;
        var i :| 0 <= i < |db.sites| && db.sites[i] == live[j];
        assert ListedAs(r.value[j], live[j]);
      }
    }
  }

  lemma ListingComplete(db: Db, live: seq<Site>)
    requires live == FindAll(db.sites, Scoped, AnySite)
    ensures var r := SiteListing(db, live);
            r.Some? ==> forall i :: 0 <= i < |db.sites| && db.sites[i].Live() ==>
              exists j :: 0 <= j < |r.value| && r.value[j].id == db.sites[i].id
  {
    var r := SiteListing(db, live);
    if r.Some? {
      forall i | 0 <= i < |db.sites| && db.sites[i].Live()
        ensures exists j :: 0 <= j < |r.value| && r.value[j].id == db.sites[i].id
      {
        assert Hit(db.sites[i], Scoped, AnySite);
        var k :| 0 <= k < |live| && live[k] == db.sites[i];
        assert r.value[k].id == db.sites[i].id;
      }
    }
  }

  /** `SiteFetchAll`: one view per live site with its owner's name, or 500 when an
      owner is not a live customer. */
  function SiteFetchAll(db: Db): (r: Reply)
    ensures r.code in {200, 500} && r.body.Envelope?
    ensures r.code == 500 <==> exists i :: 0 <= i < |db.sites| && db.sites[i].Live()
                                           && !LiveId(db.customers, db.sites[i].fields.customerId)
    ensures r.code == 500 ==> r.body.message == "Failed to fetch customer" && r.body.error == Text(RecordNotFound)
    ensures r.code == 200 ==> r.body.data.Sites? && Some(r.body.data.sites) == AllSiteViews(db)
  {
    match AllSiteViews(db)
    case None => WriteError(500, "Failed to fetch customer", Text(RecordNotFound))
    case Some(views) => WriteJson(200, "Sites fetched", Sites(views))
  }

  /** `SiteFetchByID`: malformed id 400, missing site 404, missing owner 404,
      then the ownership check, which compares the owner's id with the context
      key `user_id`. */
  function SiteFetchById(env: Env, ctx: Ctx, id: string, db: Db): (r: Reply)
    ensures !env.isValidUuid(id) ==> r.code == 400
    ensures env.isValidUuid(id) && !LiveId(db.sites, id) ==> r.code == 404 && r.body.message == "Site not found"
    ensures r.code in {200, 400, 403, 404}
    ensures r.code == 403 ==> GetString(ctx, "role") != "admin"
    ensures r.code == 200 ==> LiveId(db.sites, id) && r.body.Envelope? && r.body.data.OneSite?
                              && r.body.data.site.id == id
                              && LiveId(db.customers, r.body.data.site.customerId)
                              && (GetString(ctx, "role") == "admin"
                                  || GetString(ctx, "user_id") == r.body.data.site.customerId)
  {
    if !env.isValidUuid(id) then
      WriteError(400, "Invalid site ID", Text("Invalid UUID format"))
    else
      match FetchSiteById(db, id)
      case None => WriteError(404, "Site not found", Text("No site found with the given ID"))
      case Some(s) =>
        match FetchCustomerById(db, s.fields.customerId)
        case None => WriteError(404, "Customer not found", Text("No customer found with the given ID"))
        case Some(c) =>
          if GetString(ctx, "role") != "admin" && GetString(ctx, "user_id") != c.id then
            WriteError(403, "Forbidden", Text("You are not authorized to access this site"))
          else
            WriteJson(200, "Site fetched", OneSite(SiteViewOf(s, c)))
  }

  /** The live sites of customer `c`, each reported with `c`'s name. */
  function OwnedSiteViews(db: Db, c: Customer): (views: seq<SiteView>)
    ensures forall j :: 0 <= j < |views| ==>
              views[j].customerId == c.id && views[j].customerName == c.fields.name
              && ListsLiveSite(db, views[j])
    ensures forall i :: 0 <= i < |db.sites| && db.sites[i].Live() && db.sites[i].fields.customerId == c.id ==>
              exists j :: 0 <= j < |views| && views[j].id == db.sites[i].id
  {
    var owned := FindAll(db.sites, Scoped, SiteOwnedBy(c.id));
    var views := seq(|owned|, i requires 0 <= i < |owned| => SiteViewOf(owned[i], c));
    OwnedViewsSound(db, c, owned, views);
    OwnedViewsComplete(db, c, owned, views);
    views
  }

  lemma OwnedViewsSound(db: Db, c: Customer, owned: seq<Site>, views: seq<SiteView>)
    requires owned == FindAll(db.sites, Scoped, SiteOwnedBy(c.id))
    requires |views| == |owned| && forall j :: 0 <= j < |owned| ==> views[j] == SiteViewOf(owned[j], c)
    ensures forall j :: 0 <= j < |views| ==>
              ListsLiveSite(db, views[j])
  {
    forall j | 0 <= j < |views|
      ensures ListsLiveSite(db, views[j])
    {
      var i := OwnedViewSource(db, c, owned, views, j);
      assert 0 <= i < |db.sites| && db.sites[i].Live() && ListedAs(views[j], db.sites[i]);
    }
  }

  lemma OwnedViewSource(db: Db, c: Customer, owned: seq<Site>, views: seq<SiteView>, j: int) returns (i: int)
    requires owned == FindAll(db.sites, Scoped, SiteOwnedBy(c.id))
    requires |views| == |owned| && forall j :: 0 <= j < |owned| ==> views[j] == SiteViewOf(owned[j], c)
    requires 0 <= j < |views|
    ensures 0 <= i < |db.sites| && db.sites[i].Live() && ListedAs(views[j], db.sites[i])
  {
    assert owned[j] in db.sites && Hit(owned[j], Scoped, SiteOwnedBy(c.id));
    assert owned[j].fields.customerId == c.id;
    i :| 0 <= i < |db.sites| && db.sites[i] == owned[j];
  }

  lemma OwnedViewsComplete(db: Db, c: Customer, owned: seq<Site>, views: seq<SiteView>)
    requires owned == FindAll(db.sites, Scoped, SiteOwnedBy(c.id))
    requires |views| == |owned| && forall j :: 0 <= j < |owned| ==> views[j] == SiteViewOf(owned[j], c)
    ensures forall i :: 0 <= i < |db.sites| && db.sites[i].Live() && db.sites[i].fields.customerId == c.id ==>
              exists j :: 0 <= j < |views| && views[j].id == db.sites[i].id
  {
    forall i | 0 <= i < |db.sites| && db.sites[i].Live() && db.sites[i].fields.customerId == c.id
      ensures exists j :: 0 <= j < |views| && views[j].id == db.sites[i].id
    {
      assert Hit(db.sites[i], Scoped, SiteOwnedBy(c.id));
      var k :| 0 <= k < |owned| && owned[k] == db.sites[i];
      assert views[k].id == db.sites[i].id;
    }
  }

  /** `SiteFetchByCustomerID`: malformed id 400, unknown customer 404, the
      ownership check against `user_id` 403, then the customer's live sites. */
  function SiteFetchByCustomerId(env: Env, ctx: Ctx, customerId: string, db: Db): (r: Reply)
    ensures !env.isValidUuid(customerId) ==> r.code == 400
    ensures env.isValidUuid(customerId) && !LiveId(db.customers, customerId) ==> r.code == 404
    ensures r.code in {200, 400, 403, 404}
    ensures r.code == 403 ==> GetString(ctx, "role") != "admin"
    ensures env.isValidUuid(customerId) && GetString(ctx, "role") == "admin"
            ==> (r.code == 200 <==> LiveId(db.customers, customerId))
    ensures r.code == 200 ==> LiveId(db.customers, customerId)
                              && (GetString(ctx, "role") == "admin" || GetString(ctx, "user_id") == customerId)
                              && r.body.Envelope? && r.body.data.Sites?
                              && exists c :: c in db.customers && c.id == customerId && c.Live()
                                             && r.body.data.sites == OwnedSiteViews(db, c)
  {
    if !env.isValidUuid(customerId) then
      WriteError(400, "Invalid customer ID", Text("Invalid UUID format"))
    else
      match FetchCustomerById(db, customerId)
      case None => WriteError(404, "Customer not found", Text("No customer found with the given ID"))
      case Some(c) =>
        if GetString(ctx, "role") != "admin" && GetString(ctx, "user_id") != c.id then
          WriteError(403, "Forbidden", Text("You are not authorized to access this customer's sites"))
        else
          WriteJson(200, "Sites fetched", Sites(OwnedSiteViews(db, c)))
  }

  /** `Select("Name").Updates(...)`: the name and the ORM's update time. */
  function SiteRenamed(s: Site, name: string, now: int): Site
  {
    s.(fields := s.fields.(name := name), updatedAt := now)
  }

  /** `SiteUpdate`: malformed id 400, empty name 400, missing or deleted site 404;
      otherwise only the name (and update time) of that site changes. */
  function SiteUpdate(env: Env, id: string, body: Json, db: Db, now: int): (o: Outcome)
    ensures !env.isValidUuid(id) ==> o.reply.code == 400
    ensures env.isValidUuid(id) && !NamedBody(body) ==> o.reply.code == 400
    ensures env.isValidUuid(id) && NamedBody(body) ==> (o.reply.code == 404 <==> !LiveId(db.sites, id))
                                                       && (o.reply.code == 200 <==> LiveId(db.sites, id))
    ensures o.reply.code != 200 ==> o.db == db
    ensures o.reply.code == 200 ==>
              |o.db.sites| == |db.sites|
              && (forall i :: 0 <= i < |db.sites| ==>
                   o.db.sites[i] == if db.sites[i].id == id && db.sites[i].Live()
                                    then SiteRenamed(db.sites[i], Member(body, "name"), now)
                                    else db.sites[i])
              && o.reply.body.Envelope? && o.reply.body.data.OneSite?
              && o.reply.body.data.site.id == id && o.reply.body.data.site.name == Member(body, "name")
    ensures o.db.customers == db.customers && o.db.devices == db.devices && o.db.tokens == db.tokens
    ensures Valid(db) ==> Valid(o.db)
  {
    if !env.isValidUuid(id) then
      Outcome(WriteError(400, "Invalid site ID", Text("Invalid UUID format")), db)
    else if !NamedBody(body) then
      Outcome(WriteError(400, "Invalid request body", Text("Name field is required")), db)
    else
      match FetchSiteById(db, id)
      case None => Outcome(WriteError(404, "Site not found", Text("No site found with the given ID")), db)
      case Some(s) =>
        var name := Member(body, "name");
        var owner := PreloadedOwner(db, s);
        var t := Modify(db.sites, Scoped, ById(s.id), (x: Site) => SiteRenamed(x, name, now));
        ModifyOrdered(db.sites, Scoped, ById(s.id), (x: Site) => SiteRenamed(x, name, now));
        Outcome(WriteJson(200, "Site updated", OneSite(SiteView(s.id, name, owner.id, owner.fields.name))),
                db.(sites := t))
  }

  /** `SiteDelete`: malformed id 400, missing or deleted site 404; otherwise the
      site is soft-deleted. */
  function SiteDelete(env: Env, id: string, db: Db, now: int): (o: Outcome)
    ensures !env.isValidUuid(id) ==> o.reply.code == 400 && o.db == db
    ensures env.isValidUuid(id) ==> (o.reply.code == 404 <==> !LiveId(db.sites, id))
                                    && (o.reply.code == 200 <==> LiveId(db.sites, id))
    ensures o.reply.code != 200 ==> o.db == db
    ensures o.reply.code == 200 ==>
              |o.db.sites| == |db.sites|
              && forall i :: 0 <= i < |db.sites| ==>
                   o.db.sites[i] == if db.sites[i].id == id && db.sites[i].Live()
                                    then SoftDeleted(db.sites[i], now)
                                    else db.sites[i]
    ensures o.db.customers == db.customers && o.db.devices == db.devices && o.db.tokens == db.tokens
    ensures Valid(db) ==> Valid(o.db)
  {
    if !env.isValidUuid(id) then
      Outcome(WriteError(400, "Invalid site ID", Text("Invalid UUID format")), db)
    else
      match FetchSiteById(db, id)
      case None => Outcome(WriteError(404, "Site not found", Text("No site found with the given ID")), db)
      case Some(s) =>
        Outcome(WriteJson(200, "Site deleted", NoData), db.(sites := SoftDeleteWhere(db.sites, ById(s.id), now)))
  }

  // ---------------------------------------------------------------------------
  // Properties

  /** The middleware never binds `user_id`, so the ownership checks compare the
      owner's 36-character id with the empty string: only an admin gets a site. */
  lemma OnlyAdminFetchesSite(env: Env, ctx: Ctx, id: string, db: Db)
    requires "user_id" !in ctx && GetString(ctx, "role") != "admin"
    ensures SiteFetchById(env, ctx, id, db).code != 200
    ensures env.isValidUuid(id) && LiveId(db.sites, id) && LiveId(db.customers, FetchSiteById(db, id).value.fields.customerId)
            ==> SiteFetchById(env, ctx, id, db).code == 403
  {
  }

  /** Likewise for a customer's site listing: a non-admin is refused once the customer is found. */
  lemma OnlyAdminListsCustomerSites(env: Env, ctx: Ctx, customerId: string, db: Db)
    requires "user_id" !in ctx && GetString(ctx, "role") != "admin"
    ensures env.isValidUuid(customerId) && LiveId(db.customers, customerId)
            ==> SiteFetchByCustomerId(env, ctx, customerId, db).code == 403
    ensures SiteFetchByCustomerId(env, ctx, customerId, db).code != 200
  {
  }

  /** No site of that name exists, live or deleted, under any customer: a new live
      site owned by the path's customer is inserted, nothing else changes, and
      that row is then the only one with the name. */
  lemma SiteCreateInserts(env: Env, customerId: string, body: Json, db: Db, now: int, newId: Uuid) returns (k: int)
    requires env.isValidUuid(customerId) && NamedBody(body) && LiveId(db.customers, customerId)
    requires NoneSelected(db.sites, SiteNamed(Member(body, "name")))
    requires !HasId(db.sites, newId)
    ensures var o := SiteCreate(env, customerId, body, db, now, newId);
            var row := NewRow(newId, now, SiteCols(Member(body, "name"), customerId));
            && o.reply.code == 200 && o.reply.body.message == "Site created"
            && o.reply.body.data.site.id == newId && o.reply.body.data.site.name == Member(body, "name")
            && o.reply.body.data.site.customerId == customerId
            && OwnerNamed(db, customerId, o.reply.body.data.site.customerName)
            && multiset(o.db.sites) == multiset(db.sites) + multiset{row}
            && FirstUnscoped(o.db.sites, SiteNamed(Member(body, "name")), k) && o.db.sites[k] == row
            && forall j :: 0 <= j < |o.db.sites| && j != k ==> !SiteNamed(Member(body, "name"))(o.db.sites[j])
  {
    var c := FetchCustomerById(db, customerId).value;
    var m :| 0 <= m < |db.customers| && db.customers[m] == c;
    k := InsertedIsOnlyMatch(db.sites, NewRow(newId, now, SiteCols(Member(body, "name"), customerId)),
                             SiteNamed(Member(body, "name")));
  }

  /** The first site of that name, under whichever customer, is live: 400 and the
      store is unchanged. Site names are looked up across all customers. */
  lemma SiteCreateRejectsLive(env: Env, customerId: string, body: Json, db: Db, now: int, newId: Uuid, k: int)
    requires env.isValidUuid(customerId) && NamedBody(body) && LiveId(db.customers, customerId)
    requires FirstUnscoped(db.sites, SiteNamed(Member(body, "name")), k) && db.sites[k].Live()
    ensures var o := SiteCreate(env, customerId, body, db, now, newId);
            o.reply.code == 400 && o.reply.body.message == "Site already exists" && o.db == db
  {
    var s := FetchSiteByName(db, Member(body, "name"));
    var k' :| FirstUnscoped(db.sites, SiteNamed(Member(body, "name")), k') && s.value == db.sites[k'];
    assert k' == k;
  }

  /** For the live site with that id: when its owner is gone, anyone gets 404
      "Customer not found"; when its owner is live, an admin gets the site
      reported with that owner. */
  lemma AdminFetchesSite(env: Env, ctx: Ctx, id: string, db: Db, k: int)
    requires Valid(db) && env.isValidUuid(id)
    requires 0 <= k < |db.sites| && db.sites[k].id == id && db.sites[k].Live()
    ensures var r := SiteFetchById(env, ctx, id, db);
            var owner := db.sites[k].fields.customerId;
            && (!LiveId(db.customers, owner) ==> r.code == 404 && r.body.message == "Customer not found")
            && (LiveId(db.customers, owner) && GetString(ctx, "role") == "admin" ==>
                  && r.code == 200 && r.body.data.site.id == id && r.body.data.site.name == db.sites[k].fields.name
                  && r.body.data.site.customerId == owner && OwnerNamed(db, owner, r.body.data.site.customerName))
  {
    var s := FetchSiteById(db, id).value;
    var i :| 0 <= i < |db.sites| && db.sites[i] == s;
    if i != k {
      OrderedIdsDistinct(db.sites, i, k);
    }
    var owner := db.sites[k].fields.customerId;
    if LiveId(db.customers, owner) {
      var c := FetchCustomerById(db, owner).value;
      var m :| 0 <= m < |db.customers| && db.customers[m] == c;
    }
  }

  /** An admin gets the site listing of any live customer: the views of that
      customer's live sites, each under the customer's own name. */
  lemma AdminListsCustomerSites(env: Env, ctx: Ctx, customerId: string, db: Db) returns (c: Customer)
    requires env.isValidUuid(customerId) && LiveId(db.customers, customerId) && GetString(ctx, "role") == "admin"
    ensures c in db.customers && c.id == customerId && c.Live()
    ensures var r := SiteFetchByCustomerId(env, ctx, customerId, db);
            r.code == 200 && r.body.Envelope? && r.body.data == Sites(OwnedSiteViews(db, c))
  {
    c := FetchCustomerById(db, customerId).value;
  }

  /** Restoring a soft-deleted site through another customer's path does not
      move it: the stored owner is kept while the response names the path's customer. */
  lemma RestoreKeepsOwner(env: Env, customerId: string, body: Json, db: Db, now: int, newId: Uuid, k: int)
    requires Valid(db) && env.isValidUuid(customerId) && NamedBody(body) && LiveId(db.customers, customerId)
    requires FirstUnscoped(db.sites, SiteNamed(Member(body, "name")), k) && !db.sites[k].Live()
    ensures var o := SiteCreate(env, customerId, body, db, now, newId);
            && o.reply.code == 200 && o.reply.body.message == "Site restored"
            && o.reply.body.data.site.id == db.sites[k].id
            && o.reply.body.data.site.customerId == customerId
            && o.db.sites == db.sites[k := Restored(db.sites[k], now)]
            && o.db.sites[k].fields.customerId == db.sites[k].fields.customerId
  {
    var t := db.sites;
    var s := FetchSiteByName(db, Member(body, "name"));
    var k' :| FirstUnscoped(t, SiteNamed(Member(body, "name")), k') && s.value == t[k'];
    assert k' == k;
    var r := SaveRow(t, Restored(t[k], now));
    forall i | 0 <= i < |t|
      ensures r[i] == t[k := Restored(t[k], now)][i]
    {
      if i != k {
        OrderedIdsDistinct(t, i, k);
      }
    }
  }

  /** A site deleted by `SiteDelete` can no longer be fetched, renamed or deleted again. */
  lemma DeletedSiteGone(env: Env, id: string, db: Db, now: int, body: Json, now': int)
    requires env.isValidUuid(id) && LiveId(db.sites, id)
    ensures var o := SiteDelete(env, id, db, now);
            && !LiveId(o.db.sites, id)
            && SiteDelete(env, id, o.db, now').reply.code == 404
            && (NamedBody(body) ==> SiteUpdate(env, id, body, o.db, now').reply.code == 404)
  {
    var o := SiteDelete(env, id, db, now);
    forall i | 0 <= i < |o.db.sites| && o.db.sites[i].id == id
      ensures !o.db.sites[i].Live()
    {
    }
  }
}
