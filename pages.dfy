/** The pages route: the schema a create request's body must match, creation
    under the unique key (tenant, slug, locale), and the per-tenant, per-locale
    listing ordered by last update. */
module Pages {
  import opened Common
  import opened Query

  /** A decoded JSON request body. */
  datatype Json =
    | JNull
    | JBool(b: bool)
    | JNumber(n: int)
    | JString(s: string)
    | JArray(items: seq<Json>)
    | JObject(fields: map<string, Json>)

  const SUPPORTED_LOCALES: set<string> := {"es-CO", "es-DO", "en"}
  const DEFAULT_LOCALE: string := "es-CO"

  /** The optional string fields of the schema. */
  const OPTIONAL_TEXT_KEYS: set<string> := {"description", "metaTitle", "metaDescription", "metaKeywords", "ogImage"}

  /** Every key the schema knows; the parser drops all others. */
  const SCHEMA_KEYS: set<string> := {"slug", "title", "locale", "layout"} + OPTIONAL_TEXT_KEYS

  datatype PageStatus = Draft | Staging | Published

  /** What a body that matches the schema yields. */
  datatype CreatePageData = CreatePageData(
    slug: string,
    title: string,
    description: Option<string>,
    locale: string,
    layout: Option<Json>,
    metaTitle: Option<string>,
    metaDescription: Option<string>,
    metaKeywords: Option<string>,
    ogImage: Option<string>)

  /** One row of the page table. */
  datatype Page = Page(
    id: nat,
    tenantId: string,
    slug: string,
    locale: string,
    title: string,
    description: Option<string>,
    layout: Option<Json>,
    metaTitle: Option<string>,
    metaDescription: Option<string>,
    metaKeywords: Option<string>,
    ogImage: Option<string>,
    status: PageStatus,
    createdAt: nat,
    updatedAt: nat)

  /** The columns the page table is unique on. */
  function Key(p: Page): (string, string, string) {
    (p.tenantId, p.slug, p.locale)
  }

  // ---------------------------------------------------------------------------
  // The schema

  /** A body the schema accepts: an object with a non-empty `slug` and
      `title`, a `locale` that is absent or one of the supported ones, and
      optional text fields that are strings when present. `layout` may be
      anything; other keys are not looked at. */
  ghost predicate ConformsToSchema(fields: map<string, Json>) {
    && "slug" in fields && fields["slug"].JString? && fields["slug"].s != ""
    && "title" in fields && fields["title"].JString? && fields["title"].s != ""
    && ("locale" in fields ==> fields["locale"].JString? && fields["locale"].s in SUPPORTED_LOCALES)
    && forall k | k in OPTIONAL_TEXT_KEYS && k in fields :: fields[k].JString?
  }

  function RequiredText(fields: map<string, Json>, key: string): Result<string> {
    if key in fields && fields[key].JString? && |fields[key].s| >= 1 then Ok(fields[key].s)
    else Err(ValidationError)
  }

  function OptionalText(fields: map<string, Json>, key: string): Result<Option<string>> {
    if key !in fields then Ok(None)
    else if fields[key].JString? then Ok(Some(fields[key].s))
    else Err(ValidationError)
  }

  function LocaleField(fields: map<string, Json>): Result<string> {
    if "locale" !in fields then Ok(DEFAULT_LOCALE)
    else if fields["locale"].JString? && fields["locale"].s in SUPPORTED_LOCALES then Ok(fields["locale"].s)
    else Err(ValidationError)
  }

  /** The string a body gives under `key`, if it gives one. */
  function Given(fields: map<string, Json>, key: string): Option<string> {
    if key in fields && fields[key].JString? then Some(fields[key].s) else None
  }

  /** `createPageSchema.parse(body)`. */
  function ParseCreatePage(body: Json): (r: Result<CreatePageData>)
    ensures r.Ok? <==> body.JObject? && ConformsToSchema(body.fields)
    ensures r.Err? ==> r.error == ValidationError
    ensures r.Ok? ==> && r.value.slug == body.fields["slug"].s && r.value.slug != ""
                      && r.value.title == body.fields["title"].s && r.value.title != ""
                      && r.value.locale in SUPPORTED_LOCALES
                      && r.value.locale == (if "locale" in body.fields then body.fields["locale"].s else DEFAULT_LOCALE)
    ensures r.Ok? ==> && r.value.description == Given(body.fields, "description")
                      && r.value.metaTitle == Given(body.fields, "metaTitle")
                      && r.value.metaDescription == Given(body.fields, "metaDescription")
                      && r.value.metaKeywords == Given(body.fields, "metaKeywords")
                      && r.value.ogImage == Given(body.fields, "ogImage")
                      && r.value.layout == (if "layout" in body.fields then Some(body.fields["layout"]) else None)
  {
    if !body.JObject? then Err(ValidationError)
    else
      var f := body.fields;
      var slug := RequiredText(f, "slug");
      var title := RequiredText(f, "title");
      var description := OptionalText(f, "description");
      var locale := LocaleField(f);
      var metaTitle := OptionalText(f, "metaTitle");
      var metaDescription := OptionalText(f, "metaDescription");
      var metaKeywords := OptionalText(f, "metaKeywords");
      var ogImage := OptionalText(f, "ogImage");
      if slug.Err? || title.Err? || description.Err? || locale.Err? || metaTitle.Err?
         || metaDescription.Err? || metaKeywords.Err? || ogImage.Err? then
        assert ConformsToSchema(f) ==> forall k | k in OPTIONAL_TEXT_KEYS :: OptionalText(f, k).Ok?;
        Err(ValidationError)
      else
        Ok(CreatePageData(slug.value, title.value, description.value, locale.value,
                          if "layout" in f then Some(f["layout"]) else None,
                          metaTitle.value, metaDescription.value, metaKeywords.value, ogImage.value))
  }

  /** Keys outside the schema, `status` and `tenantId` among them, never
      change what the parser yields. */
  lemma ParseIgnoresUnknownKeys(fields: map<string, Json>, k: string, v: Json)
    requires k !in SCHEMA_KEYS
    ensures ParseCreatePage(JObject(fields[k := v])) == ParseCreatePage(JObject(fields))
  {
  }

  /** The guards of the create handler, in order: role (403), tenant (404),
      a body that is not JSON at all (caught as an unexpected error, 500), and
      the schema (400). */
  function CreateGuard(session: Option<Principal>, tenant: Option<Tenant>, body: Option<Json>): (r: Result<(Tenant, CreatePageData)>)
    ensures r == Err(Forbidden) <==> !CanWrite(session)
    ensures r == Err(TenantNotFound) <==> CanWrite(session) && tenant.None?
    ensures r == Err(ValidationError) <==>
      CanWrite(session) && tenant.Some? && body.Some? && !(body.value.JObject? && ConformsToSchema(body.value.fields))
    ensures r == Err(Internal) <==> CanWrite(session) && tenant.Some? && body.None?
    ensures r.Ok? <==> CanWrite(session) && tenant.Some? && body.Some? && body.value.JObject? && ConformsToSchema(body.value.fields)
    ensures r.Ok? ==> Some(r.value.0) == tenant && body.Some? && ParseCreatePage(body.value) == Ok(r.value.1)
  {
    if !CanWrite(session) then Err(Forbidden)
    else if tenant.None? then Err(TenantNotFound)
    else if body.None? then Err(Internal)
    else
      var data := ParseCreatePage(body.value);
      if data.Err? then Err(data.error) else Ok((tenant.value, data.value))
  }

  // ---------------------------------------------------------------------------
  // Lookup by the unique key

  /** `findUnique` on the key (tenant, slug, locale). */
  function FindUnique(pages: seq<Page>, tenantId: string, slug: string, locale: string): (r: Option<Page>)
    ensures r.Some? ==> r.value in pages && Key(r.value) == (tenantId, slug, locale)
    ensures r.None? ==> forall p | p in pages :: Key(p) != (tenantId, slug, locale)
  {
    if pages == [] then None
    else if Key(pages[0]) == (tenantId, slug, locale) then Some(pages[0])
    else FindUnique(pages[1..], tenantId, slug, locale)
  }

  /** A page of another tenant never makes a lookup succeed: the same slug
      and locale under different tenants do not conflict. */
  lemma {:induction false} OtherTenantNeverConflicts(pages: seq<Page>, p: Page, tenantId: string, slug: string, locale: string)
    requires p.tenantId != tenantId
    ensures FindUnique(pages + [p], tenantId, slug, locale) == FindUnique(pages, tenantId, slug, locale)
  {
    if pages == [] {
      assert pages + [p] == [p];
    } else {
      assert (pages + [p])[1..] == pages[1..] + [p];
      OtherTenantNeverConflicts(pages[1..], p, tenantId, slug, locale);
    }
  }

  /** The page a successful create inserts: the parsed fields, the
      requesting tenant, status DRAFT, stamped with the clock. */
  function NewPage(tenantId: string, d: CreatePageData, stamp: nat): Page {
    Page(stamp, tenantId, d.slug, d.locale, d.title, d.description, d.layout,
         d.metaTitle, d.metaDescription, d.metaKeywords, d.ogImage, Draft, stamp, stamp)
  }

  // ---------------------------------------------------------------------------
  // Listing

  /** The `where` object of the list query. */
  datatype PageWhere = PageWhere(tenantId: string, locale: string, status: Option<PageStatus>)

  function MatchesWhere(w: PageWhere): Page -> bool {
    (p: Page) => p.tenantId == w.tenantId && p.locale == w.locale && (w.status.None? || p.status == w.status.value)
  }

  function UpdatedAt(p: Page): int {
    p.updatedAt
  }

  /** `findMany({ where, orderBy: { updatedAt: 'desc' } })` on the page table. */
  function FindMany(pages: seq<Page>, w: PageWhere): seq<Page> {
    SortDesc(Filter(pages, MatchesWhere(w)), UpdatedAt)
  }

  /** The query result holds exactly the table's pages the `where` object
      matches, each as often as in the table, most recently updated first. */
  lemma FindManyMembers(pages: seq<Page>, w: PageWhere)
    ensures multiset(FindMany(pages, w)) == multiset(Filter(pages, MatchesWhere(w)))
    ensures forall p :: p in FindMany(pages, w) <==> p in pages && MatchesWhere(w)(p)
    ensures forall i, j | 0 <= i < j < |FindMany(pages, w)| :: FindMany(pages, w)[i].updatedAt >= FindMany(pages, w)[j].updatedAt
  {
    var found := FindMany(pages, w);
    var matching := Filter(pages, MatchesWhere(w));
    forall p ensures p in found <==> p in matching {
      assert p in found <==> p in multiset(found);
      assert p in matching <==> p in multiset(matching);
    }
  }

  /** The status named by the query parameter, when it names one exactly. */
  function StatusNamed(param: Option<string>): Option<PageStatus> {
    if param == Some("DRAFT") then Some(Draft)
    else if param == Some("STAGING") then Some(Staging)
    else if param == Some("PUBLISHED") then Some(Published)
    else None
  }

  /** What a listing for `tenantId` with the query parameters shows: the
      tenant's pages in the requested locale (es-CO when the parameter is
      missing or empty), narrowed to one status only when the parameter names
      it exactly. */
  predicate Listable(p: Page, tenantId: string, localeParam: Option<string>, statusParam: Option<string>) {
    && p.tenantId == tenantId
    && p.locale == (if localeParam.None? || localeParam.value == "" then DEFAULT_LOCALE else localeParam.value)
    && (statusParam == Some("DRAFT") ==> p.status == Draft)
    && (statusParam == Some("STAGING") ==> p.status == Staging)
    && (statusParam == Some("PUBLISHED") ==> p.status == Published)
  }

  /** The pages a listing shows, in table order. */
  function ListablePages(pages: seq<Page>, tenantId: string, localeParam: Option<string>, statusParam: Option<string>): seq<Page> {
    Filter(pages, (p: Page) => Listable(p, tenantId, localeParam, statusParam))
  }

  /** Tenant isolation: a page created for one tenant changes no other
      tenant's listing. */
  lemma {:induction false} CreateInvisibleToOtherTenants(pages: seq<Page>, p: Page, w: PageWhere)
    requires p.tenantId != w.tenantId
    ensures FindMany(pages + [p], w) == FindMany(pages, w)
  {
    var m := MatchesWhere(w);
    FilterAppend(pages, p, m);
    assert Filter(pages + [p], m) == Filter(pages, m) + [];
    assert Filter(pages, m) + [] == Filter(pages, m);
  }

  // ---------------------------------------------------------------------------
  // The store

  /** What the page table keeps true: the key (tenant, slug, locale) is unique
      and every id and stamp was drawn from the clock before its current
      value. */
  ghost predicate StoreInvariant(pages: seq<Page>, clock: nat) {
    && (forall i, j | 0 <= i < j < |pages| :: Key(pages[i]) != Key(pages[j]))
    && (forall i | 0 <= i < |pages| :: pages[i].id < clock && pages[i].updatedAt < clock)
  }

  /** Inserting a page whose key is absent, stamped with the clock, keeps the
      invariant. */
  lemma InsertKeepsInvariant(pages: seq<Page>, clock: nat, p: Page)
    requires StoreInvariant(pages, clock)
    requires FindUnique(pages, p.tenantId, p.slug, p.locale).None?
    requires p.id == clock && p.updatedAt == clock
    ensures StoreInvariant(pages + [p], clock + 1)
  {
  }

  /** The page table. The clock stamps ids, creation and update times. */
  class PageStore {
    var pages: seq<Page>
    var clock: nat

    ghost predicate Valid()
      reads this
    {
      StoreInvariant(pages, clock)
    }

    constructor ()
      ensures Valid() && pages == [] && clock == 0
    {
      pages := [];
      clock := 0;
    }

    /** POST: the guards and the schema, then the lookup on the unique key
        (409 on a hit), then one insert. */
    method Create(session: Option<Principal>, tenant: Option<Tenant>, body: Option<Json>)
      returns (r: Result<Page>)
      requires Valid()
      modifies this
      ensures Valid()
      ensures CreateGuard(session, tenant, body).Err? ==>
        r == Err(CreateGuard(session, tenant, body).error) && unchanged(this)
      ensures CreateGuard(session, tenant, body).Ok? ==>
        var (t, d) := CreateGuard(session, tenant, body).value;
        && (FindUnique(old(pages), t.id, d.slug, d.locale).Some? ==> r == Err(Conflict) && unchanged(this))
        && (FindUnique(old(pages), t.id, d.slug, d.locale).None? ==>
              && r == Ok(NewPage(t.id, d, old(clock)))
              && pages == old(pages) + [r.value]
              && clock == old(clock) + 1)
    {
      var guard := CreateGuard(session, tenant, body);
      if guard.Err? {
        return Err(guard.error);
      }
      var (t, data) := guard.value;
      var existing := FindUnique(pages, t.id, data.slug, data.locale);
      if existing.Some? {
        return Err(Conflict);
      }
      var page := NewPage(t.id, data, clock);
      InsertKeepsInvariant(pages, clock, page);
      pages := pages + [page];
      clock := clock + 1;
      r := Ok(page);
    }

    /** GET: any session (VIEWER included) and a tenant; the tenant's pages
        in the requested locale, narrowed by status when asked, most recently
        updated first. */
    method List(session: Option<Principal>, tenant: Option<Tenant>, localeParam: Option<string>, statusParam: Option<string>)
      returns (r: Result<seq<Page>>)
      ensures session.None? ==> r == Err(Unauthorized)
      ensures session.Some? && tenant.None? ==> r == Err(TenantNotFound)
      ensures session.Some? && tenant.Some? ==> r.Ok?
      ensures r.Ok? ==> session.Some? && tenant.Some?
      ensures r.Ok? ==> forall p :: p in r.value <==> p in pages && Listable(p, tenant.value.id, localeParam, statusParam)
      ensures r.Ok? ==> forall i, j | 0 <= i < j < |r.value| :: r.value[i].updatedAt >= r.value[j].updatedAt
      ensures r.Ok? ==> multiset(r.value) == multiset(ListablePages(pages, tenant.value.id, localeParam, statusParam))
    {
      if session.None? {
        return Err(Unauthorized);
      }
      if tenant.None? {
        return Err(TenantNotFound);
      }
      var locale := if localeParam.None? || localeParam.value == "" then DEFAULT_LOCALE else localeParam.value;
      var where := PageWhere(tenant.value.id, locale, None);
      var status := StatusNamed(statusParam);
      if statusParam.Some? && statusParam.value != "" && status.Some? {
        where := where.(status := status);
      }
      assert forall p :: MatchesWhere(where)(p) <==> Listable(p, tenant.value.id, localeParam, statusParam);
      FindManyMembers(pages, where);
      FilterCongruent(pages, MatchesWhere(where), (p: Page) => Listable(p, tenant.value.id, localeParam, statusParam));
      r := Ok(FindMany(pages, where));
    }
  }

  /** Two tenants can both create `home` in es-CO, and a second `home` in
      es-CO for the first tenant is refused with 409. */
  method SameSlugScenario(editor: Principal, t1: Tenant, t2: Tenant)
    requires editor.role == Editor && t1.id != t2.id
  {
    var store := new PageStore();
    var body := JObject(map["slug" := JString("home"), "title" := JString("Inicio"), "locale" := JString("es-CO")]);
    assert ConformsToSchema(body.fields);
    var a := store.Create(Some(editor), Some(t1), Some(body));
    assert a.Ok? && a.value.status == Draft && a.value.tenantId == t1.id;
    var b := store.Create(Some(editor), Some(t2), Some(body));
    assert b.Ok? && b.value.tenantId == t2.id;
    var c := store.Create(Some(editor), Some(t1), Some(body));
    assert c == Err(Conflict);
    assert |store.pages| == 2;
  }
}
