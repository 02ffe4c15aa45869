/** The media route: the upload pipeline (guards, stored filename and
    tenant-scoped path, raster variants, type classification, scan flags) and
    the listing of clean media, newest first. */
module Media {
  import opened Common
  import opened Query

  const DEFAULT_MAX_FILE_SIZE: int := 10485760
  const DEFAULT_ALLOWED_MIME_TYPES: seq<string> :=
    ["image/png", "image/jpeg", "image/jpg", "image/webp", "image/svg+xml", "application/pdf"]

  /** The values the handler reads from its environment: the size ceiling in
      bytes, the allow-list of MIME types, and ANTIVIRUS_ENABLED (None when
      unset). */
  datatype MediaConfig = MediaConfig(maxFileSize: int, allowedMimeTypes: seq<string>, antivirusEnabled: Option<string>)

  const DEFAULT_CONFIG: MediaConfig := MediaConfig(DEFAULT_MAX_FILE_SIZE, DEFAULT_ALLOWED_MIME_TYPES, None)

  /** The `file` field of the upload form, as the browser declares it. */
  datatype UploadFile = UploadFile(name: string, mimeType: string, size: nat)

  datatype MediaType = Image | Document

  datatype ScanStatus = Pending | Clean | Infected

  /** What the image library reports as the picture's size; either may be missing. */
  datatype Dimensions = Dimensions(width: Option<nat>, height: Option<nat>)

  /** How each step of image processing turns out for one upload: reading the
      metadata (None when it throws), writing the thumbnail, writing the WebP
      copy. */
  datatype ImageOutcome = ImageOutcome(metadata: Option<Dimensions>, thumbnailWritten: bool, webpWritten: bool)

  /** The fields of the record that image processing fills in. */
  datatype Variants = Variants(width: Option<nat>, height: Option<nat>, thumbnailPath: Option<string>, webpPath: Option<string>)

  datatype ScanState = ScanState(scanned: bool, status: ScanStatus)

  /** One row of the media table. */
  datatype MediaRecord = MediaRecord(
    id: nat,
    tenantId: string,
    filename: string,
    originalName: string,
    mimeType: string,
    size: nat,
    mediaType: MediaType,
    path: string,
    variants: Variants,
    uploadedBy: string,
    scan: ScanState,
    createdAt: nat)

  /** One entry of the listing: the selected columns plus the public URLs. */
  datatype MediaView = MediaView(
    id: nat,
    filename: string,
    originalName: string,
    mimeType: string,
    size: nat,
    mediaType: MediaType,
    path: string,
    variants: Variants,
    createdAt: nat,
    url: string,
    thumbnailUrl: Option<string>,
    webpUrl: Option<string>)

  /** The body of a successful upload response. */
  datatype UploadedMedia = UploadedMedia(
    id: nat,
    url: string,
    thumbnailUrl: Option<string>,
    webpUrl: Option<string>,
    filename: string,
    originalName: string,
    mimeType: string,
    size: nat,
    mediaType: MediaType,
    width: Option<nat>,
    height: Option<nat>)

  /** What the guards hand on to the rest of the upload. */
  datatype Accepted = Accepted(user: Principal, tenant: Tenant, file: UploadFile)

  // ---------------------------------------------------------------------------
  // Guards

  /** The chain of checks an upload passes before anything is written: role,
      tenant, presence of the file, size (a size equal to the ceiling passes),
      and exact membership of the MIME type in the allow-list. */
  function UploadGuard(session: Option<Principal>, tenant: Option<Tenant>, file: Option<UploadFile>, config: MediaConfig): (r: Result<Accepted>)
    ensures r == Err(Forbidden) <==> !CanWrite(session)
    ensures r == Err(TenantNotFound) <==> CanWrite(session) && tenant.None?
    ensures r.Err? && r.error.Status() == 400 <==>
      CanWrite(session) && tenant.Some? &&
      (file.None? || file.value.size > config.maxFileSize || file.value.mimeType !in config.allowedMimeTypes)
    ensures r.Ok? <==>
      CanWrite(session) && tenant.Some? && file.Some? &&
      file.value.size <= config.maxFileSize && file.value.mimeType in config.allowedMimeTypes
    ensures r.Ok? ==> Some(r.value.user) == session && Some(r.value.tenant) == tenant && Some(r.value.file) == file
  {
    if !CanWrite(session) then Err(Forbidden)
    else if tenant.None? then Err(TenantNotFound)
    else if file.None? then Err(NoFile)
    else if file.value.size > config.maxFileSize then Err(FileTooLarge)
    else if file.value.mimeType !in config.allowedMimeTypes then Err(TypeNotAllowed)
    else Ok(Accepted(session.value, tenant.value, file.value))
  }

  /** Under the default configuration a file of exactly 10 MiB passes the size
      check and one byte more does not; `image/jpg` is accepted beside
      `image/jpeg`, and a type outside the list is refused. */
  lemma DefaultConfigBoundaries(user: Principal, tenant: Tenant, name: string)
    requires user.role != Viewer
    ensures UploadGuard(Some(user), Some(tenant), Some(UploadFile(name, "image/jpg", 10485760)), DEFAULT_CONFIG).Ok?
    ensures UploadGuard(Some(user), Some(tenant), Some(UploadFile(name, "image/jpeg", 10485761)), DEFAULT_CONFIG) == Err(FileTooLarge)
    ensures UploadGuard(Some(user), Some(tenant), Some(UploadFile(name, "image/gif", 1)), DEFAULT_CONFIG) == Err(TypeNotAllowed)
  {
  }

  // ---------------------------------------------------------------------------
  // Stored filename and tenant-scoped paths

  /** The text after the last `.` of a file name, or the whole name when it
      has no `.`. */
  function Extension(name: string): (ext: string)
    ensures '.' !in ext
  {
    if name == [] then []
    else if name[|name| - 1] == '.' then []
    else Extension(name[..|name| - 1]) + [name[|name| - 1]]
  }

  /** The extension ends the name, and is either the whole name or preceded
      by a dot. */
  lemma {:induction false} ExtensionIsSuffix(name: string)
    ensures var ext := Extension(name);
      && |ext| <= |name| && name[|name| - |ext|..] == ext
      && (|ext| < |name| ==> name[|name| - |ext| - 1] == '.')
  {
    if name != [] && name[|name| - 1] != '.' {
      var init := name[..|name| - 1];
      ExtensionIsSuffix(init);
      var e := Extension(init);
      var ext := Extension(name);
      assert ext == e + [name[|name| - 1]];
      assert name[|name| - |ext|..] == init[|init| - |e|..] + [name[|name| - 1]];
      if |ext| < |name| {
        assert name[|name| - |ext| - 1] == init[|init| - |e| - 1];
      }
    }
  }

  /** The extension is exactly what follows the last dot. */
  lemma {:induction false} ExtensionAfterLastDot(stem: string, ext: string)
    requires '.' !in ext
    ensures Extension(stem + "." + ext) == ext
  {
    var s := stem + "." + ext;
    if ext != [] {
      var front := ext[..|ext| - 1];
      assert s[..|s| - 1] == stem + "." + front;
      assert ext == front + [ext[|ext| - 1]];
      ExtensionAfterLastDot(stem, front);
    }
  }

  /** A name without a dot is its own extension. */
  lemma {:induction false} ExtensionWithoutDot(name: string)
    requires '.' !in name
    ensures Extension(name) == name
  {
    if name != [] {
      var init := name[..|name| - 1];
      assert name[|name| - 1] in name;
      ExtensionWithoutDot(init);
      assert name == init + [name[|name| - 1]];
    }
  }

  /** The stored filename: the fresh id, a dot, and the original extension. */
  function StoredFilename(freshId: string, originalName: string): string {
    freshId + "." + Extension(originalName)
  }

  /** The stored filename keeps the extension of the uploaded name. */
  lemma StoredFilenameKeepsExtension(freshId: string, originalName: string)
    ensures Extension(StoredFilename(freshId, originalName)) == Extension(originalName)
  {
    ExtensionAfterLastDot(freshId, Extension(originalName));
  }

  /** The tenant's upload directory, relative to the public root. */
  function TenantDir(tenantId: string): string {
    "uploads/" + tenantId
  }

  /** A file placed in the tenant's upload directory. */
  function InTenantDir(tenantId: string, name: string): (path: string)
    ensures StartsWith(path, TenantDir(tenantId) + "/")
  {
    var dir := TenantDir(tenantId) + "/";
    assert (dir + name)[..|dir|] == dir;
    dir + name
  }

  /** Paths of different tenants never coincide, as long as tenant ids
      contain no `/`. */
  lemma InTenantDirInjective(t1: string, n1: string, t2: string, n2: string)
    requires '/' !in t1 && '/' !in t2
    requires InTenantDir(t1, n1) == InTenantDir(t2, n2)
    ensures t1 == t2 && n1 == n2
  {
    var p := InTenantDir(t1, n1);
    var k := |"uploads/"|;
    assert forall i :: 0 <= i < |t1| ==> p[k + i] == t1[i];
    assert forall i :: 0 <= i < |t2| ==> p[k + i] == t2[i];
    assert p[k + |t1|] == '/' && p[k + |t2|] == '/';
    assert |t1| == |t2|;
    assert t1 == p[k..k + |t1|] == t2;
    assert n1 == p[k + |t1| + 1..] == n2;
  }

  function ThumbnailPath(tenantId: string, freshId: string): string {
    InTenantDir(tenantId, freshId + "_thumb.jpg")
  }

  function WebpPath(tenantId: string, freshId: string): string {
    InTenantDir(tenantId, freshId + ".webp")
  }

  // ---------------------------------------------------------------------------
  // Classification, variants, scan flags

  /** Raster images are the ones image processing is attempted on. */
  predicate IsRaster(mimeType: string) {
    StartsWith(mimeType, "image/") && mimeType != "image/svg+xml"
  }

  /** Every `image/...` type, SVG included, is an image; the rest are documents. */
  function MediaTypeOf(mimeType: string): MediaType {
    if StartsWith(mimeType, "image/") then Image else Document
  }

  /** Which variant fields an upload ends up with: processing is attempted on
      raster images only; a metadata failure leaves everything unset; the
      thumbnail path is set once the thumbnail is written; the WebP copy is
      made only for non-WebP sources, after the thumbnail. */
  function Derived(mimeType: string, tenantId: string, image: ImageOutcome, thumbId: string, webpId: string): Variants {
    var probed := IsRaster(mimeType) && image.metadata.Some?;
    var thumb := probed && image.thumbnailWritten;
    var webp := thumb && mimeType != "image/webp" && image.webpWritten;
    Variants(
      if probed then image.metadata.value.width else None,
      if probed then image.metadata.value.height else None,
      if thumb then Some(ThumbnailPath(tenantId, thumbId)) else None,
      if webp then Some(WebpPath(tenantId, webpId)) else None)
  }

  /** The rules every set of variants obeys, whatever the image library does. */
  predicate VariantRules(mimeType: string, v: Variants) {
    && (v.thumbnailPath.Some? || v.webpPath.Some? || v.width.Some? || v.height.Some? ==> IsRaster(mimeType))
    && (v.webpPath.Some? ==> v.thumbnailPath.Some? && mimeType != "image/webp")
  }

  /** Processing step by step, as the handler's try block does: each failing
      step abandons the remaining ones and keeps what was already set. */
  method DeriveVariants(mimeType: string, tenantId: string, image: ImageOutcome, thumbId: string, webpId: string)
    returns (v: Variants)
    ensures v == Derived(mimeType, tenantId, image, thumbId, webpId)
    ensures VariantRules(mimeType, v)
  {
    var width: Option<nat> := None;
    var height: Option<nat> := None;
    var thumbnailPath: Option<string> := None;
    var webpPath: Option<string> := None;
    if IsRaster(mimeType) {
      if image.metadata.Some? {
        width := image.metadata.value.width;
        height := image.metadata.value.height;
        var thumb := ThumbnailPath(tenantId, thumbId);
        if image.thumbnailWritten {
          thumbnailPath := Some(thumb);
          if mimeType != "image/webp" {
            var webp := WebpPath(tenantId, webpId);
            if image.webpWritten {
              webpPath := Some(webp);
            }
          }
        }
      }
    }
    v := Variants(width, height, thumbnailPath, webpPath);
  }

  /** A raster upload whose processing succeeds gets both variants (a WebP
      source only the thumbnail); an SVG or a PDF gets none. */
  lemma VariantsForKnownTypes(tenantId: string, image: ImageOutcome, thumbId: string, webpId: string)
    requires image.metadata.Some? && image.thumbnailWritten && image.webpWritten
    ensures Derived("image/png", tenantId, image, thumbId, webpId).webpPath.Some?
    ensures var v := Derived("image/webp", tenantId, image, thumbId, webpId); v.thumbnailPath.Some? && v.webpPath.None?
    ensures Derived("image/svg+xml", tenantId, image, thumbId, webpId) == Variants(None, None, None, None)
    ensures Derived("application/pdf", tenantId, image, thumbId, webpId) == Variants(None, None, None, None)
  {
    assert StartsWith("image/png", "image/");
    assert StartsWith("image/webp", "image/");
    assert "application/pdf"[0] != "image/"[0];
  }

  /** ANTIVIRUS_ENABLED unset, empty or exactly `false`. */
  predicate AntivirusDisabled(env: Option<string>) {
    env.None? || env.value == "" || env.value == "false"
  }

  /** The scan flags a new record starts with. */
  function InitialScan(env: Option<string>): (s: ScanState)
    ensures s.scanned <==> s.status == Clean
    ensures s.status == Clean <==> AntivirusDisabled(env)
    ensures s.status != Infected
  {
    var disabled := AntivirusDisabled(env);
    ScanState(disabled, if disabled then Clean else Pending)
  }

  /** The public URL of a stored path: a leading `/` on a non-empty path, and
      nothing for a missing or empty one. */
  function PublicUrl(path: Option<string>): (url: Option<string>)
    ensures url.None? <==> path.None? || path.value == ""
    ensures url.Some? ==> |url.value| > 1 && url.value[0] == '/' && url.value[1..] == path.value
  {
    if path.Some? && path.value != "" then Some("/" + path.value) else None
  }

  // ---------------------------------------------------------------------------
  // Records

  /** The files on disk a record names. */
  function RecordFiles(r: MediaRecord): set<string> {
    {r.path}
    + (if r.variants.thumbnailPath.Some? then {r.variants.thumbnailPath.value} else {})
    + (if r.variants.webpPath.Some? then {r.variants.webpPath.value} else {})
  }

  /** What every record written by an upload satisfies. */
  predicate WellFormed(r: MediaRecord) {
    && r.path == InTenantDir(r.tenantId, r.filename)
    && (r.variants.thumbnailPath.Some? ==> StartsWith(r.variants.thumbnailPath.value, TenantDir(r.tenantId) + "/"))
    && (r.variants.webpPath.Some? ==> StartsWith(r.variants.webpPath.value, TenantDir(r.tenantId) + "/"))
    && VariantRules(r.mimeType, r.variants)
    && r.mediaType == MediaTypeOf(r.mimeType)
    && (r.scan.scanned <==> r.scan.status == Clean)
  }

  /** The record an accepted upload inserts. */
  function NewRecord(a: Accepted, fileId: string, v: Variants, env: Option<string>, stamp: nat): MediaRecord {
    var filename := StoredFilename(fileId, a.file.name);
    MediaRecord(stamp, a.tenant.id, filename, a.file.name, a.file.mimeType, a.file.size,
                MediaTypeOf(a.file.mimeType), InTenantDir(a.tenant.id, filename), v,
                a.user.id, InitialScan(env), stamp)
  }

  /** Every record an upload inserts is well formed: stored in its tenant's
      directory, classified by its MIME type, variants by the rules, and
      scanned exactly when clean. */
  lemma NewRecordWellFormed(a: Accepted, fileId: string, image: ImageOutcome, thumbId: string, webpId: string, env: Option<string>, stamp: nat)
    ensures WellFormed(NewRecord(a, fileId, Derived(a.file.mimeType, a.tenant.id, image, thumbId, webpId), env, stamp))
  {
  }

  function Uploaded(r: MediaRecord): UploadedMedia {
    UploadedMedia(r.id, "/" + r.path, PublicUrl(r.variants.thumbnailPath), PublicUrl(r.variants.webpPath),
                  r.filename, r.originalName, r.mimeType, r.size, r.mediaType,
                  r.variants.width, r.variants.height)
  }

  function View(r: MediaRecord): MediaView {
    MediaView(r.id, r.filename, r.originalName, r.mimeType, r.size, r.mediaType, r.path, r.variants,
              r.createdAt, "/" + r.path, PublicUrl(r.variants.thumbnailPath), PublicUrl(r.variants.webpPath))
  }

  function Views(rs: seq<MediaRecord>): (vs: seq<MediaView>)
    ensures |vs| == |rs| && forall i :: 0 <= i < |rs| ==> vs[i] == View(rs[i])
  {
    seq(|rs|, i requires 0 <= i < |rs| => View(rs[i]))
  }

  // ---------------------------------------------------------------------------
  // Listing

  /** The `where` object of the list query. */
  datatype MediaWhere = MediaWhere(tenantId: string, scanned: bool, scanStatus: ScanStatus, mediaType: Option<MediaType>)

  function MatchesWhere(w: MediaWhere): MediaRecord -> bool {
    (r: MediaRecord) => r.tenantId == w.tenantId && r.scan.scanned == w.scanned && r.scan.status == w.scanStatus
         && (w.mediaType.None? || r.mediaType == w.mediaType.value)
  }

  function CreatedAt(r: MediaRecord): int {
    r.createdAt
  }

  /** `findMany({ where, orderBy: { createdAt: 'desc' } })` on the media table. */
  function FindMany(records: seq<MediaRecord>, w: MediaWhere): seq<MediaRecord> {
    SortDesc(Filter(records, MatchesWhere(w)), CreatedAt)
  }

  /** What a listing for `tenantId` with the query parameter `typeParam`
      shows: the tenant's scanned, clean records, narrowed to one type only
      when the parameter names it exactly. */
  predicate Listable(r: MediaRecord, tenantId: string, typeParam: Option<string>) {
    && r.tenantId == tenantId
    && r.scan.scanned
    && r.scan.status == Clean
    && (typeParam == Some("IMAGE") ==> r.mediaType == Image)
    && (typeParam == Some("DOCUMENT") ==> r.mediaType == Document)
  }

  /** The records a listing shows, in table order. */
  function ListableRecords(records: seq<MediaRecord>, tenantId: string, typeParam: Option<string>): seq<MediaRecord> {
    Filter(records, (rec: MediaRecord) => Listable(rec, tenantId, typeParam))
  }

  /** The query result holds exactly the table's rows the `where` object
      matches, each as often as in the table, in descending `createdAt`. */
  lemma FindManyMembers(records: seq<MediaRecord>, w: MediaWhere)
    ensures multiset(FindMany(records, w)) == multiset(Filter(records, MatchesWhere(w)))
    ensures forall rec :: rec in FindMany(records, w) <==> rec in records && MatchesWhere(w)(rec)
    ensures forall i, j | 0 <= i < j < |FindMany(records, w)| :: FindMany(records, w)[i].createdAt >= FindMany(records, w)[j].createdAt
  {
    var found := FindMany(records, w);
    var matching := Filter(records, MatchesWhere(w));
    assert multiset(found) == multiset(matching);
    forall rec ensures rec in found <==> rec in matching {
      assert rec in found <==> rec in multiset(found);
      assert rec in matching <==> rec in multiset(matching);
    }
  }

  /** The views of a sequence of records are exactly the views of its members. */
  lemma ViewsOfMembers(rs: seq<MediaRecord>)
    ensures forall v | v in Views(rs) :: exists rec | rec in rs :: v == View(rec)
    ensures forall rec | rec in rs :: View(rec) in Views(rs)
  {
  }

  /** A record the list query does not match changes no listing when it is
      added to the table. */
  lemma {:induction false} FindManyIgnoresUnmatched(records: seq<MediaRecord>, r: MediaRecord, w: MediaWhere)
    requires !MatchesWhere(w)(r)
    ensures FindMany(records + [r], w) == FindMany(records, w)
  {
    var p := MatchesWhere(w);
    FilterAppend(records, r, p);
    assert Filter(records + [r], p) == Filter(records, p) + [];
    assert Filter(records, p) + [] == Filter(records, p);
  }

  /** Tenant isolation: an upload by one tenant changes no other tenant's listing. */
  lemma UploadInvisibleToOtherTenants(records: seq<MediaRecord>, r: MediaRecord, w: MediaWhere)
    requires r.tenantId != w.tenantId
    ensures FindMany(records + [r], w) == FindMany(records, w)
  {
    FindManyIgnoresUnmatched(records, r, w);
  }

  /** A record still pending a scan changes no listing of clean media. */
  lemma PendingUploadNotListed(records: seq<MediaRecord>, r: MediaRecord, w: MediaWhere)
    requires w.scanStatus == Clean && r.scan.status == Pending
    ensures FindMany(records + [r], w) == FindMany(records, w)
  {
    FindManyIgnoresUnmatched(records, r, w);
  }

  // ---------------------------------------------------------------------------
  // The store

  /** What the media table and the stored files keep true: every record is
      well formed, names only files that were written, and was stamped before
      the clock's current value, in insertion order. */
  ghost predicate StoreInvariant(records: seq<MediaRecord>, files: set<string>, clock: nat) {
    && (forall i | 0 <= i < |records| ::
          WellFormed(records[i]) && records[i].createdAt < clock && RecordFiles(records[i]) <= files)
    && (forall i, j | 0 <= i < j < |records| :: records[i].createdAt < records[j].createdAt)
  }

  /** Writing files never breaks the invariant, and inserting a well formed
      record whose files exist, stamped with the clock, keeps it. */
  lemma InsertKeepsInvariant(records: seq<MediaRecord>, files: set<string>, more: set<string>, clock: nat, rec: MediaRecord)
    requires StoreInvariant(records, files, clock)
    requires WellFormed(rec) && rec.createdAt == clock && RecordFiles(rec) <= files + more
    ensures StoreInvariant(records, files + more, clock)
    ensures StoreInvariant(records + [rec], files + more, clock + 1)
  {
  }

  /** An upload keeps the invariant: after its files are written, and again
      after its record is inserted with the clock's stamp. */
  lemma UploadKeepsInvariant(records: seq<MediaRecord>, files: set<string>, clock: nat,
                             a: Accepted, fileId: string, image: ImageOutcome, thumbId: string, webpId: string, env: Option<string>)
    requires StoreInvariant(records, files, clock)
    ensures var rec := NewRecord(a, fileId, Derived(a.file.mimeType, a.tenant.id, image, thumbId, webpId), env, clock);
      && StoreInvariant(records, files + RecordFiles(rec), clock)
      && StoreInvariant(records + [rec], files + RecordFiles(rec), clock + 1)
  {
  }

  /** The media table and the files written under the public root. The clock
      stamps ids and creation times. */
  class MediaStore {
    var records: seq<MediaRecord>
    var files: set<string>
    var clock: nat

    ghost predicate Valid()
      reads this
    {
      StoreInvariant(records, files, clock)
    }

    constructor ()
      ensures Valid() && records == [] && files == {} && clock == 0
    {
      records := [];
      files := {};
      clock := 0;
    }

    /** POST: the guards first, then the original file, the variants, and one
        inserted record. A failed file write or insert answers Internal. */
    method Upload(session: Option<Principal>, tenant: Option<Tenant>, file: Option<UploadFile>, config: MediaConfig,
                  fileId: string, thumbId: string, webpId: string, image: ImageOutcome,
                  writeOk: bool, insertOk: bool)
      returns (r: Result<UploadedMedia>)
      requires Valid()
      modifies this
      ensures Valid()
      ensures UploadGuard(session, tenant, file, config).Err? ==>
        r == Err(UploadGuard(session, tenant, file, config).error) && unchanged(this)
      ensures UploadGuard(session, tenant, file, config).Ok? && !writeOk ==>
        r == Err(Internal) && unchanged(this)
      ensures UploadGuard(session, tenant, file, config).Ok? && writeOk ==>
        var a := UploadGuard(session, tenant, file, config).value;
        var rec := NewRecord(a, fileId, Derived(a.file.mimeType, a.tenant.id, image, thumbId, webpId),
                             config.antivirusEnabled, old(clock));
        && files == old(files) + RecordFiles(rec)
        && (insertOk ==> r == Ok(Uploaded(rec)) && records == old(records) + [rec] && clock == old(clock) + 1)
        && (!insertOk ==> r == Err(Internal) && records == old(records) && clock == old(clock))
    {
      var guard := UploadGuard(session, tenant, file, config);
      if guard.Err? {
        return Err(guard.error);
      }
      r := Store(guard.value, config.antivirusEnabled, fileId, thumbId, webpId, image, writeOk, insertOk);
    }

    /** The part of POST after the guards: the original file, the variants,
        and one inserted record stamped by the clock. */
    method Store(a: Accepted, env: Option<string>, fileId: string, thumbId: string, webpId: string, image: ImageOutcome,
                 writeOk: bool, insertOk: bool)
      returns (r: Result<UploadedMedia>)
      requires Valid()
      modifies this
      ensures Valid()
      ensures !writeOk ==> r == Err(Internal) && unchanged(this)
      ensures writeOk ==>
        var rec := NewRecord(a, fileId, Derived(a.file.mimeType, a.tenant.id, image, thumbId, webpId), env, old(clock));
        && files == old(files) + RecordFiles(rec)
        && (insertOk ==> r == Ok(Uploaded(rec)) && records == old(records) + [rec] && clock == old(clock) + 1)
        && (!insertOk ==> r == Err(Internal) && records == old(records) && clock == old(clock))
    {
      if !writeOk {
        return Err(Internal);
      }
      var v := DeriveVariants(a.file.mimeType, a.tenant.id, image, thumbId, webpId);
      var rec := NewRecord(a, fileId, v, env, clock);
      var written := RecordFiles(rec);
      UploadKeepsInvariant(records, files, clock, a, fileId, image, thumbId, webpId, env);
      files := files + written;
      if !insertOk {
        return Err(Internal);
      }
      records := records + [rec];
      clock := clock + 1;
      r := Ok(Uploaded(rec));
    }

    /** GET: a session and a tenant are required; the listing holds the
        tenant's clean media, narrowed by type when asked, newest first. */
    method List(session: Option<Principal>, tenant: Option<Tenant>, typeParam: Option<string>)
      returns (r: Result<seq<MediaView>>)
      ensures session.None? ==> r == Err(Unauthorized)
      ensures session.Some? && tenant.None? ==> r == Err(TenantNotFound)
      ensures session.Some? && tenant.Some? ==> r.Ok?
      ensures r.Ok? ==> session.Some? && tenant.Some?
      ensures r.Ok? ==> forall v | v in r.value ::
        exists rec | rec in records :: Listable(rec, tenant.value.id, typeParam) && v == View(rec)
      ensures r.Ok? ==> forall rec | rec in records && Listable(rec, tenant.value.id, typeParam) :: View(rec) in r.value
      ensures r.Ok? ==> forall i, j | 0 <= i < j < |r.value| :: r.value[i].createdAt >= r.value[j].createdAt
      ensures r.Ok? ==>
        exists rows :: r.value == Views(rows) && multiset(rows) == multiset(ListableRecords(records, tenant.value.id, typeParam))
    {
      if session.None? {
        return Err(Unauthorized);
      }
      if tenant.None? {
        return Err(TenantNotFound);
      }
      var where := MediaWhere(tenant.value.id, true, Clean, None);
      if typeParam.Some? && typeParam.value != "" && (typeParam.value == "IMAGE" || typeParam.value == "DOCUMENT") {
        where := where.(mediaType := Some(if typeParam.value == "IMAGE" then Image else Document));
      }
      assert forall rec :: MatchesWhere(where)(rec) <==> Listable(rec, tenant.value.id, typeParam);
      var found := FindMany(records, where);
      FindManyMembers(records, where);
      FilterCongruent(records, MatchesWhere(where), (rec: MediaRecord) => Listable(rec, tenant.value.id, typeParam));
      ViewsOfMembers(found);
      r := Ok(Views(found));
    }
  }

  /** A PNG uploaded by an editor under the default configuration, with every
      image step succeeding, is recorded with both variants, its dimensions,
      and a clean scan status. */
  method PngUploadScenario(editor: Principal, tenant: Tenant)
    requires editor.role == Editor
  {
    var store := new MediaStore();
    var png := UploadFile("photo.png", "image/png", 51200);
    var image := ImageOutcome(Some(Dimensions(Some(800), Some(600))), true, true);
    assert "image/png" == DEFAULT_ALLOWED_MIME_TYPES[0];
    var r := store.Upload(Some(editor), Some(tenant), Some(png), DEFAULT_CONFIG, "f1", "t1", "w1", image, true, true);
    assert StartsWith("image/png", "image/");
    assert r.Ok?;
    assert |store.records| == 1;
    var rec := store.records[0];
    assert rec.variants.thumbnailPath.Some? && rec.variants.webpPath.Some?;
    assert rec.variants.width == Some(800) && rec.variants.height == Some(600);
    assert rec.scan == ScanState(true, Clean);
    assert rec.mediaType == Image;
  }
}
