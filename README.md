# Microsite CMS: media ingestion and page creation, modelled in Dafny

This project models the two collection route handlers of a multi-tenant
content-management backend. Each tenant is resolved from the request's domain,
and every row it owns carries its `tenantId`.

- **Media** (`src/app/api/media/route.ts`).
  - `POST` uploads a file. It runs an ordered chain of guards: role (403), tenant (404), file present, size and MIME type (400).
  - It then stores the file as `uploads/<tenantId>/<freshId>.<ext>`.
  - For raster images it tries a thumbnail and a WebP copy; a failure there is swallowed.
  - It classifies the file as IMAGE or DOCUMENT, sets the scan flags from `ANTIVIRUS_ENABLED`, and inserts one record.
  - `GET` lists the tenant's scanned, clean media, narrowed by type only on an exact `IMAGE`/`DOCUMENT` parameter, newest first, with public URLs.
- **Pages** (`src/app/api/pages/route.ts`).
  - `POST` checks the role (403) and the tenant (404), then the body against the page schema (400).
  - It then looks up the unique key (tenant, slug, locale): a hit answers 409.
  - Otherwise it inserts one DRAFT page for the requesting tenant.
  - `GET` needs only a session (VIEWER allowed). It lists the tenant's pages in the requested locale (default `es-CO`), narrowed by status only on an exact `DRAFT`/`STAGING`/`PUBLISHED`, most recently updated first.

Layout:

- `common.dfy` (module `Common`): principal, role, tenant, the error taxonomy with its HTTP statuses, `Option` and `Result`.
- `query.dfy` (module `Query`): the part of the database query engine the list handlers use, a `where` filter and an `orderBy … desc`, proved to keep exactly the matching rows and to sort them.
- `media.dfy` (module `Media`): the upload pipeline as pure functions; the variant step as an imperative method; the media table and the files on disk as the class `MediaStore`.
- `pages.dfy` (module `Pages`): the request-body schema, the unique-key lookup, and the page table as the class `PageStore`.

Several external values become parameters:

- the session and the tenant;
- the decoded request body (None when it is not valid JSON);
- the uploaded file's name, type and size;
- the fresh ids the source draws from nanoid;
- the configuration values;
- the outcome of each image-processing step;
- whether the original-file write and the record insert succeed.

Time is the store's clock, a counter that stamps ids, `createdAt` and `updatedAt`.

Two JavaScript behaviours are kept as written:

- A stored variant path that is an empty string yields a null URL, because of the truthiness test.
- A request body that is not JSON at all makes `request.json()` throw an error that is not a schema error. The create handler therefore answers 500 (`Internal`), not 400.

## Model

| member | source | states |
|---|---|---|
| Media.UploadGuard | src/app/api/media/route.ts:20-51 | 403 exactly when there is no session or the role is VIEWER, checked first; 404 exactly when the role passes and the tenant is missing; 400 exactly when those pass and the file is missing, larger than the ceiling, or of a type not in the allow-list; success exactly when an editor or super-admin uploads, for a resolved tenant, a present file within the ceiling whose type is listed, and then it carries that session, tenant and file |
| Media.DefaultConfigBoundaries | src/app/api/media/route.ts:11-15 | with the default configuration a file of exactly 10485760 bytes passes and one byte more is refused as too large; `image/jpg` is accepted; `image/gif` is refused |
| Media.Extension | src/app/api/media/route.ts:54 | the extension contains no dot |
| Media.ExtensionIsSuffix | src/app/api/media/route.ts:54 | the extension ends the name, and is either the whole name or preceded by a dot |
| Media.ExtensionAfterLastDot | src/app/api/media/route.ts:54 | for any stem and any dot-free text, the extension of `stem.text` is exactly that text |
| Media.ExtensionWithoutDot | src/app/api/media/route.ts:54 | a name with no dot is its own extension |
| Media.StoredFilenameKeepsExtension | src/app/api/media/route.ts:54-55 | the stored filename `<freshId>.<ext>` has the same extension as the uploaded name |
| Media.InTenantDir | src/app/api/media/route.ts:56-57 | every stored path starts with `uploads/<tenantId>/` |
| Media.InTenantDirInjective | src/app/api/media/route.ts:56-57 | for tenant ids without `/`, equal paths mean the same tenant and the same file name, so tenants' files never collide |
| Media.DeriveVariants | src/app/api/media/route.ts:70-119 | the step-by-step processing yields exactly the variants of `Derived`, and they obey the rules: any variant or dimension is set only for a raster type (an `image/` type other than SVG); a WebP path only with a thumbnail path and never for `image/webp` |
| Media.VariantsForKnownTypes | src/app/api/media/route.ts:76-115 | when every step succeeds, a PNG gets a WebP copy, a WebP source gets a thumbnail but no WebP copy, and SVG and PDF get no variants at all |
| Media.InitialScan | src/app/api/media/route.ts:138-139 | `scanned` is true exactly when the status is `clean`, which holds exactly when `ANTIVIRUS_ENABLED` is unset, empty or `false`; otherwise the status is `pending`, never `infected` |
| Media.PublicUrl | src/app/api/media/route.ts:152-154 | a URL is produced exactly for a present, non-empty path; it is `/` followed by the path, so dropping the slash gives the path back |
| Media.NewRecordWellFormed | src/app/api/media/route.ts:121-141 | the inserted record lies in its tenant's directory; its variant paths lie there too; its type is IMAGE exactly for `image/` types, SVG included; its variants obey the rules; it is scanned exactly when clean |
| Media.InsertKeepsInvariant | src/app/api/media/route.ts:124-141 | writing files, and then inserting a well formed record whose files exist and that carries the clock's stamp, keeps the store invariant |
| Media.UploadKeepsInvariant | src/app/api/media/route.ts:53-141 | the files an upload writes, and then the record it inserts, keep the store invariant |
| Media.MediaStore.Upload | src/app/api/media/route.ts:18-173 | a refused upload returns the guard's error and changes neither records nor files; a failed original write changes nothing; otherwise the original and produced variants are written; then either exactly one `NewRecord` is appended for the requesting tenant and the response carries its URLs, or (insert failure) 500 with the table unchanged; the image outcome never prevents the record |
| Media.MediaStore.Store | src/app/api/media/route.ts:53-173 | the steps after the guards: a failed original write changes nothing; otherwise the files grow by exactly the record's files, and the insert outcome decides between appending the record (answering its URLs) and 500 with the table unchanged |
| Media.MediaStore.List | src/app/api/media/route.ts:176-240 | 401 without a session, 404 without a tenant; otherwise every listed entry is the view of a stored record of the tenant that is scanned and clean (and of the named type when the parameter is exactly IMAGE or DOCUMENT), every such record is listed, and entries are in descending `createdAt`; the listing is the views of a permutation of the table's listable records, so each is listed exactly once |
| Media.FindManyMembers | src/app/api/media/route.ts:206-209 | the query returns exactly the table's records that match the `where` object (tenant, scanned, scan status, optional type), each as often as in the table, in descending `createdAt` |
| Media.FindManyIgnoresUnmatched | src/app/api/media/route.ts:191-208 | appending a record the `where` object does not match leaves the query result unchanged |
| Media.UploadInvisibleToOtherTenants | src/app/api/media/route.ts:196-197 | a record of another tenant never changes a tenant's listing |
| Media.PendingUploadNotListed | src/app/api/media/route.ts:198-199 | a record pending its scan never changes a listing of clean media |
| Query.Filter | src/app/api/media/route.ts:206-207 | the filtered rows are exactly the table's rows that match, never more rows than the table |
| Query.FilterAppend | src/app/api/pages/route.ts:52-53 | a row appended to the table appears at the end of the filtered rows when it matches, and not at all otherwise |
| Query.FilterCongruent | src/app/api/pages/route.ts:43-53 | two conditions that agree on every row select the same rows |
| Query.InsertDesc | src/app/api/pages/route.ts:54 | placing a row adds exactly that row, and it lands at the front or after the old first row |
| Query.InsertDescSorted | src/app/api/pages/route.ts:54 | placing a row into a descending order keeps it descending |
| Query.SortDesc | src/app/api/media/route.ts:208 | the result is in descending key order and is a permutation of the input |
| Pages.ParseCreatePage | src/app/api/pages/route.ts:8-18 | the body is accepted exactly when it is an object with a non-empty string `slug` and `title`, a `locale` that is absent or one of es-CO, es-DO, en, and string-or-absent optional text fields; an absent locale becomes es-CO; slug, title, locale, the five optional text fields and `layout` are taken from the body as given (absent stays absent); every rejection is a validation error |
| Pages.ParseIgnoresUnknownKeys | src/app/api/pages/route.ts:101-106 | a key outside the schema, `status` or `tenantId` included, never changes the parse result, so the create data consists of schema fields only |
| Pages.CreateGuard | src/app/api/pages/route.ts:70-81 | 403 exactly without a session or for a VIEWER; 404 exactly when the role passes and the tenant is missing; 500 exactly when those pass and the body is not JSON at all; 400 exactly when the body is JSON but does not match the schema; success exactly when an editor or super-admin sends, for a resolved tenant, a body matching the schema, and then the data is the parse of the body |
| Pages.FindUnique | src/app/api/pages/route.ts:84-92 | a hit is a stored page with exactly the requested tenant, slug and locale; a miss means no stored page has that key |
| Pages.OtherTenantNeverConflicts | src/app/api/pages/route.ts:84-92 | adding a page of another tenant never changes a tenant's lookup, so the same slug and locale under different tenants never conflict |
| Pages.InsertKeepsInvariant | src/app/api/pages/route.ts:94-106 | inserting a page whose key the lookup did not find, stamped with the clock, keeps the key (tenant, slug, locale) unique across the table |
| Pages.PageStore.Create | src/app/api/pages/route.ts:68-122 | a guard failure returns its error and changes nothing; an existing key answers 409 and changes nothing; otherwise exactly one DRAFT page is appended, carrying the requesting tenant's id and the parsed fields, and the other pages are untouched |
| Pages.PageStore.List | src/app/api/pages/route.ts:21-65 | 401 without a session (any role passes); 404 without a tenant; otherwise a page is listed exactly when it is the tenant's, in the requested locale (es-CO when missing or empty), and of the named status when the parameter is exactly DRAFT, STAGING or PUBLISHED; the result is a permutation of the table's listable pages, so each is listed exactly once; results are in descending `updatedAt` |
| Pages.FindManyMembers | src/app/api/pages/route.ts:52-55 | the query returns exactly the table's pages that match the `where` object, each as often as in the table, most recently updated first |
| Pages.CreateInvisibleToOtherTenants | src/app/api/pages/route.ts:43-46 | a page created for another tenant never changes a tenant's listing |

The contracts above are stated through these definitions, which follow the cited lines directly:

- `Media.IsRaster` (src/app/api/media/route.ts:76): an `image/` type other than `image/svg+xml`.
- `Media.MediaTypeOf` (src/app/api/media/route.ts:122): IMAGE for every `image/` type, SVG included, DOCUMENT otherwise.
- `Media.NewRecord` (src/app/api/media/route.ts:124-141): the inserted record's columns.
- `Media.Uploaded` (src/app/api/media/route.ts:148-162): the body of the upload response.
- `Media.View` and `Media.Views` (src/app/api/media/route.ts:225-231): a listed record with its public URLs.
- `Media.ListableRecords` and `Pages.ListablePages`: the table's rows a listing must show, in table order.
- `Pages.NewPage` (src/app/api/pages/route.ts:101-106): the inserted page, with the parsed fields, the requesting tenant, status DRAFT, and the clock's stamps.
- `Pages.StatusNamed` (src/app/api/pages/route.ts:48): the status an exact DRAFT, STAGING or PUBLISHED parameter names.

## Left out

- Image processing itself: resizing to 300×300 inside, JPEG and WebP encoding at quality 80, reading metadata. Each step is only an outcome, success or failure, plus the reported width and height.
- The `public/` root, `process.cwd()` and `mkdir`: paths are relative to the public root, and the set of written files stands for the disk.
- Path normalisation by `join`: paths are joined with `/`. The two agree when tenant ids are non-empty and tenant ids and file names hold no `/` and no `.`/`..` segments. For an empty tenant id, `join('uploads', '')` gives `uploads/<name>` while `InTenantDir` gives `uploads//<name>`. `Media.InTenantDirInjective` assumes tenant ids without `/`.
- A failure of `request.formData()` in the upload (src/app/api/media/route.ts:30) is answered 500 by the catch-all; the model takes the form as already parsed, so it cannot produce that answer. The create handler's `request.json()` failure is modelled.
- The session's own `tenantId` (src/types/next-auth.d.ts:11) is never compared with the tenant resolved from the request by either handler, and the model does not compare them either. The tenant-isolation lemmas (`UploadInvisibleToOtherTenants`, `CreateInvisibleToOtherTenants`) are about tenants as resolved from requests, not about which tenant a user belongs to.
- Environment parsing: `parseInt` of `MAX_FILE_SIZE` (a non-numeric value yields NaN, which the source's comparison lets every size through) and the comma split of `ALLOWED_MIME_TYPES`. The configuration is taken as already parsed.
- Error message texts, including the size in MB computed with floating point.
- Console logging, and the 500 answers of the list handlers and of the page insert when the database fails. The media upload does model a failed original write and a failed insert.
- The check-then-create race in page creation: the model is sequential, so the lookup alone keeps the key unique.
- Whether the database accepts a page without `layout`: the page table's schema is not part of this model. A missing `layout` is stored as absent.
- JSON numbers are integers in the body model; the create handler only passes `layout` through, so no other number matters.
- The single-page routes are not part of this model: `src/app/api/pages/[id]/route.ts` (read, update, delete) and `src/app/api/pages/[id]/publish/route.ts` (staging and production publish, preview token). The same goes for markdown rendering (`src/lib/markdown.ts`) and tenant resolution (`src/lib/tenant.ts`).
- An external scanner that would later mark media clean or infected does not exist in the source and is not modelled. Records keep the scan state they were created with.
