# Material passport tool — a Dafny model

The material passport tool lets building-industry users record material passports in the
BAMB format. Each passport holds:

- physical properties;
- chemical constituents;
- product identifiers;
- circularity ratings;
- EN 15804 life-cycle figures (GWP of stages A1-A3, Stage D).

Users can also import data from spreadsheets and IFC models and export a passport as a JSON
document. This project models the server (the HTTP handlers, the storage layer and the record
schema) and the client pieces that carry logic:

- the passport editor's completion tracker and constituent list;
- the import page's upload, polling and component selection;
- the LCA panel;
- the list page's search filter;
- the file picker's validation;
- the passport card;
- the header's navigation.

Layout, one module per file:

| module | models |
|---|---|
| `Wrappers` | `Option` |
| `Numbers` | JavaScript numbers as a finite real or NaN. `parseFloat` and `toString` are a `NumberFormat` parameter. |
| `Strings` | The ASCII string built-ins the source calls. |
| `Schema` | The tables, their defaults and the insert schemas. |
| `Derivation` | The derived columns weight, gwpTotal and netGwp. |
| `Ordering` | Newest-first collection of rows. |
| `Storage` | The database as a class `Store` of maps and serial counters. |
| `Routes` | The handlers, as methods on a `Store`. |
| `PassportForm`, `DataImport`, `LcaCalculations`, `MaterialPassports`, `FileUpload`, `PassportCard`, `AppHeader` | The client. Components with state become classes (`Editor`, `ImportPage`, `Picker`) whose methods are the event handlers. |

The session user id, the clock, the uploaded file, the parsed worksheet and the MIME matcher
are parameters.

The role policy in brief:

- **Viewers** may not create, edit or import.
- **Authors only** may delete passports, and only their own.
- **Authors** list and count every row. Anyone else, including a user without a record, sees
  only their own rows.
- **Reads by id** (passport, job, export) check no ownership.

Two places in the source do not do what they are evidently intended to do; see "## Findings". The PUT handler says it
auto-calculates weight from density and volume (server/routes.ts:128), yet a volume-only PUT keeps the old weight. Each
import card has its own upload (client/src/pages/DataImport.tsx:242, :351), yet the first IFC file goes to the Excel endpoint. In
both places the model records the code as written in a dedicated member and uses the
corrected behaviour everywhere else.

## Model

| member | source | states |
|---|---|---|
| Numbers.OrElse | client/src/pages/PassportForm.tsx:443 | `x \|\| d` on a number: a finite non-zero value is kept; zero and NaN give the default. |
| Strings.Lower | client/src/pages/MaterialPassports.tsx:66 | `toLowerCase` keeps the length and lowers every character position-wise. |
| Strings.Trim | client/src/components/FileUpload.tsx:41 | The trimmed text is a slice of the input between blanks only: everything before and after it is whitespace. It neither starts nor ends with whitespace. |
| Strings.SkipBlanks | client/src/components/FileUpload.tsx:41 | Where `trim` starts: every character skipped is whitespace, and the one it stops at is not. |
| Strings.BackBlanks | client/src/components/FileUpload.tsx:41 | Where `trim` ends: every character dropped from the end is whitespace, and the one before the stop is not. |
| Strings.TrimKeepsUnblankedEnds | client/src/components/AppHeader.tsx:65 | Text that neither starts nor ends with whitespace is left unchanged by `trim`. |
| Strings.Split | client/src/components/FileUpload.tsx:41 | `split` on one character gives at least one part, and no part contains the separator. |
| Strings.JoinSplit | client/src/components/FileUpload.tsx:41 | Joining the parts of a split with the same separator gives the original string back. |
| Strings.SplitWithoutSeparator | client/src/components/FileUpload.tsx:41 | `split` of a string without the separator gives that string as its only part. |
| Strings.LastSegment | client/src/components/FileUpload.tsx:42 | `split(sep).pop()` contains no separator. |
| Strings.LastSegmentIsSuffix | client/src/components/FileUpload.tsx:42 | The last segment is a suffix of the string. When the string has a separator, the segment directly follows one. |
| Strings.ParseNatToString | server/routes.ts:245 | Reading the decimal text of a natural number gives back the number. |
| Schema.NewUser | shared/schema.ts:28-37 | A new user has the supplied id and columns; absent and explicitly null columns are null; role "viewer" unless given, and both timestamps now. |
| Schema.UpdatedUser | server/storage.ts:55-68 | On an id conflict, each key present replaces the stored column, and an explicit null clears it. Absent keys keep the stored value. `updatedAt` becomes now. Id and `createdAt` are kept. |
| Schema.InAllFields | shared/schema.ts:40-87 | Every passport column is among the columns a body may carry. |
| Schema.OmittedKeys | shared/schema.ts:123-128 | No column's key is `authorId`, `id`, `createdAt` or `updatedAt`. |
| Schema.ParseBody | shared/schema.ts:123-128 | The payload has a column exactly when the body has its key, with the body's value. Unknown keys are stripped. |
| Schema.ParsePassportBody | server/routes.ts:90 | Parsing succeeds iff every column value has its type (null only on nullable columns) and, on POST, name and category are present. The result is the stripped body. |
| Schema.ParsedBodyIgnoresOtherKeys | shared/schema.ts:123-128 | Adding or changing a body key that names no column leaves the payload unchanged. |
| Schema.BodyCannotNameOwnerOrKeys | shared/schema.ts:123-128 | Whatever the body says under `authorId`, `id`, `createdAt` or `updatedAt`, the payload is the same. A client cannot pick the owner or the key. |
| Schema.NewPassport | server/storage.ts:92-98 | An insert gets the given id, owner and timestamps. Status defaults to "draft" and svhcFlag/reachCompliance to false. Every payload column is stored as given. The row satisfies the schema. |
| Schema.DefaultsUnderPayload | server/storage.ts:92-98 | The column defaults under a valid insert payload form a row that satisfies the schema. Each payload column keeps its value, and an omitted status or flag takes its default. |
| Schema.UpdatedPassport | server/storage.ts:100-114 | An update overwrites exactly the patched columns, keeps the rest, id, owner and `createdAt`, sets `updatedAt`, and keeps the row well-formed. |
| Schema.ParseComponentBody | shared/schema.ts:130-134 | Parsing succeeds iff name and category are text and description, ifcGuid and passportId are absent, null or of their type. The result carries those values, including passportId as the given integer. |
| Schema.NewImportJob | shared/schema.ts:102-111 | A new job has the given type, file, owner and time. Status defaults to "processing"; result and error are null. |
| Schema.UpdatedImportJob | server/storage.ts:165-172 | Supplied keys replace the job's values, and an explicit null clears the result or the error. Absent keys keep them. Id, owner and `createdAt` stay. |
| Derivation.PresentIsTruthy | server/routes.ts:93 | On a validated payload, a decimal column counts as present exactly when it is truthy. |
| Derivation.DerivePayload | server/routes.ts:92-106 | Weight is set to density·volume iff both are present, and gwpTotal to A1+A2+A3 iff all three are. netGwp is set to that sum minus Stage D iff those and Stage D are present. Every other column, and every derived column whose inputs are missing, passes through unchanged. |
| Derivation.NetGwpNeedsTotal | server/routes.ts:98-106 | netGwp is never written unless the same request also writes gwpTotal. |
| Derivation.DeriveKeepsValid | server/routes.ts:92-108 | The derived payload is still valid for the insert schema, so storage accepts it. |
| Derivation.DerivedColumnAccepted | server/routes.ts:92-108 | Each column of the derived payload is accepted by its schema type: a derived column holds decimal text, and any other column is the one supplied. |
| Derivation.DeriveEstablishesConsistency | server/routes.ts:92-106 | After derivation, each derived column agrees with its inputs whenever they are present. |
| Derivation.DeriveIdempotent | server/routes.ts:92-106 | Deriving a derived payload again changes nothing. |
| Derivation.ConsistentOverUnrelated | shared/schema.ts:44 | Columns that derivation neither reads nor writes, laid underneath a consistent record, keep it consistent. |
| Derivation.CreatedPassportConsistent | server/routes.ts:92-109 | A freshly created passport, with its column defaults, has consistent derived columns. |
| Derivation.PartialPutLeavesWeightStale | server/routes.ts:128-131 | As written: a passport created with density 2.5 and volume 4 stores weight "10". After a PUT of volume "2" it still says "10" and is inconsistent. |
| Derivation.PartialPutKeepsStoredWeight | server/routes.ts:128-131 | As written: a PUT carrying only a volume never changes the stored weight. |
| Derivation.DeriveOnMerged | server/routes.ts:126-144 | Corrected: deriving over the stored row merged with the patch leaves the updated row consistent. It keeps every supplied and every stored non-derived column, and the result is a valid patch. |
| Derivation.MergedIsConsistent | server/routes.ts:126-144 | Corrected: the stored row overlaid with the derivation over the merge has consistent derived columns. |
| Derivation.MergedIsValid | server/routes.ts:126-144 | Corrected: the derivation over a well-formed stored row merged with a valid patch is itself a valid patch. |
| Derivation.MergedPutRecomputesWeight | server/routes.ts:128-131 | Corrected: after a PUT carrying only a volume, the stored weight is the stored density times the new volume. |
| Ordering.InsertByKey | server/storage.ts:75 | Inserting into a newest-first list keeps it newest-first, adds exactly the new element and keeps every old one. |
| Ordering.SplicedMembers | server/storage.ts:75 | Splicing an element in at a position adds one to the length, contains the new element and keeps every old one. |
| Ordering.SplicedOrder | server/storage.ts:75 | Splicing at the insertion point keeps a newest-first list newest-first. |
| Ordering.InsertKeepsIdsDistinct | server/storage.ts:75 | Inserting a row with a new id keeps the ids of the list distinct. |
| Ordering.CollectNewestFirst | server/storage.ts:71-82 | The result is every kept row of the table exactly once, nothing else, ordered by key, largest first. |
| Storage.DisjointParts | server/storage.ts:185-187 | Two disjoint subsets never outnumber the set. Their sizes add up to its size iff they cover it. |
| Storage.Store.constructor | server/storage.ts:208 | A fresh storage holds no rows, and every serial counter starts at 1. |
| Storage.Store.GetUser | server/storage.ts:50-53 | Returns the user stored under the id, or none when there is no such user. |
| Storage.Store.UpsertUser | server/storage.ts:55-68 | Inserts a new user, or on conflict writes every key present (null included). Only the users table changes. |
| Storage.Store.GetMaterialPassports | server/storage.ts:71-82 | Every passport of the scope exactly once and no other, most recently updated first. An empty author id filters nothing. |
| Storage.Store.GetMaterialPassport | server/storage.ts:84-90 | Returns the passport with the id, whatever its owner, or none. |
| Storage.Store.CreateMaterialPassport | server/storage.ts:92-98 | Stores the new passport under the next serial id, which was unused. Nothing else changes. |
| Storage.PassportRowAdded | server/storage.ts:92-98 | The next serial id is unused. Adding a well-formed row under it keeps every passport row under its own id, below the advanced counter, and within the schema. |
| Storage.Store.UpdateMaterialPassport | server/storage.ts:100-114 | A row comes back iff one with that id and author existed, and only then is it updated. Otherwise nothing changes. |
| Storage.Store.DeleteMaterialPassport | server/storage.ts:116-124 | Reports true iff a row with that id and author existed, and only then removes it. |
| Storage.Store.GetComponents | server/storage.ts:127-138 | Every component of the scope exactly once and no other, newest first. |
| Storage.Store.CreateComponent | server/storage.ts:140-146 | Stores the component under the next serial id with the caller as owner. Nothing else changes. |
| Storage.Store.CreateImportJob | server/storage.ts:149-155 | Stores the job under the next serial id with the column defaults. Nothing else changes. |
| Storage.Store.GetImportJob | server/storage.ts:157-163 | Returns the job with the id, whatever its owner, or none. |
| Storage.Store.UpdateImportJob | server/storage.ts:165-172 | A job comes back iff the id exists, merged with the update. Otherwise nothing changes. |
| Storage.Store.StatusPartition | server/storage.ts:186-187 | The complete and the draft rows of a scope cover it iff no row of it has another status. |
| Storage.Store.GetDashboardStats | server/storage.ts:175-205 | The counts are the sizes of the scoped row sets, and completed + inProgress ≤ total. Equality holds iff every scoped row is complete or draft. |
| Routes.IsViewer | server/routes.ts:86 | `user?.role === 'viewer'`: a caller without a record is never a viewer. A caller with a record is one iff the role is exactly "viewer". |
| Routes.IsAuthor | server/routes.ts:158 | `user?.role === 'author'`: a caller without a record is never an author. A caller with a record is one iff the role is exactly "author". |
| Routes.ListScope | server/routes.ts:55 | The rows a caller may list are unfiltered iff the caller's record has the author role; otherwise the filter is the caller's id. |
| Routes.RoleLattice | server/routes.ts:158 | An author is never a viewer. A caller without a user record is neither. |
| Routes.AuthUser | server/routes.ts:20-29 | Always 200. The body is the user stored under the session id, or no user when the table has none. In a valid store, the record returned carries the session id. |
| Routes.DashboardStatsRoute | server/routes.ts:32-46 | 200 with the counts over everything for an author, and over the caller's own rows for anyone else. |
| Routes.ListPassports | server/routes.ts:49-63 | 200 with every visible passport once and no other, newest first. Authors see all rows; anyone else sees rows they own or, with an empty id, all rows. |
| Routes.GetPassport | server/routes.ts:65-79 | 200 with the passport iff it exists, otherwise 404 "Passport not found". |
| Routes.PassportWrite | server/routes.ts:90-106 | A POST body parses iff it is valid. The payload stored is the derived payload, still valid, and consistent once the defaults are added. |
| Routes.CreatePassport | server/routes.ts:81-114 | 403 iff the caller is a viewer; 400 iff the body does not parse; otherwise 201 with the new passport. The new passport is owned by the caller, stored under a fresh id, and consistent. Nothing changes on 400/403. |
| Routes.UpdatePassport | server/routes.ts:116-150 | 403 iff a viewer and 400 iff the body does not parse. Otherwise 200, with the updated passport iff the caller owns it; the updated row is consistent. An unowned row gets no body and is not changed. |
| Routes.DeletePassport | server/routes.ts:152-172 | 403 iff not an author. 204 iff an author deletes a row they own, which then disappears. 404 "Passport not found" otherwise, with nothing changed. |
| Routes.ListComponents | server/routes.ts:175-189 | 200 with every visible component once and no other, newest first. Visibility follows the same rule as passports. |
| Routes.CreateComponentRoute | server/routes.ts:191-207 | 403 iff a viewer; 400 iff the body does not parse; otherwise 201 with the component owned by the caller under a fresh id. |
| Routes.ImportedMessage | server/routes.ts:245 | The message has the form "Successfully imported … rows". |
| Routes.ImportedMessageCount | server/routes.ts:245 | The row count can be read back from the message. |
| Routes.ImportExcel | server/routes.ts:210-259 | 403 iff a viewer and 400 iff no file. Otherwise, if the sheet reads, 200 with the rows and a completed job holding them. If it does not read, 500 and a failed job with "Failed to process Excel file". |
| Routes.ImportIfc | server/routes.ts:261-303 | 403 iff a viewer and 400 iff no file. Otherwise 200 "IFC file processing started" with the id of a new processing job. |
| Routes.CompleteIfcJob | server/routes.ts:282-293 | Applies only to an IFC job that is still processing. The timer completes that job with the three mock components and changes nothing else. Afterwards the job is no longer processing, so it cannot fire twice. |
| Routes.GetJob | server/routes.ts:305-319 | 200 with the job iff it exists, otherwise 404 "Import job not found". |
| Routes.ExportJson | server/routes.ts:332-365 | The BAMB document carries the passport id and the standard "ISO 14040/44, ISO 20887, ISO 12006-3, ISO 23387". |
| Routes.ExportCarriesColumn | server/routes.ts:332-362 | Every exported column appears in the document with the passport's value; gwpTotal appears as `gwpA1A3`. |
| Routes.ExportRoundTrip | server/routes.ts:332-362 | Reading the document back gives exactly the passport's non-null exported columns. |
| Routes.ExportPassport | server/routes.ts:322-374 | 200 with the document iff the passport exists, otherwise 404 "Passport not found". |
| PassportForm.CountFilled | client/src/pages/PassportForm.tsx:111-114 | The number of filled fields is at most the number of fields, and equal iff every field is filled. |
| PassportForm.Completed | client/src/pages/PassportForm.tsx:111-117 | Between 1 and 17 of the seventeen requirements are met. |
| PassportForm.ServiceLifeCounted | client/src/pages/PassportForm.tsx:105-113 | The numeric service life always counts as filled, even when NaN. |
| PassportForm.ProgressFormula | client/src/pages/PassportForm.tsx:119 | The rounded percentage equals (200k + 17) div 34. |
| PassportForm.NoTies | client/src/pages/PassportForm.tsx:119 | The exact percentage is never half-way between integers, so the rounding mode cannot matter. |
| PassportForm.ProgressBounds | client/src/pages/PassportForm.tsx:119 | Progress is in 0..100, and is 100 iff all 17 requirements are met. |
| PassportForm.ProgressStrictlyIncreasing | client/src/pages/PassportForm.tsx:119 | Meeting one more requirement always raises the percentage shown. |
| PassportForm.FormProgress | client/src/pages/PassportForm.tsx:103-120 | The shown progress is in 6..100, and is 100 iff every tracked field is filled and some constituent has a material and a positive share. |
| PassportForm.ProgressBadge | client/src/pages/PassportForm.tsx:271-273 | The badge says "Complete" iff progress is 100, else "Draft". |
| PassportForm.FillingRaisesCount | client/src/pages/PassportForm.tsx:111-114 | Typing into a field never lowers the count, and raises it when the field is tracked and was empty. |
| PassportForm.FillingRaisesProgress | client/src/pages/PassportForm.tsx:103-120 | Typing into an empty tracked field raises the progress shown. |
| PassportForm.Validates | client/src/pages/PassportForm.tsx:26-57 | The client schema: a form that passes it has every field the tracker counts filled. |
| PassportForm.RequiredFieldsAreTexts | client/src/pages/PassportForm.tsx:105-109 | Every tracked field except the service life is one of the texts the client schema requires. |
| PassportForm.ValidatedFormProgress | client/src/pages/PassportForm.tsx:26-57 | A form that passes the client schema shows at least 94 percent. |
| PassportForm.ValidatedYetDraft | client/src/pages/PassportForm.tsx:36-39 | A form with one blank constituent passes the client schema while the badge still says Draft. |
| PassportForm.WithMaterial | client/src/pages/PassportForm.tsx:429-433 | Editing entry i's material changes only that entry's material. |
| PassportForm.WithPercentage | client/src/pages/PassportForm.tsx:441-445 | Editing entry i's percentage sets it to `parseFloat(input) \|\| 0` and changes nothing else. |
| PassportForm.Without | client/src/pages/PassportForm.tsx:453-456 | Removing entry i keeps the other entries in order. While Remove is offered, at least one entry remains. |
| PassportForm.WithAdded | client/src/pages/PassportForm.tsx:467 | Add appends one blank entry. |
| PassportForm.RemoveAddedIsIdentity | client/src/pages/PassportForm.tsx:448-467 | Removing the entry just added restores the list. |
| PassportForm.AddingKeepsCompleteness | client/src/pages/PassportForm.tsx:116 | Adding a blank entry neither makes nor breaks the constituent requirement. |
| PassportForm.FormOfPassport | client/src/pages/PassportForm.tsx:136-158 | A loaded field is filled iff the stored value is non-empty text; the service life falls back to 50. |
| PassportForm.ConstituentsOf | client/src/pages/PassportForm.tsx:146 | A stored list is kept, even an empty one. Every falsy value (null, "", false, 0) becomes one blank entry. A truthy non-list also gives one blank entry; see "## Left out". |
| PassportForm.Save | client/src/pages/PassportForm.tsx:164-169 | PUT to the passport's URL iff an id is being edited, else POST to the collection. The edited constituent list replaces the form's. |
| PassportForm.Editor.constructor | client/src/pages/PassportForm.tsx:68-93 | The editor starts with empty texts, service life 50 and one blank constituent in both lists. |
| PassportForm.Editor.Load | client/src/pages/PassportForm.tsx:136-161 | Loading resets the form and the constituent list from the passport. |
| PassportForm.Editor.EditMaterial | client/src/pages/PassportForm.tsx:429-433 | The list becomes `WithMaterial` of the old one; the form is unchanged. |
| PassportForm.Editor.EditPercentage | client/src/pages/PassportForm.tsx:441-445 | The list becomes `WithPercentage` of the old one; the form is unchanged. |
| PassportForm.Editor.Remove | client/src/pages/PassportForm.tsx:448-456 | The list loses entry i and is never left empty. |
| PassportForm.Editor.Add | client/src/pages/PassportForm.tsx:467 | The list gains one blank entry. |
| DataImport.RemoveAll | client/src/pages/DataImport.tsx:205 | Filtering out an id removes every copy of it and keeps every other id. |
| DataImport.RemoveAbsent | client/src/pages/DataImport.tsx:205 | Filtering out an absent id leaves the list as it was. |
| DataImport.RemoveKeepsNoDuplicates | client/src/pages/DataImport.tsx:202-208 | Filtering keeps a duplicate-free list duplicate-free. |
| DataImport.Toggle | client/src/pages/DataImport.tsx:202-208 | After a toggle the id is selected iff it was not; other ids are unaffected; an absent id is appended. |
| DataImport.ToggleTwice | client/src/pages/DataImport.tsx:202-208 | Toggling twice restores the id's membership, and the list itself when the id was absent. |
| DataImport.ToggleKeepsNoDuplicates | client/src/pages/DataImport.tsx:202-208 | Toggling never creates a duplicate selection. |
| DataImport.Advance | client/src/pages/DataImport.tsx:119 | A running poll adds 10 to the progress, never beyond 90. |
| DataImport.AdvanceFromStart | client/src/pages/DataImport.tsx:119-131 | After the start value 10, n running polls show min(10 + 10n, 90). |
| DataImport.AsWrittenDispatch | client/src/pages/DataImport.tsx:236-239 | As written: the first upload goes by the initial type, and each later one by the card used before it. |
| DataImport.IntendedDispatch | client/src/pages/DataImport.tsx:236-239 | Intended: each upload goes by the card it was dropped on. |
| DataImport.StaleDispatchAgreement | client/src/pages/DataImport.tsx:190-200 | The as-written and the intended dispatch agree iff the user never leaves the initial card. |
| DataImport.StaleDispatchPrefix | client/src/pages/DataImport.tsx:236-239 | As written: when every upload went to the card it was dropped on, every card used was the initial one. |
| DataImport.FirstIfcUploadGoesToExcel | client/src/pages/DataImport.tsx:236-239 | On a fresh page, the first IFC file is sent to the Excel endpoint. |
| DataImport.ImportPage.constructor | client/src/pages/DataImport.tsx:22-26 | The page starts with no file, the Excel type, progress 0, no results and no selection. |
| DataImport.ImportPage.SelectFile | client/src/pages/DataImport.tsx:190-200 | The file is kept and results and progress are reset. The upload goes to the card's own endpoint, which is the corrected dispatch. |
| DataImport.ImportPage.OnExcelSuccess | client/src/pages/DataImport.tsx:47-53 | The response becomes the results; nothing else changes. |
| DataImport.ImportPage.OnIfcStarted | client/src/pages/DataImport.tsx:93-131 | The job starts being polled and progress shows 10. |
| DataImport.ImportPage.OnPoll | client/src/pages/DataImport.tsx:96-129 | A completed job stops polling, shows 100 and becomes the results. A failed job or fetch stops polling. Anything else, including the 404 message, advances the progress. |
| DataImport.ImportPage.ToggleComponent | client/src/pages/DataImport.tsx:202-208 | The selection becomes `Toggle` of the old one and stays duplicate-free. |
| DataImport.ImportPage.ImportSelectedDisabled | client/src/pages/DataImport.tsx:291 | The button is disabled iff no component is selected. |
| LcaCalculations.InputOrZero | client/src/components/LCACalculations.tsx:16-19 | An absent or empty input reads as "0"; any other input is kept. |
| LcaCalculations.Calculate | client/src/components/LCACalculations.tsx:15-33 | The total is A1+A2+A3 and the net is the total minus Stage D, NaN-absorbing. The panel has data iff A1, A2 and A3 are all entered. |
| LcaCalculations.NoStageDMeansNetIsTotal | client/src/components/LCACalculations.tsx:19-22 | Without a Stage D value, the net impact equals the total. |
| LcaCalculations.MissingStageIsZero | client/src/components/LCACalculations.tsx:16-31 | A missing A1 counts as 0 and hides the breakdown. |
| LcaCalculations.PanelOf | client/src/components/LCACalculations.tsx:35-51 | The placeholder shows iff the data is incomplete; otherwise the breakdown shows the three figures. |
| LcaCalculations.WorkedExample | client/src/components/LCACalculations.tsx:21-22 | On the form's placeholder figures (client/src/pages/PassportForm.tsx:596-630), 0.89 + 0.12 + 1.44 gives 2.45, and with a reduction of 1.89 the net is 0.56. |
| MaterialPassports.FilterSeq | client/src/pages/MaterialPassports.tsx:65-72 | A passport is listed iff it matches the search (name or manufacturer, case-insensitively), the category filter and the status filter. |
| MaterialPassports.FilteredPassports | client/src/pages/MaterialPassports.tsx:65-72 | With no data yet, the listing is empty. |
| MaterialPassports.FilterIsSubsequence | client/src/pages/MaterialPassports.tsx:65-72 | The listing keeps the server's order. |
| MaterialPassports.EmptyCriteriaKeepAll | client/src/pages/MaterialPassports.tsx:66-69 | With no search term and no filters, every passport is listed, in order. |
| MaterialPassports.FilterIdempotent | client/src/pages/MaterialPassports.tsx:65-72 | Filtering twice with the same criteria gives the same listing. |
| MaterialPassports.SearchIgnoresTermCase | client/src/pages/MaterialPassports.tsx:66-67 | Lower-casing the search term never changes the result. |
| FileUpload.AllowedTypes | client/src/components/FileUpload.tsx:41 | One trimmed entry per comma-separated part. |
| FileUpload.Extension | client/src/components/FileUpload.tsx:42 | A dot followed by the lower-cased text after the name's last dot. |
| FileUpload.MimePattern | client/src/components/FileUpload.tsx:46 | Only the first star becomes a wildcard; an entry without a star is unchanged. |
| FileUpload.ValidateFile | client/src/components/FileUpload.tsx:33-53 | A file over the limit fails with the size message, checked first. "*" skips the type check. Otherwise the file passes iff an entry equals its extension or matches its MIME type, and fails with the type message. |
| FileUpload.ExactLimitPasses | client/src/components/FileUpload.tsx:35 | A file of exactly the limit passes the size check. |
| FileUpload.ExtensionOfDottedName | client/src/components/FileUpload.tsx:42 | The extension of "base.ext" is ".ext" lower-cased. |
| FileUpload.Picker.constructor | client/src/components/FileUpload.tsx:28-30 | No drag highlight, no file and no error at the start. |
| FileUpload.Picker.HandleFiles | client/src/components/FileUpload.tsx:55-70 | An empty list changes nothing. A rejected first file sets the error and clears the selection. An accepted one clears the error, is selected and is reported exactly once. |
| FileUpload.Picker.HandleDrag | client/src/components/FileUpload.tsx:72-80 | The highlight turns on for enter and over, off for leave, and is unchanged otherwise. |
| FileUpload.Picker.HandleDrop | client/src/components/FileUpload.tsx:82-92 | A drop always ends the highlight. A drop while disabled, or one without files, changes nothing else. Otherwise the first file is handled: it is selected, or refused with its validation message. |
| FileUpload.Picker.HandleChange | client/src/components/FileUpload.tsx:94-101 | Ignored while disabled or without files. Otherwise the first file is selected, or refused with its validation message. |
| FileUpload.Picker.RemoveFile | client/src/components/FileUpload.tsx:108-114 | Clears the selection and the error. |
| PassportCard.BadgeOf | client/src/components/PassportCard.tsx:16-25 | The Complete badge shows iff the status is "complete", and Published iff it is "published"; anything else is Draft. |
| PassportCard.CategoryColor | client/src/components/PassportCard.tsx:27-40 | The colour per lower-cased category. Steel, a missing category and an unknown one get the default. |
| PassportCard.CategoryColorIgnoresCase | client/src/components/PassportCard.tsx:28 | The colour does not depend on ASCII case. |
| PassportCard.DisplayCategory | client/src/components/PassportCard.tsx:70 | Only a leading word character is upper-cased; the rest is kept. |
| PassportCard.DisplayOnlyChangesCase | client/src/components/PassportCard.tsx:70 | The shown category equals the stored one up to case. |
| PassportCard.ShowsGwp | client/src/components/PassportCard.tsx:75 | The GWP line shows iff gwpTotal is non-empty text, so even "0" shows it. |
| PassportCard.ExportUrl | client/src/components/PassportCard.tsx:54 | The export target is "/api/passports/…/export/json". |
| PassportCard.ExportUrlIdentifiesPassport | client/src/components/PassportCard.tsx:54 | The passport id can be read back from the export URL. |
| PassportCard.ExportUrlInjective | client/src/components/PassportCard.tsx:54 | Distinct passports export to distinct URLs. |
| PassportCard.EditPath | client/src/components/PassportCard.tsx:92 | The edit target is "/passports/…/edit". |
| AppHeader.ActiveTab | client/src/components/AppHeader.tsx:19-24 | "/" highlights the dashboard, any path beginning "/passports" the list, and exactly "/import" the importer; any other path highlights nothing. |
| AppHeader.NavigationHighlightsItself | client/src/components/AppHeader.tsx:13-24 | Going to a tab's path highlights that tab and no other. |
| AppHeader.ImportSubpathHighlightsNothing | client/src/components/AppHeader.tsx:22 | A path below "/import" highlights no tab. |
| AppHeader.EditPageHighlightsPassports | client/src/components/AppHeader.tsx:21 | A passport's edit page keeps the list tab highlighted. |
| AppHeader.DisplayName | client/src/components/AppHeader.tsx:65 | The name shown is the trimmed "first last" if there is a first name, else the e-mail, else "User". |
| AppHeader.DisplayNameJoinsNames | client/src/components/AppHeader.tsx:65 | Given first and last names without blanks at their outer ends, the header shows exactly "first last". |
| AppHeader.DisplayNameWithoutLastName | client/src/components/AppHeader.tsx:65 | Without a last name, the first name alone is shown, with no trailing blank. |
| AppHeader.BlankFirstNameShowsNothing | client/src/components/AppHeader.tsx:65 | A first name of one blank counts as present, so the header shows an empty name rather than the e-mail. |
| AppHeader.EmptyNameMeansBlankFirstName | client/src/components/AppHeader.tsx:65 | The header shows an empty name only when the user has a first name made of blanks alone. |
| AppHeader.RoleBadge | client/src/components/AppHeader.tsx:69 | The badge text is the role, or "viewer" when the role is missing or empty. |
| AppHeader.RoleVariant | client/src/components/AppHeader.tsx:68 | The variant is default iff the role is author, and secondary iff it is member. |
| AppHeader.OutlineMeansNeitherRole | client/src/components/AppHeader.tsx:68-69 | The badge is outlined iff its text is neither "author" nor "member". |

## Left out

- Routes.UpdatePassport: follows the corrected derivation (Findings row 1), not the code's derivation from the patch alone. The code's behaviour is `Derivation.DerivePayload` with `Derivation.PartialPutLeavesWeightStale`.
- PassportForm.ConstituentsOf: a stored truthy value that is not a list (a text, `true`, a non-zero number) is not modelled as the source has it. The JSON column accepts any value, and `passport.constituents || [blank]` (client/src/pages/PassportForm.tsx:146, :159) would keep it, after which `constituents.map` fails in the editor. The model's constituent list cannot hold such a value, so it gives one blank entry instead.
- DataImport.ImportPage.SelectFile: follows the corrected dispatch (Findings row 2). The code's stale dispatch is `DataImport.AsWrittenDispatch`.
- Numbers: binary floating point, its rounding and the infinities are not modelled. Numbers are exact reals or NaN. `parseFloat` and `toString` are uninterpreted parameters, so e.g. "0.1 + 0.2" is not distinguished.
- Schema: the precision and scale of the decimal columns are not enforced. Decimals travel as text, as the database driver returns them.
- Routes: `parseInt` of a non-numeric path id (NaN) is not modelled. Handlers take an integer id.
- Routes: database failures and the 500 answers of the catch blocks are left out, except the Excel worksheet that cannot be read.
- Routes: session authentication is left out. The handlers receive the session user's id.
- Routes: the upload middleware is left out, including its disk storage and 100 MB limit. A handler receives the file's name, or none.
- Routes.ImportExcel: workbook parsing is left out. The first sheet's rows arrive as a parameter.
- Routes.ExportJson: `exportedAt` (the clock) and the download headers are left out.
- Routes.CompleteIfcJob: the 2-second timer is replaced by a separate call. It may happen at any later point, once per IFC job created by `ImportIfc`, while that job is still processing.
- DataImport.ImportPage.OnPoll: the 1-second interval is replaced by one call per tick. Nothing is modelled for the concurrency between intervals of several jobs.
- Ordering.CollectNewestFirst: rows with equal timestamps may come back in any order, as from the database. The model fixes no tie order.
- Strings: case mapping and `trim` cover ASCII only.
- FileUpload: `file.type.match(pattern)` is a predicate parameter, not a regular-expression engine.
- PassportForm.Editor: the source edits constituent objects in place inside a shallow copy. Those objects may be shared with the form's own list from the same passport. The model copies values, so this aliasing is not captured.
- PassportForm: the weight effect computes a value and discards it, so it is omitted.
- Client: toasts, redirects on unauthorised errors, loading screens and the mutations' pending flags are left out.
- Client: `formatDate`, `formatFileSize`, the avatar and the hidden input's `click` (`onButtonClick`) are left out.
- PassportCard: the "PDF export coming soon" alert is left out.
- The dashboard page, the stats card and the landing page are not part of this model.

## Findings

| source | as written | input that shows it | evidently intended | confidence | as-written member | corrected member |
|---|---|---|---|---|---|---|
| server/routes.ts:126-144 | A PUT derives weight, gwpTotal and netGwp from the request's own columns only, then merges the result over the stored row. | Create a passport with density "2.5" and volume "4": weight "10" is stored. Then PUT `{volume: "2"}`: weight stays "10" although 2.5·2 = 5. | The derived columns follow the stored inputs after every write. Derive over the stored row merged with the patch. | not executed | Derivation.PartialPutLeavesWeightStale | Derivation.DeriveOnMerged |
| client/src/pages/DataImport.tsx:236-239 | `onFileSelect` calls `setImportType` and then `handleFileUpload`. The handler reads the `importType` of the current render, whose update is not yet applied. | On a fresh page, drop an .ifc file on the IFC card: it is posted to `/api/import/excel`. | Each card uploads to its own endpoint. | not executed | DataImport.FirstIfcUploadGoesToExcel | DataImport.ImportPage.SelectFile |
