/**
 * The HTTP handlers: each reads the signed-in user's record, applies the role
 * policy, parses the body and calls storage. The session user id, the
 * clock, the uploaded file and the parsed spreadsheet are parameters.
 */
module Routes {
  import opened Wrappers
  import opened Numbers
  import opened Strings
  import opened Schema
  import opened Derivation
  import opened Storage

  // ---------------------------------------------------------------- responses

  datatype Bamb = Bamb(
    passportId: int,
    materialName: Value,
    category: Value,
    physicalProperties: Physical,
    chemical: Chemical,
    processIds: ProcessIds,
    circularity: Circularity,
    lca: Lca,
    standard: string)

  datatype Physical = Physical(density: Value, volume: Value, weight: Value, strengthClass: Value, serviceLife: Value, contentReference: Value)
  datatype Chemical = Chemical(constituents: Value, svhcFlag: Value, vocClass: Value)
  datatype ProcessIds = ProcessIds(gtin: Value, manufacturer: Value, bomObjectGuid: Value)
  datatype Circularity = Circularity(disassemblyRating: Value, recyclabilityPercentage: Value)
  datatype Lca = Lca(gwpA1A3: Value, stageDReduction: Value, netGwp: Value)

  datatype ResponseBody =
    | Message(message: string)
    | UserJson(user: Option<User>)
    | PassportJson(passport: Passport)
    | PassportList(passports: seq<Passport>)
    | ComponentJson(component: Component)
    | ComponentList(components: seq<Component>)
    | StatsJson(stats: DashboardStats)
    | JobJson(job: ImportJob)
    | ExcelImported(jobId: int, text: string, rows: seq<Row>)
    | IfcStarted(jobId: int, text: string)
    | Export(bamb: Bamb)
    | NoBody

  datatype Response = Response(status: int, body: ResponseBody)

  function Error(status: int, message: string): Response {
    Response(status, Message(message))
  }

  /** The part of a multipart upload the handlers read. */
  datatype UploadedFile = UploadedFile(originalName: string)

  // ---------------------------------------------------------------- policy

  /** `user?.role === 'viewer'`: a missing user record is not a viewer. */
  predicate IsViewer(u: Option<User>)
    ensures u.None? ==> !IsViewer(u)
    ensures u.Some? ==> (IsViewer(u) <==> u.value.role == "viewer")
  {
    u.Some? && u.value.role == ViewerRole
  }

  /** `user?.role === 'author'`: a missing user record is not an author. */
  predicate IsAuthor(u: Option<User>)
    ensures u.None? ==> !IsAuthor(u)
    ensures u.Some? ==> (IsAuthor(u) <==> u.value.role == "author")
  {
    u.Some? && u.value.role == AuthorRole
  }

  /** Authors read every row; anyone else, including a user without a record, only their own. */
  function ListScope(userId: string, u: Option<User>): (s: Scope)
    ensures s.None? <==> IsAuthor(u)
    ensures s.Some? ==> s.value == userId
  {
    if IsAuthor(u) then None else Some(userId)
  }

  /** Only the author role may delete; every role that may delete may also create. */
  lemma RoleLattice(u: Option<User>)
    ensures IsAuthor(u) ==> !IsViewer(u)
    ensures u.None? ==> !IsViewer(u) && !IsAuthor(u)
  {
  }

  // ---------------------------------------------------------------- auth and dashboard

  /** `GET /api/auth/user`: the session user's record, or no body when there is none. */
  function AuthUser(store: Store, userId: string): (r: Response)
    reads store
    ensures r == Response(200, UserJson(if userId in store.users then Some(store.users[userId]) else None))
    ensures store.Valid() && r.body.user.Some? ==> r.body.user.value.id == userId
  {
    Response(200, UserJson(store.GetUser(userId)))
  }

  /** `GET /api/dashboard/stats`: the counts over everything for an author, over the user's own rows otherwise. */
  function DashboardStatsRoute(store: Store, userId: string): (r: Response)
    reads store
    ensures r.status == 200 && r.body.StatsJson?
    ensures IsAuthor(store.GetUser(userId)) ==> r.body.stats == store.GetDashboardStats(None)
    ensures !IsAuthor(store.GetUser(userId)) ==> r.body.stats == store.GetDashboardStats(Some(userId))
  {
    Response(200, StatsJson(store.GetDashboardStats(ListScope(userId, store.GetUser(userId)))))
  }

  // ---------------------------------------------------------------- passports

  /** `GET /api/passports`: the rows of the caller's scope, most recently updated first. */
  method ListPassports(store: Store, userId: string) returns (r: Response)
    requires store.Valid()
    ensures r.status == 200 && r.body.PassportList?
    ensures Ordering.NonIncreasing(r.body.passports, PassportUpdatedAt)
    ensures Ordering.DistinctIds(r.body.passports, PassportId)
    ensures forall p | p in r.body.passports ::
              p.id in store.passports && store.passports[p.id] == p &&
              (IsAuthor(store.GetUser(userId)) || userId == "" || p.authorId == userId)
    ensures forall id | id in store.passports &&
              (IsAuthor(store.GetUser(userId)) || userId == "" || store.passports[id].authorId == userId) ::
              store.passports[id] in r.body.passports
  {
    var rows := store.GetMaterialPassports(ListScope(userId, store.GetUser(userId)));
    r := Response(200, PassportList(rows));
  }

  /** `GET /api/passports/:id`: any signed-in user may read any passport. */
  function GetPassport(store: Store, id: int): (r: Response)
    reads store
    ensures r.status == 200 <==> id in store.passports
    ensures r.status == 200 ==> r.body == PassportJson(store.passports[id])
    ensures r.status != 200 ==> r == Error(404, "Passport not found")
  {
    match store.GetMaterialPassport(id)
    case Some(p) => Response(200, PassportJson(p))
    case None => Error(404, "Passport not found")
  }

  /** The parsed body with its derived columns: what a POST passes to storage. */
  function PassportWrite(num: NumberFormat, body: Body): (r: Option<Payload>)
    ensures r.Some? <==> ParsePassportBody(body, false).Some?
    ensures r.Some? ==> r.value == DerivePayload(num, ParseBody(body)) && ValidPayload(r.value, false)
    ensures r.Some? ==> DerivedConsistent(num, PassportDefaults + r.value)
  {
    match ParsePassportBody(body, false)
    case None => None
    case Some(payload) =>
      DeriveKeepsValid(num, payload, false);
      CreatedPassportConsistent(num, payload);
      Some(DerivePayload(num, payload))
  }

  /**
   * `POST /api/passports`: viewers are refused, an invalid body is a 400,
   * otherwise the derived payload is stored under the session user.
   */
  method CreatePassport(store: Store, num: NumberFormat, userId: string, body: Body, now: int) returns (r: Response)
    requires store.Valid()
    modifies store
    ensures store.Valid()
    ensures r.status in {201, 400, 403}
    ensures r.status == 403 <==> IsViewer(old(store.GetUser(userId)))
    ensures r.status == 403 ==> r == Error(403, "Viewers cannot create passports")
    ensures r.status == 400 <==> !IsViewer(old(store.GetUser(userId))) && PassportWrite(num, body).None?
    ensures r.status == 400 ==> r == Error(400, "Failed to create passport")
    ensures r.status != 201 ==> store.passports == old(store.passports)
    ensures r.status == 201 ==>
              && r.body.PassportJson?
              && r.body.passport.authorId == userId
              && r.body.passport.id !in old(store.passports)
              && store.passports == old(store.passports)[r.body.passport.id := r.body.passport]
              && r.body.passport == NewPassport(old(store.nextPassportId), PassportWrite(num, body).value, userId, now)
              && DerivedConsistent(num, r.body.passport.attrs)
    ensures store.users == old(store.users) && store.components == old(store.components) && store.jobs == old(store.jobs)
  {
    if IsViewer(store.GetUser(userId)) {
      return Error(403, "Viewers cannot create passports");
    }
    var write := PassportWrite(num, body);
    if write.None? {
      return Error(400, "Failed to create passport");
    }
    var created := store.CreateMaterialPassport(write.value, userId, now);
    r := Response(201, PassportJson(created));
  }

  /**
   * `PUT /api/passports/:id`: viewers are refused and an invalid body is a
   * 400. When the caller owns the row, the derived columns are recomputed
   * from the stored row merged with the patch (the corrected derivation of
   * `Derivation.DeriveOnMerged`), so the stored row stays consistent;
   * otherwise nothing is written and the answer is a 200 without a body.
   */
  method UpdatePassport(store: Store, num: NumberFormat, userId: string, id: int, body: Body, now: int) returns (r: Response)
    requires store.Valid()
    modifies store
    ensures store.Valid()
    ensures r.status in {200, 400, 403}
    ensures r.status == 403 <==> IsViewer(old(store.GetUser(userId)))
    ensures r.status == 403 ==> r == Error(403, "Viewers cannot edit passports")
    ensures r.status == 400 <==> !IsViewer(old(store.GetUser(userId))) && ParsePassportBody(body, true).None?
    ensures r.status == 400 ==> r == Error(400, "Failed to update passport")
    ensures r.status == 200 ==> (r.body.PassportJson? <==> old(store.OwnedBy(id, userId)))
    ensures r.status == 200 && r.body.PassportJson? ==>
      && r.body.passport == UpdatedPassport(old(store.passports)[id],
           DeriveOnMerged(num, old(store.passports)[id].attrs, ParsePassportBody(body, true).value), now)
      && store.passports == old(store.passports)[id := r.body.passport]
      && DerivedConsistent(num, r.body.passport.attrs)
    ensures r.status == 200 && !r.body.PassportJson? ==> r.body == NoBody
    ensures !(r.status == 200 && r.body.PassportJson?) ==> store.passports == old(store.passports)
    ensures store.users == old(store.users) && store.components == old(store.components) && store.jobs == old(store.jobs)
  {
    if IsViewer(store.GetUser(userId)) {
      return Error(403, "Viewers cannot edit passports");
    }
    var parsed := ParsePassportBody(body, true);
    if parsed.None? {
      return Error(400, "Failed to update passport");
    }
    if store.OwnedBy(id, userId) {
      var stored := store.passports[id];
      var patch := DeriveOnMerged(num, stored.attrs, parsed.value);
      var updated := store.UpdateMaterialPassport(id, patch, userId, now);
      r := Response(200, PassportJson(updated.value));
    } else {
      var updated := store.UpdateMaterialPassport(id, parsed.value, userId, now);
      r := Response(200, NoBody);
    }
  }

  /** `DELETE /api/passports/:id`: authors only, and only their own rows. */
  method DeletePassport(store: Store, userId: string, id: int) returns (r: Response)
    requires store.Valid()
    modifies store
    ensures store.Valid()
    ensures r.status in {204, 403, 404}
    ensures r.status == 403 <==> !IsAuthor(old(store.GetUser(userId)))
    ensures r.status == 403 ==> r == Error(403, "Only authors can delete passports")
    ensures r.status == 204 <==> IsAuthor(old(store.GetUser(userId))) && old(store.OwnedBy(id, userId))
    ensures r.status == 204 ==> r.body == NoBody && store.passports == old(store.passports) - {id}
    ensures r.status == 404 ==> r == Error(404, "Passport not found")
    ensures r.status != 204 ==> store.passports == old(store.passports)
    ensures store.users == old(store.users) && store.components == old(store.components) && store.jobs == old(store.jobs)
  {
    if !IsAuthor(store.GetUser(userId)) {
      return Error(403, "Only authors can delete passports");
    }
    var deleted := store.DeleteMaterialPassport(id, userId);
    if deleted {
      r := Response(204, NoBody);
    } else {
      r := Error(404, "Passport not found");
    }
  }

  // ---------------------------------------------------------------- components

  /** `GET /api/components`: the rows of the caller's scope, newest first. */
  method ListComponents(store: Store, userId: string) returns (r: Response)
    requires store.Valid()
    ensures r.status == 200 && r.body.ComponentList?
    ensures Ordering.NonIncreasing(r.body.components, ComponentCreatedAt)
    ensures Ordering.DistinctIds(r.body.components, ComponentId)
    ensures forall c | c in r.body.components ::
              c.id in store.components && store.components[c.id] == c &&
              (IsAuthor(store.GetUser(userId)) || userId == "" || c.authorId == userId)
    ensures forall id | id in store.components &&
              (IsAuthor(store.GetUser(userId)) || userId == "" || store.components[id].authorId == userId) ::
              store.components[id] in r.body.components
  {
    var rows := store.GetComponents(ListScope(userId, store.GetUser(userId)));
    r := Response(200, ComponentList(rows));
  }

  /** `POST /api/components`: viewers are refused, an invalid body is a 400. */
  method CreateComponentRoute(store: Store, userId: string, body: Body, now: int) returns (r: Response)
    requires store.Valid()
    modifies store
    ensures store.Valid()
    ensures r.status in {201, 400, 403}
    ensures r.status == 403 <==> IsViewer(old(store.GetUser(userId)))
    ensures r.status == 403 ==> r == Error(403, "Viewers cannot create components")
    ensures r.status == 400 <==> !IsViewer(old(store.GetUser(userId))) && ParseComponentBody(body).None?
    ensures r.status == 400 ==> r == Error(400, "Failed to create component")
    ensures r.status == 201 ==>
              && r.body.ComponentJson?
              && r.body.component == NewComponent(old(store.nextComponentId), ParseComponentBody(body).value, userId, now)
              && store.components == old(store.components)[r.body.component.id := r.body.component]
    ensures r.status != 201 ==> store.components == old(store.components)
    ensures store.users == old(store.users) && store.passports == old(store.passports) && store.jobs == old(store.jobs)
  {
    if IsViewer(store.GetUser(userId)) {
      return Error(403, "Viewers cannot create components");
    }
    match ParseComponentBody(body)
    case None =>
      r := Error(400, "Failed to create component");
    case Some(data) =>
      var created := store.CreateComponent(data, userId, now);
      r := Response(201, ComponentJson(created));
  }

  // ---------------------------------------------------------------- imports

  const ExcelType := "excel"
  const IfcType := "ifc"

  /** The three elements the IFC import reports for every file. */
  const MockIfcComponents: seq<IfcCandidate> := [
    IfcCandidate("Steel Beam HEB 200 - B001", "2N1gHkRXL8ChVYzM3QEKMz", "Structural Steel"),
    IfcCandidate("Concrete Column C1", "3M2hGlSYM9DiWZaN4RFLNa", "Concrete C25/30"),
    IfcCandidate("CLT Panel P001", "1L0gFlRWK7BhUXyL2PDKLz", "Cross Laminated Timber")
  ]

  function ImportedMessage(n: nat): (s: string)
    ensures StartsWith(s, "Successfully imported ") && EndsWith(s, " rows")
  {
    "Successfully imported " + NatToString(n) + " rows"
  }

  /** The row count can be read back from the success message. */
  lemma ImportedMessageCount(n: nat)
    ensures var s := ImportedMessage(n);
            |s| >= 27 && AllDigits(s[22..|s| - 5]) && ParseNat(s[22..|s| - 5]) == n
  {
    var s := ImportedMessage(n);
    assert s[22..|s| - 5] == NatToString(n);
    ParseNatToString(n);
  }

  /**
   * `POST /api/import/excel`. `sheet` is the first worksheet as rows, or
   * None when the workbook cannot be read; in that case the job is marked
   * failed and the answer is a 500.
   */
  method ImportExcel(store: Store, userId: string, file: Option<UploadedFile>, sheet: Option<seq<Row>>, now: int)
    returns (r: Response)
    requires store.Valid()
    modifies store
    ensures store.Valid()
    ensures r.status in {200, 400, 403, 500}
    ensures r.status == 403 <==> IsViewer(old(store.GetUser(userId)))
    ensures r.status == 403 ==> r == Error(403, "Viewers cannot import data")
    ensures r.status == 400 <==> !IsViewer(old(store.GetUser(userId))) && file.None?
    ensures r.status == 400 ==> r == Error(400, "No file uploaded")
    ensures r.status == 200 <==> !IsViewer(old(store.GetUser(userId))) && file.Some? && sheet.Some?
    ensures r.status == 200 ==>
              && r.body == ExcelImported(old(store.nextJobId), ImportedMessage(|sheet.value|), sheet.value)
              && store.jobs == old(store.jobs)[old(store.nextJobId) :=
                   ImportJob(old(store.nextJobId), ExcelType, file.value.originalName, CompletedStatus,
                             Some(SheetRows(sheet.value)), None, userId, now)]
    ensures r.status == 500 ==>
              && r == Error(500, "Failed to import Excel file")
              && store.jobs == old(store.jobs)[old(store.nextJobId) :=
                   ImportJob(old(store.nextJobId), ExcelType, file.value.originalName, FailedStatus,
                             None, Some("Failed to process Excel file"), userId, now)]
    ensures r.status in {400, 403} ==> store.jobs == old(store.jobs)
    ensures store.users == old(store.users) && store.passports == old(store.passports) && store.components == old(store.components)
  {
    if IsViewer(store.GetUser(userId)) {
      return Error(403, "Viewers cannot import data");
    }
    if file.None? {
      return Error(400, "No file uploaded");
    }
    var job := store.CreateImportJob(NewImportJobData(ExcelType, file.value.originalName, Some(ProcessingStatus)), userId, now);
    match sheet
    case Some(rows) =>
      var _ := store.UpdateImportJob(job.id, JobUpdate(None, None, Some(CompletedStatus), Some(Some(SheetRows(rows))), None));
      r := Response(200, ExcelImported(job.id, ImportedMessage(|rows|), rows));
    case None =>
      var _ := store.UpdateImportJob(job.id, JobUpdate(None, None, Some(FailedStatus), None, Some(Some("Failed to process Excel file"))));
      r := Error(500, "Failed to import Excel file");
  }

  /**
   * `POST /api/import/ifc`: creates a processing job and answers at once;
   * the job is completed later by `CompleteIfcJob`.
   */
  method ImportIfc(store: Store, userId: string, file: Option<UploadedFile>, now: int) returns (r: Response)
    requires store.Valid()
    modifies store
    ensures store.Valid()
    ensures r.status in {200, 400, 403}
    ensures r.status == 403 <==> IsViewer(old(store.GetUser(userId)))
    ensures r.status == 403 ==> r == Error(403, "Viewers cannot import data")
    ensures r.status == 400 <==> !IsViewer(old(store.GetUser(userId))) && file.None?
    ensures r.status == 400 ==> r == Error(400, "No file uploaded")
    ensures r.status == 200 ==>
              && r.body == IfcStarted(old(store.nextJobId), "IFC file processing started")
              && store.jobs == old(store.jobs)[old(store.nextJobId) :=
                   ImportJob(old(store.nextJobId), IfcType, file.value.originalName, ProcessingStatus, None, None, userId, now)]
    ensures r.status != 200 ==> store.jobs == old(store.jobs)
    ensures store.users == old(store.users) && store.passports == old(store.passports) && store.components == old(store.components)
  {
    if IsViewer(store.GetUser(userId)) {
      return Error(403, "Viewers cannot import data");
    }
    if file.None? {
      return Error(400, "No file uploaded");
    }
    var job := store.CreateImportJob(NewImportJobData(IfcType, file.value.originalName, Some(ProcessingStatus)), userId, now);
    r := Response(200, IfcStarted(job.id, "IFC file processing started"));
  }

  /**
   * The timer of the IFC import: the job `ImportIfc` just created, still
   * processing, becomes completed with the mock components. It fires once
   * per job: afterwards the job is no longer processing.
   */
  method CompleteIfcJob(store: Store, jobId: int)
    requires store.Valid()
    requires jobId in store.jobs && store.jobs[jobId].jobType == IfcType && store.jobs[jobId].status == ProcessingStatus
    modifies store
    ensures store.Valid()
    ensures store.jobs == old(store.jobs)[jobId := old(store.jobs)[jobId].(status := CompletedStatus,
                                                                           resultData := Some(IfcCandidates(MockIfcComponents)))]
    ensures store.jobs[jobId].status != ProcessingStatus
    ensures store.users == old(store.users) && store.passports == old(store.passports) && store.components == old(store.components)
  {
    var _ := store.UpdateImportJob(jobId, JobUpdate(None, None, Some(CompletedStatus), Some(Some(IfcCandidates(MockIfcComponents))), None));
  }

  /** `GET /api/import/:jobId`: any signed-in user may read any job. */
  function GetJob(store: Store, jobId: int): (r: Response)
    reads store
    ensures r.status == 200 <==> jobId in store.jobs
    ensures r.status == 200 ==> r.body == JobJson(store.jobs[jobId])
    ensures r.status != 200 ==> r == Error(404, "Import job not found")
  {
    match store.GetImportJob(jobId)
    case Some(j) => Response(200, JobJson(j))
    case None => Error(404, "Import job not found")
  }

  // ---------------------------------------------------------------- export

  const ExportStandard := "ISO 14040/44, ISO 20887, ISO 12006-3, ISO 23387"

  /** The columns the BAMB document carries. */
  const ExportedFields: set<Field> := {
    Name, Category, Density, Volume, Weight, StrengthClass, ServiceLife, ContentReference,
    Constituents, SvhcFlag, VocClass, Gtin, Manufacturer, BomObjectGuid,
    DisassemblyRating, RecyclabilityPercentage, GwpTotal, StageDReduction, NetGwp }

  /** The passport as a BAMB material passport document (without `exportedAt`). */
  function ExportJson(p: Passport): (b: Bamb)
    ensures b.passportId == p.id && b.standard == ExportStandard
  {
    Bamb(
      p.id, p.Get(Name), p.Get(Category),
      Physical(p.Get(Density), p.Get(Volume), p.Get(Weight), p.Get(StrengthClass), p.Get(ServiceLife), p.Get(ContentReference)),
      Chemical(p.Get(Constituents), p.Get(SvhcFlag), p.Get(VocClass)),
      ProcessIds(p.Get(Gtin), p.Get(Manufacturer), p.Get(BomObjectGuid)),
      Circularity(p.Get(DisassemblyRating), p.Get(RecyclabilityPercentage)),
      Lca(p.Get(GwpTotal), p.Get(StageDReduction), p.Get(NetGwp)),
      ExportStandard)
  }

  /** Where a column sits in the document; the A1-A3 total is called `gwpA1A3` there. */
  function ExportedValue(b: Bamb, f: Field): Value
    requires f in ExportedFields
  {
    match f
    case Name => b.materialName
    case Category => b.category
    case Density => b.physicalProperties.density
    case Volume => b.physicalProperties.volume
    case Weight => b.physicalProperties.weight
    case StrengthClass => b.physicalProperties.strengthClass
    case ServiceLife => b.physicalProperties.serviceLife
    case ContentReference => b.physicalProperties.contentReference
    case Constituents => b.chemical.constituents
    case SvhcFlag => b.chemical.svhcFlag
    case VocClass => b.chemical.vocClass
    case Gtin => b.processIds.gtin
    case Manufacturer => b.processIds.manufacturer
    case BomObjectGuid => b.processIds.bomObjectGuid
    case DisassemblyRating => b.circularity.disassemblyRating
    case RecyclabilityPercentage => b.circularity.recyclabilityPercentage
    case GwpTotal => b.lca.gwpA1A3
    case StageDReduction => b.lca.stageDReduction
    case NetGwp => b.lca.netGwp
  }

  /** Every exported column sits in the document with the passport's value (null when unset). */
  lemma ExportCarriesColumn(p: Passport, f: Field)
    requires f in ExportedFields
    ensures ExportedValue(ExportJson(p), f) == p.Get(f)
  {
  }

  /** Reading a document back: the non-null exported columns. */
  function AttrsOfExport(b: Bamb): Payload {
    map f | f in ExportedFields && ExportedValue(b, f) != Null :: ExportedValue(b, f)
  }

  /** Exporting then reading back gives the passport's non-null exported columns. */
  lemma ExportRoundTrip(p: Passport)
    ensures AttrsOfExport(ExportJson(p)) ==
            map f | f in p.attrs && f in ExportedFields && p.attrs[f] != Null :: p.attrs[f]
  {
    forall f | f in ExportedFields {
      ExportCarriesColumn(p, f);
    }
    var back := AttrsOfExport(ExportJson(p));
    var kept := map f | f in p.attrs && f in ExportedFields && p.attrs[f] != Null :: p.attrs[f];
    assert forall f :: f in back <==> f in kept;
  }

  /** `GET /api/passports/:id/export/json`: any signed-in user may export any passport. */
  function ExportPassport(store: Store, id: int): (r: Response)
    reads store
    ensures r.status == 200 <==> id in store.passports
    ensures r.status == 200 ==> r.body == Export(ExportJson(store.passports[id]))
    ensures r.status != 200 ==> r == Error(404, "Passport not found")
  {
    match store.GetMaterialPassport(id)
    case Some(p) => Response(200, Export(ExportJson(p)))
    case None => Error(404, "Passport not found")
  }
}
