/**
 * The record shapes of the material-passport tool: users, material
 * passports, components and import jobs, their column defaults, and the
 * insert schemas that turn a JSON request body into a payload.
 */
module Schema {
  import opened Wrappers

  const ViewerRole := "viewer"
  const MemberRole := "member"
  const AuthorRole := "author"

  const DraftStatus := "draft"
  const CompleteStatus := "complete"
  const PublishedStatus := "published"

  const ProcessingStatus := "processing"
  const CompletedStatus := "completed"
  const FailedStatus := "failed"

  /** One entry of the chemical block: a material and its weight percentage. */
  datatype Constituent = Constituent(material: string, percentage: real)

  /** A JSON value of a request body, a spreadsheet row or a stored column. */
  datatype Value =
    | Null
    | Bool(b: bool)
    | Num(n: real)
    | Text(s: string)
    | ConstituentList(items: seq<Constituent>)

  /** JavaScript truthiness. */
  predicate Truthy(v: Value) {
    match v
    case Null => false
    case Bool(b) => b
    case Num(n) => n != 0.0
    case Text(s) => s != ""
    case ConstituentList(_) => true
  }

  predicate IsInteger(x: real) { x.Floor as real == x }

  // ---------------------------------------------------------------- users

  /** A row of the users table; `None` is SQL null. */
  datatype User = User(
    id: string,
    email: Option<string>,
    firstName: Option<string>,
    lastName: Option<string>,
    profileImageUrl: Option<string>,
    role: string,
    createdAt: int,
    updatedAt: int)

  /**
   * A nullable column in a payload: `None` when the key is absent,
   * `Some(None)` for an explicit null, `Some(Some(v))` for a value.
   */
  type Nullable<T> = Option<Option<T>>

  /** The fields the user insert schema picks. The role is not nullable, so it is only present or absent. */
  datatype UpsertUserData = UpsertUserData(
    id: string,
    email: Nullable<string>,
    firstName: Nullable<string>,
    lastName: Nullable<string>,
    profileImageUrl: Nullable<string>,
    role: Option<string>)

  /** Inserting a user: absent and null columns are null, the role defaults to viewer. */
  function NewUser(data: UpsertUserData, now: int): (u: User)
    ensures u.id == data.id
    ensures u.role == if data.role.Some? then data.role.value else ViewerRole
    ensures u.email == (if data.email.Some? then data.email.value else None)
    ensures u.firstName == (if data.firstName.Some? then data.firstName.value else None)
    ensures u.lastName == (if data.lastName.Some? then data.lastName.value else None)
    ensures u.profileImageUrl == (if data.profileImageUrl.Some? then data.profileImageUrl.value else None)
    ensures u.createdAt == now && u.updatedAt == now
  {
    User(data.id, data.email.GetOr(None), data.firstName.GetOr(None), data.lastName.GetOr(None),
         data.profileImageUrl.GetOr(None), data.role.GetOr(ViewerRole), now, now)
  }

  /**
   * Updating a user on conflict with `set: {...userData, updatedAt}`: every key
   * present is written, an explicit null as null; absent keys keep the stored value.
   */
  function UpdatedUser(u: User, data: UpsertUserData, now: int): (r: User)
    requires data.id == u.id
    ensures r.id == u.id && r.createdAt == u.createdAt && r.updatedAt == now
    ensures r.role == if data.role.Some? then data.role.value else u.role
    ensures r.email == if data.email.Some? then data.email.value else u.email
    ensures r.firstName == if data.firstName.Some? then data.firstName.value else u.firstName
    ensures r.lastName == if data.lastName.Some? then data.lastName.value else u.lastName
    ensures r.profileImageUrl == if data.profileImageUrl.Some? then data.profileImageUrl.value else u.profileImageUrl
  {
    u.(email := data.email.GetOr(u.email),
       firstName := data.firstName.GetOr(u.firstName),
       lastName := data.lastName.GetOr(u.lastName),
       profileImageUrl := data.profileImageUrl.GetOr(u.profileImageUrl),
       role := data.role.GetOr(u.role),
       updatedAt := now)
  }

  // ------------------------------------------------------------ passports

  /**
   * The columns of a material passport that a request body may carry.
   * `id`, `authorId`, `createdAt` and `updatedAt` are omitted by the insert
   * schema and are fields of `Passport` itself.
   */
  datatype Field =
    | Name | Category | Status
    | Density | Volume | Weight | StrengthClass | ServiceLife | FireResistance | ContentReference
    | Constituents | SvhcFlag | ReachCompliance | VocClass
    | Gtin | Ean | Cas | Manufacturer | BomObjectGuid
    | DisassemblyRating | RecyclabilityPercentage
    | GwpA1 | GwpA2 | GwpA3 | GwpTotal | StageDReduction | NetGwp
    | Odp | AcidificationPotential

  const AllFields: set<Field> := {
    Name, Category, Status,
    Density, Volume, Weight, StrengthClass, ServiceLife, FireResistance, ContentReference,
    Constituents, SvhcFlag, ReachCompliance, VocClass,
    Gtin, Ean, Cas, Manufacturer, BomObjectGuid,
    DisassemblyRating, RecyclabilityPercentage,
    GwpA1, GwpA2, GwpA3, GwpTotal, StageDReduction, NetGwp,
    Odp, AcidificationPotential }

  /** The JSON key of each column. */
  function KeyOf(f: Field): string {
    match f
    case Name => "name"
    case Category => "category"
    case Status => "status"
    case Density => "density"
    case Volume => "volume"
    case Weight => "weight"
    case StrengthClass => "strengthClass"
    case ServiceLife => "serviceLife"
    case FireResistance => "fireResistance"
    case ContentReference => "contentReference"
    case Constituents => "constituents"
    case SvhcFlag => "svhcFlag"
    case ReachCompliance => "reachCompliance"
    case VocClass => "vocClass"
    case Gtin => "gtin"
    case Ean => "ean"
    case Cas => "cas"
    case Manufacturer => "manufacturer"
    case BomObjectGuid => "bomObjectGuid"
    case DisassemblyRating => "disassemblyRating"
    case RecyclabilityPercentage => "recyclabilityPercentage"
    case GwpA1 => "gwpA1"
    case GwpA2 => "gwpA2"
    case GwpA3 => "gwpA3"
    case GwpTotal => "gwpTotal"
    case StageDReduction => "stageDReduction"
    case NetGwp => "netGwp"
    case Odp => "odp"
    case AcidificationPotential => "acidificationPotential"
  }

  /** Every column is in `AllFields`. */
  lemma InAllFields(f: Field)
    ensures f in AllFields
  {
  }

  /** The owner, the id and the timestamps are not keys of any column a body can name. */
  lemma OmittedKeys(f: Field)
    ensures KeyOf(f) != "authorId" && KeyOf(f) != "id"
    ensures KeyOf(f) != "createdAt" && KeyOf(f) != "updatedAt"
  {
  }

  /** The zod type drizzle derives for a column. */
  datatype Kind = TextKind | DecimalKind | IntegerKind | BooleanKind | JsonKind

  function KindOf(f: Field): Kind {
    match f
    case Density | Volume | Weight | RecyclabilityPercentage
      | GwpA1 | GwpA2 | GwpA3 | GwpTotal | StageDReduction | NetGwp
      | Odp | AcidificationPotential => DecimalKind
    case ServiceLife => IntegerKind
    case SvhcFlag | ReachCompliance => BooleanKind
    case Constituents => JsonKind
    case _ => TextKind
  }

  /** Decimal columns travel as strings, as drizzle reads and writes them. */
  predicate HasKind(v: Value, k: Kind) {
    match k
    case TextKind => v.Text?
    case DecimalKind => v.Text?
    case IntegerKind => v.Num? && IsInteger(v.n)
    case BooleanKind => v.Bool?
    case JsonKind => true
  }

  /** The not-null columns of the passport table that a body can name. */
  predicate NotNull(f: Field) { f == Name || f == Category || f == Status }

  /** Not null and without a default: the insert schema requires these keys. */
  predicate RequiredOnInsert(f: Field) { f == Name || f == Category }

  /** What the column's zod type accepts: a value of its kind, or null when the column is nullable. */
  predicate Accepts(f: Field, v: Value) {
    if v == Null then !NotNull(f) else HasKind(v, KindOf(f))
  }

  type Body = map<string, Value>
  type Payload = map<Field, Value>

  /** zod's object parse keeps only the keys that name a column. */
  function ParseBody(body: Body): (p: Payload)
    ensures forall f :: f in p <==> KeyOf(f) in body
    ensures forall f | f in p :: p[f] == body[KeyOf(f)]
  {
    var p := map f | f in AllFields && KeyOf(f) in body :: body[KeyOf(f)];
    assert forall f :: KeyOf(f) in body ==> f in p by {
      forall f | KeyOf(f) in body ensures f in p { InAllFields(f); }
    }
    p
  }

  predicate ValidPayload(p: Payload, partial: bool) {
    && (forall f | f in p :: Accepts(f, p[f]))
    && (!partial ==> forall f | RequiredOnInsert(f) :: f in p)
  }

  /**
   * `insertMaterialPassportSchema.parse(body)` (partial = false, POST) and
   * `insertMaterialPassportSchema.partial().parse(body)` (partial = true, PUT).
   */
  function ParsePassportBody(body: Body, partial: bool): (r: Option<Payload>)
    ensures r.Some? <==> ValidPayload(ParseBody(body), partial)
    ensures r.Some? ==> r.value == ParseBody(body)
  {
    var p := ParseBody(body);
    if ValidPayload(p, partial) then Some(p) else None
  }

  /** A body key that is not one of the columns never reaches the payload. */
  lemma ParsedBodyIgnoresOtherKeys(body: Body, k: string, v: Value)
    requires forall f :: KeyOf(f) != k
    ensures ParseBody(body[k := v]) == ParseBody(body)
  {
  }

  /** Whatever a body says under `authorId`, `id` or a timestamp key, the payload is the same. */
  lemma {:induction false} BodyCannotNameOwnerOrKeys(body: Body, k: string, v: Value)
    requires k in {"authorId", "id", "createdAt", "updatedAt"}
    ensures ParseBody(body[k := v]) == ParseBody(body)
  {
    forall f ensures KeyOf(f) != k {
      OmittedKeys(f);
    }
    ParsedBodyIgnoresOtherKeys(body, k, v);
  }

  /** A stored passport; a column missing from `attrs` is null. */
  datatype Passport = Passport(id: int, authorId: string, attrs: Payload, createdAt: int, updatedAt: int) {
    function Get(f: Field): Value {
      if f in attrs then attrs[f] else Null
    }
  }

  /** The column defaults: status "draft", svhcFlag and reachCompliance false. */
  const PassportDefaults: Payload := map[Status := Text(DraftStatus), SvhcFlag := Bool(false), ReachCompliance := Bool(false)]

  /** The columns of a stored passport obey their types and the not-null columns are set. */
  predicate WellFormed(attrs: Payload) {
    && (forall f | f in attrs :: Accepts(f, attrs[f]))
    && (forall f | NotNull(f) :: f in attrs)
  }

  /** The defaults under a valid insert payload form a well-formed column map. */
  lemma DefaultsUnderPayload(payload: Payload)
    requires ValidPayload(payload, false)
    ensures WellFormed(PassportDefaults + payload)
    ensures forall f | f in payload :: (PassportDefaults + payload)[f] == payload[f]
    ensures Status !in payload ==> (PassportDefaults + payload)[Status] == Text(DraftStatus)
    ensures SvhcFlag !in payload ==> (PassportDefaults + payload)[SvhcFlag] == Bool(false)
    ensures ReachCompliance !in payload ==> (PassportDefaults + payload)[ReachCompliance] == Bool(false)
  {
    var attrs := PassportDefaults + payload;
    forall f | f in attrs ensures Accepts(f, attrs[f]) {
      if f !in payload {
        assert f == Status || f == SvhcFlag || f == ReachCompliance;
      }
    }
    assert Status in attrs;
  }

  /** Inserting a passport: defaults first, the payload over them, the owner from the caller. */
  function NewPassport(id: int, payload: Payload, authorId: string, now: int): (p: Passport)
    requires ValidPayload(payload, false)
    ensures p.id == id && p.authorId == authorId && p.createdAt == now && p.updatedAt == now
    ensures WellFormed(p.attrs)
    ensures p.Get(Status) == if Status in payload then payload[Status] else Text(DraftStatus)
    ensures p.Get(SvhcFlag) == if SvhcFlag in payload then payload[SvhcFlag] else Bool(false)
    ensures p.Get(ReachCompliance) == if ReachCompliance in payload then payload[ReachCompliance] else Bool(false)
    ensures forall f | f in payload :: p.Get(f) == payload[f]
  {
    DefaultsUnderPayload(payload);
    Passport(id, authorId, PassportDefaults + payload, now, now)
  }

  /** Updating a passport: the supplied columns are overwritten and `updatedAt` is set. */
  function UpdatedPassport(p: Passport, patch: Payload, now: int): (r: Passport)
    requires WellFormed(p.attrs) && ValidPayload(patch, true)
    ensures r.id == p.id && r.authorId == p.authorId && r.createdAt == p.createdAt && r.updatedAt == now
    ensures WellFormed(r.attrs)
    ensures forall f :: r.Get(f) == if f in patch then patch[f] else p.Get(f)
  {
    p.(attrs := p.attrs + patch, updatedAt := now)
  }

  // ----------------------------------------------------------- components

  datatype Component = Component(
    id: int,
    name: string,
    category: string,
    description: Option<string>,
    ifcGuid: Option<string>,
    passportId: Option<int>,
    authorId: string,
    createdAt: int)

  /** A component insert payload: the component columns without id, owner and timestamp. */
  datatype NewComponentData = NewComponentData(
    name: string,
    category: string,
    description: Option<string>,
    ifcGuid: Option<string>,
    passportId: Option<int>)

  predicate RequiredText(body: Body, k: string) { k in body && body[k].Text? }

  predicate OptionalText(body: Body, k: string) { k !in body || body[k] == Null || body[k].Text? }

  predicate OptionalInteger(body: Body, k: string) {
    k !in body || body[k] == Null || (body[k].Num? && IsInteger(body[k].n))
  }

  function TextOrNull(body: Body, k: string): Option<string> {
    if k in body && body[k].Text? then Some(body[k].s) else None
  }

  /** `insertComponentSchema.parse(body)`: name and category are required text. */
  function ParseComponentBody(body: Body): (r: Option<NewComponentData>)
    ensures r.Some? <==>
      RequiredText(body, "name") && RequiredText(body, "category") &&
      OptionalText(body, "description") && OptionalText(body, "ifcGuid") && OptionalInteger(body, "passportId")
    ensures r.Some? ==> r.value.name == body["name"].s && r.value.category == body["category"].s
    ensures r.Some? ==> r.value.description == TextOrNull(body, "description")
    ensures r.Some? ==> r.value.ifcGuid == TextOrNull(body, "ifcGuid")
    ensures r.Some? ==> (r.value.passportId.Some? <==> "passportId" in body && body["passportId"].Num?)
    ensures r.Some? && "passportId" in body && body["passportId"].Num? ==> r.value.passportId == Some(body["passportId"].n.Floor)
  {
    if RequiredText(body, "name") && RequiredText(body, "category") &&
       OptionalText(body, "description") && OptionalText(body, "ifcGuid") && OptionalInteger(body, "passportId")
    then
      Some(NewComponentData(
        body["name"].s, body["category"].s,
        TextOrNull(body, "description"), TextOrNull(body, "ifcGuid"),
        if "passportId" in body && body["passportId"].Num? then Some(body["passportId"].n.Floor) else None))
    else None
  }

  function NewComponent(id: int, data: NewComponentData, authorId: string, now: int): Component {
    Component(id, data.name, data.category, data.description, data.ifcGuid, data.passportId, authorId, now)
  }

  // ---------------------------------------------------------- import jobs

  /** A component candidate found in an IFC model. */
  datatype IfcCandidate = IfcCandidate(name: string, guid: string, material: string)

  /** A spreadsheet row as the sheet reader returns it: header to cell. */
  type Row = map<string, Value>

  datatype ResultData = SheetRows(rows: seq<Row>) | IfcCandidates(items: seq<IfcCandidate>)

  datatype ImportJob = ImportJob(
    id: int,
    jobType: string,
    filename: string,
    status: string,
    resultData: Option<ResultData>,
    errorMessage: Option<string>,
    authorId: string,
    createdAt: int)

  /** An import-job insert payload; a missing status takes the column default. */
  datatype NewImportJobData = NewImportJobData(jobType: string, filename: string, status: Option<string>)

  /** The partial insert payload `updateImportJob` sets; the result and the error are nullable. */
  datatype JobUpdate = JobUpdate(
    jobType: Option<string>,
    filename: Option<string>,
    status: Option<string>,
    resultData: Nullable<ResultData>,
    errorMessage: Nullable<string>)

  /** Inserting a job: status defaults to "processing"; result and error start null. */
  function NewImportJob(id: int, data: NewImportJobData, authorId: string, now: int): (j: ImportJob)
    ensures j.id == id && j.authorId == authorId && j.createdAt == now
    ensures j.jobType == data.jobType && j.filename == data.filename
    ensures j.status == if data.status.Some? then data.status.value else ProcessingStatus
    ensures j.resultData.None? && j.errorMessage.None?
  {
    ImportJob(id, data.jobType, data.filename, data.status.GetOr(ProcessingStatus), None, None, authorId, now)
  }

  /** Merging an update into a job: supplied keys replace, the rest (and the owner) stay. */
  function UpdatedImportJob(j: ImportJob, u: JobUpdate): (r: ImportJob)
    ensures r.id == j.id && r.authorId == j.authorId && r.createdAt == j.createdAt
    ensures r.status == if u.status.Some? then u.status.value else j.status
    ensures r.resultData == if u.resultData.Some? then u.resultData.value else j.resultData
    ensures r.errorMessage == if u.errorMessage.Some? then u.errorMessage.value else j.errorMessage
    ensures r.jobType == (if u.jobType.Some? then u.jobType.value else j.jobType)
    ensures r.filename == (if u.filename.Some? then u.filename.value else j.filename)
  {
    j.(jobType := u.jobType.GetOr(j.jobType),
       filename := u.filename.GetOr(j.filename),
       status := u.status.GetOr(j.status),
       resultData := u.resultData.GetOr(j.resultData),
       errorMessage := u.errorMessage.GetOr(j.errorMessage))
  }
}
