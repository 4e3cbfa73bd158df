/**
 * The records the engagement service reads and writes: the unified engagement
 * fields, the crm_engagements row, the raw-payload snapshot, the EAV value rows,
 * the audit events, and the whole store they live in. Also the sparse overlay
 * that the service applies when it writes unified fields into a row.
 */
module EngagementModel {
  import opened Wrappers

  /** The raw object a provider returned. Only its `id` property is inspected;
      everything else is carried as an opaque serialisation. */
  datatype RawPayload = RawPayload(id: Option<string>, body: string)

  /** A provider's answer to a push: the payload and the HTTP status code. */
  datatype ApiResponse = ApiResponse(data: RawPayload, statusCode: int)

  /** The well-known unified engagement fields. Dates are instants in milliseconds. */
  datatype Fields = Fields(
    content: Option<string>,
    direction: Option<string>,
    subject: Option<string>,
    startAt: Option<int>,
    endTime: Option<int>,
    engagementType: Option<string>,
    companyId: Option<string>)

  const NoFields := Fields(None, None, None, None, None, None, None)

  datatype FieldName = Content | Direction | Subject | StartAt | EndTime | EngagementType | CompanyId

  const AllFieldNames: set<FieldName> := {Content, Direction, Subject, StartAt, EndTime, EngagementType, CompanyId}

  datatype FieldValue = Text(text: string) | Instant(millis: int)

  /** JavaScript truthiness of a `string | undefined`: present and not empty. */
  predicate Truthy(s: Option<string>)
  {
    s.Some? && s.value != ""
  }

  /** The value a field holds, whatever it is. */
  function Get(f: Fields, n: FieldName): Option<FieldValue>
  {
    match n
    case Content => if f.content.Some? then Some(Text(f.content.value)) else None
    case Direction => if f.direction.Some? then Some(Text(f.direction.value)) else None
    case Subject => if f.subject.Some? then Some(Text(f.subject.value)) else None
    case StartAt => if f.startAt.Some? then Some(Instant(f.startAt.value)) else None
    case EndTime => if f.endTime.Some? then Some(Instant(f.endTime.value)) else None
    case EngagementType => if f.engagementType.Some? then Some(Text(f.engagementType.value)) else None
    case CompanyId => if f.companyId.Some? then Some(Text(f.companyId.value)) else None
  }

  /** Whether a field is truthy: a non-empty string, or any Date (a Date object is always truthy). */
  predicate IsKnown(f: Fields, n: FieldName)
  {
    match Get(f, n)
    case None => false
    case Some(Text(s)) => s != ""
    case Some(Instant(_)) => true
  }

  /** The names of the truthy fields. */
  function Known(f: Fields): set<FieldName>
  {
    set n | n in AllFieldNames && IsKnown(f, n)
  }

  /** The sparse update of engagement.service.ts: each truthy incoming field
      replaces the stored one, every other stored field is kept. */
  function Overlay(stored: Fields, incoming: Fields): Fields
  {
    Fields(
      if Truthy(incoming.content) then incoming.content else stored.content,
      if Truthy(incoming.direction) then incoming.direction else stored.direction,
      if Truthy(incoming.subject) then incoming.subject else stored.subject,
      if incoming.startAt.Some? then incoming.startAt else stored.startAt,
      if incoming.endTime.Some? then incoming.endTime else stored.endTime,
      if Truthy(incoming.engagementType) then incoming.engagementType else stored.engagementType,
      if Truthy(incoming.companyId) then incoming.companyId else stored.companyId)
  }

  /** Field by field: a truthy incoming value wins, otherwise the stored value survives. */
  lemma OverlayFieldwise(stored: Fields, incoming: Fields)
    ensures forall n :: Get(Overlay(stored, incoming), n) == if IsKnown(incoming, n) then Get(incoming, n) else Get(stored, n)
  {
    forall n ensures Get(Overlay(stored, incoming), n) == if IsKnown(incoming, n) then Get(incoming, n) else Get(stored, n) {
      match n
      case Content =>
      case Direction =>
      case Subject =>
      case StartAt =>
      case EndTime =>
      case EngagementType =>
      case CompanyId =>
    }
  }

  /** A merge never forgets a known field, and it learns every field the incoming object knows. */
  lemma OverlayKnown(stored: Fields, incoming: Fields)
    ensures Known(Overlay(stored, incoming)) == Known(stored) + Known(incoming)
  {
    OverlayFieldwise(stored, incoming);
  }

  /** Merging the same unified object twice is the same as merging it once. */
  lemma OverlayIdempotent(stored: Fields, incoming: Fields)
    ensures Overlay(Overlay(stored, incoming), incoming) == Overlay(stored, incoming)
  {
  }

  /** The sparse-merge law: two fragments that set different fields both survive,
      in either order. */
  lemma FragmentsAccumulate(stored: Fields, first: Fields, second: Fields)
    requires Known(first) !! Known(second)
    ensures Overlay(Overlay(stored, first), second) == Overlay(Overlay(stored, second), first)
    ensures forall n :: n in Known(first) ==> Get(Overlay(Overlay(stored, first), second), n) == Get(first, n)
    ensures forall n :: n in Known(second) ==> Get(Overlay(Overlay(stored, first), second), n) == Get(second, n)
  {
    OverlayFieldwise(stored, first);
    OverlayFieldwise(Overlay(stored, first), second);
    OverlayFieldwise(stored, second);
    OverlayFieldwise(Overlay(stored, second), first);
    forall n ensures Get(Overlay(Overlay(stored, first), second), n) == Get(Overlay(Overlay(stored, second), first), n) {
      assert !(n in Known(first) && n in Known(second));
    }
    FieldsDeterminedByGet(Overlay(Overlay(stored, first), second), Overlay(Overlay(stored, second), first));
  }

  /** Two field records that agree on every field name are equal. */
  lemma FieldsDeterminedByGet(a: Fields, b: Fields)
    requires forall n :: Get(a, n) == Get(b, n)
    ensures a == b
  {
    assert Get(a, Content) == Get(b, Content);
    assert Get(a, Direction) == Get(b, Direction);
    assert Get(a, Subject) == Get(b, Subject);
    assert Get(a, StartAt) == Get(b, StartAt);
    assert Get(a, EndTime) == Get(b, EndTime);
    assert Get(a, EngagementType) == Get(b, EngagementType);
    assert Get(a, CompanyId) == Get(b, CompanyId);
  }

  /** A row of crm_engagements. */
  datatype Engagement = Engagement(
    id: string,
    fields: Fields,
    remoteId: Option<string>,
    remotePlatform: string,
    linkedUser: string,
    createdAt: int,
    modifiedAt: int)

  /** The identity of a record at its provider, for one linked user. */
  datatype RemoteKey = RemoteKey(remoteId: Option<string>, platform: string, linkedUser: string)

  function KeyOf(e: Engagement): RemoteKey
  {
    RemoteKey(e.remoteId, e.remotePlatform, e.linkedUser)
  }

  /** A row of remote_data: the last raw payload stored for its owner. */
  datatype RemoteSnapshot = RemoteSnapshot(id: string, format: string, data: RawPayload, createdAt: int)

  /** A row of value, joined with its attribute's slug. */
  datatype ValueRow = ValueRow(owner: string, slug: string, data: string)

  /** One `{ [slug]: data }` entry of an output's field_mappings. */
  datatype Entry = Entry(slug: string, data: string)

  datatype EventStatus = StatusSuccess | StatusFail

  /** A row of events. */
  datatype Event = Event(
    id: string,
    status: EventStatus,
    eventType: string,
    httpMethod: string,
    url: string,
    provider: string,
    direction: string,
    timestamp: int,
    linkedUser: string)

  /** The unified object kinds an engagement is unified into. */
  datatype CrmObject = EngagementCall | EngagementMeeting | EngagementEmail

  /** The parts of a unified engagement input that the service itself reads;
      the rest reaches only desunify and the provider. */
  datatype EngagementInput = EngagementInput(engagementType: string, companyId: Option<string>, contacts: seq<string>)

  /** A unified engagement output. */
  datatype EngagementOutput = EngagementOutput(
    id: string,
    fields: Fields,
    fieldMappings: seq<Entry>,
    remoteData: Option<RawPayload>)

  datatype ServiceError =
    | LinkedUserNotFound
    | CompanyNotFound
    | EngagementTypeMissing
    | EngagementTypeUnknown
    | ProviderCallFailed
    | UnifiedNothing
    | EngagementNotFound
    | RemoteDataNotFound

  /** What the world supplies to one addEngagement call: the provider's answer
      (None when the call threw), the uuids it draws and the clock. */
  datatype CallEnv = CallEnv(
    response: Option<ApiResponse>,
    freshId: string,
    snapshotId: string,
    eventId: string,
    now: int)

  /** The tables the service touches. */
  datatype Db = Db(
    linkedUsers: set<string>,
    companies: set<string>,
    engagements: seq<Engagement>,
    remoteData: map<string, RemoteSnapshot>,
    values: seq<ValueRow>,
    events: seq<Event>)

  /** A result together with the store after the call. */
  datatype Step<+T> = Step(result: T, db: Db)
}
