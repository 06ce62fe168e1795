/**
 * The record types of schemas.py and their field constraints: object ids,
 * chat messages and sessions, citations, user profiles and their partial
 * updates, appointments and their partial updates, and the JSON values the
 * structured summary is made of.
 */
module Schemas {
  import opened Common
  import opened Credentials

  // ---------------------------------------------------------------- object ids

  predicate IsHexDigit(c: char)
  {
    '0' <= c <= '9' || 'a' <= c <= 'f' || 'A' <= c <= 'F'
  }

  predicate IsLowerHexDigit(c: char)
  {
    '0' <= c <= '9' || 'a' <= c <= 'f'
  }

  /** `ObjectId.is_valid` on a string: exactly 24 hexadecimal digits, either case. */
  predicate IsValidObjectId(s: string)
  {
    |s| == 24 && forall k :: 0 <= k < |s| ==> IsHexDigit(s[k])
  }

  /** The form `str(ObjectId(...))` produces: 24 lower-case hexadecimal digits. */
  predicate IsCanonicalObjectId(s: string)
  {
    |s| == 24 && forall k :: 0 <= k < |s| ==> IsLowerHexDigit(s[k])
  }

  /** A document id, as the store keys documents and as `str(id)` prints it. */
  type Oid = s: string | IsCanonicalObjectId(s) witness "000000000000000000000000"

  function LowerHex(c: char): (d: char)
    ensures IsHexDigit(c) ==> IsLowerHexDigit(d)
    ensures IsLowerHexDigit(c) ==> d == c
  {
    if 'A' <= c <= 'F' then (c as int + 32) as char else c
  }

  /**
   * `ObjectId(s)` for a string: the id it denotes, or None where the
   * constructor raises `InvalidId`.
   */
  function ParseObjectId(s: string): (r: Option<Oid>)
    ensures r.Some? <==> IsValidObjectId(s)
    ensures r.Some? ==> forall k :: 0 <= k < |s| ==> r.value[k] == LowerHex(s[k])
  {
    if IsValidObjectId(s) then
      var t := seq(|s|, k requires 0 <= k < |s| => LowerHex(s[k]));
      assert IsCanonicalObjectId(t);
      Some(t)
    else None
  }

  /** Printing an id and parsing it back gives the same id. */
  lemma ParsePrintedId(o: Oid)
    ensures ParseObjectId(o) == Some(o)
  {
    var r := ParseObjectId(o);
    assert r.Some?;
    assert r.value == o;
  }

  /** `PyObjectId.validate`: the string itself when it is a valid id, otherwise a validation error. */
  function ValidatePyObjectId(v: string): (r: Option<string>)
    ensures r.Some? <==> ParseObjectId(v).Some?
    ensures r.Some? ==> r.value == v
  {
    if IsValidObjectId(v) then Some(v) else None
  }

  // ---------------------------------------------------------------- chat

  /** `SourceCitation`. */
  datatype SourceCitation = SourceCitation(url: string, title: string, index: int)

  /** `ChatMessage`: turn number and citations are optional (absent in the stored dict when None). */
  datatype ChatMessage = ChatMessage(
    role: string,
    content: string,
    timestamp: Time,
    turnNumber: Option<int>,
    citations: Option<seq<SourceCitation>>)

  /** `ChatSession` without its id (the id is the store's key). */
  datatype ChatSession = ChatSession(
    userId: string,
    chatName: Option<string>,
    createdAt: Time,
    updatedAt: Time,
    history: seq<ChatMessage>)

  /** `ChatTurnResponse`. */
  datatype ChatTurnResponse = ChatTurnResponse(
    chatId: string,
    aiResponse: string,
    turnNumber: int,
    citations: seq<SourceCitation>)

  /** The `RenameChatRequest.new_name` constraint: between 1 and 100 characters. */
  predicate ValidChatName(newName: string)
  {
    1 <= |newName| <= 100
  }

  // ---------------------------------------------------------------- users

  /**
   * The health-profile fields of `UserProfileUpdate`. Weight and height are
   * floats in the source; here they are integers (see README).
   */
  datatype Profile = Profile(
    age: Option<int>,
    gender: Option<string>,
    weightKg: Option<int>,
    heightCm: Option<int>,
    allergies: Option<seq<string>>,
    previousIssues: Option<seq<string>>,
    currentMedications: Option<seq<string>>)

  const EmptyProfile := Profile(None, None, None, None, None, None, None)

  /** The `Field` constraints of `UserProfileUpdate`: age in [0, 120], weight and height not negative. */
  predicate ValidProfile(p: Profile)
  {
    && (p.age.Some? ==> 0 <= p.age.value <= 120)
    && (p.weightKg.Some? ==> p.weightKg.value >= 0)
    && (p.heightCm.Some? ==> p.heightCm.value >= 0)
  }

  /** A user document (`UserInDB` without its id). There is no plain-text password field. */
  datatype UserDoc = UserDoc(
    username: string,
    email: string,
    fullName: string,
    hashedPassword: Digest,
    profile: Profile)

  /** `UserBase`. */
  datatype UserBase = UserBase(username: string, email: string, fullName: string)

  /** `UserCreate`. */
  datatype UserCreate = UserCreate(username: string, email: string, fullName: string, password: string)

  /** `UserProfile`: the public fields of a user. */
  datatype UserProfile = UserProfile(username: string, email: string, fullName: string, profile: Profile)

  /** The authenticated caller of a request (`current_user`). */
  datatype CurrentUser = CurrentUser(id: Oid, doc: UserDoc)

  /** `UserProfileUpdate` as a request body: each field unset, or given (possibly null). */
  datatype ProfilePatch = ProfilePatch(
    age: Field<int>,
    gender: Field<string>,
    weightKg: Field<int>,
    heightCm: Field<int>,
    allergies: Field<seq<string>>,
    previousIssues: Field<seq<string>>,
    currentMedications: Field<seq<string>>)

  function GivenOr<T>(f: Field<T>, current: Option<T>): Option<T>
  {
    if f.Given? then f.value else current
  }

  predicate GivenSatisfies<T>(f: Field<T>, ok: T -> bool)
  {
    f.Given? && f.value.Some? ==> ok(f.value.value)
  }

  /** The `UserProfileUpdate` constraints, checked on the given, non-null fields. */
  predicate ValidProfilePatch(p: ProfilePatch)
  {
    && GivenSatisfies(p.age, (a: int) => 0 <= a <= 120)
    && GivenSatisfies(p.weightKg, (w: int) => w >= 0)
    && GivenSatisfies(p.heightCm, (h: int) => h >= 0)
  }

  /** `model_dump(exclude_unset=True)` is empty. */
  predicate NothingSet(p: ProfilePatch)
  {
    && p.age.Unset? && p.gender.Unset? && p.weightKg.Unset? && p.heightCm.Unset?
    && p.allergies.Unset? && p.previousIssues.Unset? && p.currentMedications.Unset?
  }

  // ---------------------------------------------------------------- appointments

  /** `AppointmentCreate` (= `AppointmentBase`). */
  datatype AppointmentCreate = AppointmentCreate(
    doctorName: Option<string>,
    specialization: Option<string>,
    reason: Option<string>,
    appointmentTime: Time)

  /** `AppointmentUpdate` as a request body. */
  datatype AppointmentUpdate = AppointmentUpdate(
    doctorName: Field<string>,
    specialization: Field<string>,
    reason: Field<string>,
    appointmentTime: Field<Time>)

  /** A JSON value, as the structured summary is stored. */
  datatype Json =
    | JNull
    | JBool(b: bool)
    | JNumber(n: int)
    | JString(s: string)
    | JArray(items: seq<Json>)
    | JObject(members: seq<(string, Json)>)

  /** An appointment document (`AppointmentInDB` without its id): `AppointmentBase`, owner, and the derived `AppointmentRecord` fields. */
  datatype Appointment = Appointment(
    userId: string,
    doctorName: Option<string>,
    specialization: Option<string>,
    reason: Option<string>,
    appointmentTime: Time,
    transcript: Option<string>,
    summary: Option<string>,
    structuredSummary: Option<Json>,
    audioPath: Option<string>,
    processedAt: Option<Time>)

  /** The `AppointmentBase` constraints: a given doctor name is not empty, a given reason is at most 500 characters. */
  predicate ValidAppointmentFields(doctorName: Option<string>, reason: Option<string>)
  {
    (doctorName.Some? ==> |doctorName.value| >= 1) && (reason.Some? ==> |reason.value| <= 500)
  }

  predicate ValidAppointmentCreate(a: AppointmentCreate)
  {
    ValidAppointmentFields(a.doctorName, a.reason)
  }

  predicate ValidAppointment(a: Appointment)
  {
    ValidAppointmentFields(a.doctorName, a.reason)
  }

  /** The `AppointmentUpdate` constraints on its given, non-null fields. */
  predicate ValidAppointmentUpdate(u: AppointmentUpdate)
  {
    && GivenSatisfies(u.doctorName, (d: string) => |d| >= 1)
    && GivenSatisfies(u.reason, (r: string) => |r| <= 500)
  }

  /** A freshly stored appointment: the caller's id, the given fields, every derived field unset. */
  function NewAppointment(a: AppointmentCreate, userId: string): (r: Appointment)
    ensures r.userId == userId && r.appointmentTime == a.appointmentTime
    ensures r.doctorName == a.doctorName && r.specialization == a.specialization && r.reason == a.reason
    ensures r.transcript.None? && r.summary.None? && r.structuredSummary.None?
    ensures r.audioPath.None? && r.processedAt.None?
    ensures ValidAppointmentCreate(a) ==> ValidAppointment(r)
  {
    Appointment(userId, a.doctorName, a.specialization, a.reason, a.appointmentTime,
                None, None, None, None, None)
  }

  /** `TranscriptionResponse`. */
  datatype TranscriptionResponse = TranscriptionResponse(
    appointmentId: string,
    transcript: string,
    summary: string,
    structuredSummary: Json)
}
