/** The record shapes shared by client and server (the `contacts` and
    `call_logs` tables) and the insert schemas derived from them.

    A request body is modelled at the level of JSON: an object whose fields
    are JSON values (nested structure is irrelevant to these schemas), or
    some other JSON value. Parsing follows the per-field rules of the
    derived schemas: a `notNull` text column is a required string, a
    nullable column is an optional string-or-null, a column with a default
    is optional, the enum column is required and one of three names, and
    keys outside the schema are dropped. Every violated field yields one
    issue, in the tables' column order. */
module Schema {
  import opened Wrappers

  // ---------------------------------------------------------------------
  // Records
  // ---------------------------------------------------------------------

  /** The `type` column of a call log: one of three names. */
  datatype CallType = Incoming | Outgoing | Missed

  /** A stored contact. `createdAt` is the clock reading at creation. */
  datatype Contact = Contact(
    id: string,
    name: string,
    phone: string,
    email: Option<string>,
    avatar: Option<string>,
    isFavorite: Option<bool>,
    createdAt: nat)

  /** A stored call log. `contactId` is a declared reference only: nothing
      checks that it names a stored contact. */
  datatype CallLog = CallLog(
    id: string,
    contactId: Option<string>,
    phoneNumber: string,
    contactName: Option<string>,
    callType: CallType,
    duration: Option<string>,
    timestamp: nat)

  /** What a client may supply to create a contact: no `id`, no `createdAt`. */
  datatype InsertContact = InsertContact(
    name: string,
    phone: string,
    email: Option<string>,
    avatar: Option<string>,
    isFavorite: Option<bool>)

  /** What a client may supply to create a call log: no `id`, no `timestamp`. */
  datatype InsertCallLog = InsertCallLog(
    contactId: Option<string>,
    phoneNumber: string,
    contactName: Option<string>,
    callType: CallType,
    duration: Option<string>)

  /** A partial contact update. `None` leaves a field alone; for the
      nullable fields `Some(None)` sets it to null. */
  datatype ContactPatch = ContactPatch(
    name: Option<string>,
    phone: Option<string>,
    email: Option<Option<string>>,
    avatar: Option<Option<string>>,
    isFavorite: Option<Option<bool>>)

  const EmptyPatch := ContactPatch(None, None, None, None, None)

  function CallTypeName(t: CallType): string {
    match t
    case Incoming => "incoming"
    case Outgoing => "outgoing"
    case Missed => "missed"
  }

  /** The enum check on `type`. */
  function ParseCallType(s: string): (r: Option<CallType>)
    ensures r.Some? <==> s == "incoming" || s == "outgoing" || s == "missed"
    ensures r.Some? ==> CallTypeName(r.value) == s
  {
    if s == "incoming" then Some(Incoming)
    else if s == "outgoing" then Some(Outgoing)
    else if s == "missed" then Some(Missed)
    else None
  }

  lemma CallTypeRoundTrip(t: CallType)
    ensures ParseCallType(CallTypeName(t)) == Some(t)
  {
  }

  // ---------------------------------------------------------------------
  // Request bodies and validation issues
  // ---------------------------------------------------------------------

  datatype Value = Null | Bool(b: bool) | Number | Str(s: string) | Array | Object

  datatype Body = Fields(fields: map<string, Value>) | NonObject(value: Value)

  /** One violation: where (`path`, empty for the body itself) and what. */
  datatype Issue = Issue(path: seq<string>, message: string)

  function TypeOfValue(v: Value): string {
    match v
    case Null => "null"
    case Bool(_) => "boolean"
    case Number => "number"
    case Str(_) => "string"
    case Array => "array"
    case Object => "object"
  }

  const RequiredMessage := "Required"

  function WrongType(key: string, expected: string, v: Value): Issue {
    Issue([key], "Expected " + expected + ", received " + TypeOfValue(v))
  }

  /** The outcome of checking one field. */
  datatype Checked<T> = Valid(value: T) | Invalid(issue: Issue)

  function IssuesOf<T>(c: Checked<T>): seq<Issue> {
    if c.Invalid? then [c.issue] else []
  }

  // A `notNull` text column: present and a string.
  function RequiredString(m: map<string, Value>, key: string): (r: Checked<string>)
    ensures r.Valid? <==> IsStr(m, key)
    ensures r.Valid? ==> r.value == m[key].s
    ensures r.Invalid? ==> r.issue.path == [key]
  {
    if key !in m then Invalid(Issue([key], RequiredMessage))
    else if m[key].Str? then Valid(m[key].s)
    else Invalid(WrongType(key, "string", m[key]))
  }

  // A nullable text column: absent, null or a string; absent and null are
  // both stored as no value.
  function NullableString(m: map<string, Value>, key: string): (r: Checked<Option<string>>)
    ensures r.Valid? <==> StrOrNull(m, key)
    ensures r.Valid? ==> r.value == StrField(m, key)
    ensures r.Invalid? ==> r.issue.path == [key]
  {
    if key !in m || m[key].Null? then Valid(None)
    else if m[key].Str? then Valid(Some(m[key].s))
    else Invalid(WrongType(key, "string", m[key]))
  }

  // A nullable boolean column with a default: absent, null or a boolean.
  function NullableBool(m: map<string, Value>, key: string): (r: Checked<Option<bool>>)
    ensures r.Valid? <==> BoolOrNull(m, key)
    ensures r.Valid? ==> r.value == BoolField(m, key)
    ensures r.Invalid? ==> r.issue.path == [key]
  {
    if key !in m || m[key].Null? then Valid(None)
    else if m[key].Bool? then Valid(Some(m[key].b))
    else Invalid(WrongType(key, "boolean", m[key]))
  }

  // The `type` enum column: present and one of the three names.
  function RequiredCallType(m: map<string, Value>, key: string): (r: Checked<CallType>)
    ensures r.Valid? <==> IsStr(m, key) && ParseCallType(m[key].s).Some?
    ensures r.Valid? ==> r.value == ParseCallType(m[key].s).value
    ensures r.Invalid? ==> r.issue.path == [key]
  {
    if key !in m then Invalid(Issue([key], RequiredMessage))
    else if m[key].Str? && ParseCallType(m[key].s).Some? then Valid(ParseCallType(m[key].s).value)
    else if m[key].Str? then
      Invalid(Issue([key], "Invalid enum value. Expected 'incoming' | 'outgoing' | 'missed', received '" + m[key].s + "'"))
    else Invalid(WrongType(key, "'incoming' | 'outgoing' | 'missed'", m[key]))
  }

  // In the partial schema every field may be absent, but a present field
  // obeys its column's rule, so `null` is still refused for `name`/`phone`.
  function PartialString(m: map<string, Value>, key: string): (r: Checked<Option<string>>)
    ensures r.Valid? <==> key !in m || m[key].Str?
    ensures r.Valid? ==> (r.value.Some? <==> key in m)
    ensures r.Valid? && r.value.Some? ==> r.value.value == m[key].s
    ensures r.Invalid? ==> r.issue.path == [key]
  {
    if key !in m then Valid(None)
    else if m[key].Str? then Valid(Some(m[key].s))
    else Invalid(WrongType(key, "string", m[key]))
  }

  function PartialNullableString(m: map<string, Value>, key: string): (r: Checked<Option<Option<string>>>)
    ensures r.Valid? <==> StrOrNull(m, key)
    ensures r.Valid? ==> (r.value.Some? <==> key in m)
    ensures r.Valid? && r.value.Some? ==> r.value.value == StrField(m, key)
    ensures r.Invalid? ==> r.issue.path == [key]
  {
    if key !in m then Valid(None)
    else if m[key].Null? then Valid(Some(None))
    else if m[key].Str? then Valid(Some(Some(m[key].s)))
    else Invalid(WrongType(key, "string", m[key]))
  }

  function PartialNullableBool(m: map<string, Value>, key: string): (r: Checked<Option<Option<bool>>>)
    ensures r.Valid? <==> BoolOrNull(m, key)
    ensures r.Valid? ==> (r.value.Some? <==> key in m)
    ensures r.Valid? && r.value.Some? ==> r.value.value == BoolField(m, key)
    ensures r.Invalid? ==> r.issue.path == [key]
  {
    if key !in m then Valid(None)
    else if m[key].Null? then Valid(Some(None))
    else if m[key].Bool? then Valid(Some(Some(m[key].b)))
    else Invalid(WrongType(key, "boolean", m[key]))
  }

  function NotAnObject(v: Value): seq<Issue> {
    [Issue([], "Expected object, received " + TypeOfValue(v))]
  }

  // ---------------------------------------------------------------------
  // Field rules stated directly on the JSON values
  // ---------------------------------------------------------------------

  ghost predicate IsStr(m: map<string, Value>, key: string) {
    key in m && m[key].Str?
  }

  ghost predicate StrOrNull(m: map<string, Value>, key: string) {
    key !in m || m[key].Null? || m[key].Str?
  }

  ghost predicate BoolOrNull(m: map<string, Value>, key: string) {
    key !in m || m[key].Null? || m[key].Bool?
  }

  /** The string a present string field holds; absent and null give none. */
  ghost function StrField(m: map<string, Value>, key: string): Option<string> {
    if key in m && m[key].Str? then Some(m[key].s) else None
  }

  ghost function BoolField(m: map<string, Value>, key: string): Option<bool> {
    if key in m && m[key].Bool? then Some(m[key].b) else None
  }

  /** Keys the contact insert schema knows; any other key is dropped. */
  const ContactKeys: set<string> := {"name", "phone", "email", "avatar", "isFavorite"}

  /** Keys the call-log insert schema knows. */
  const CallLogKeys: set<string> := {"contactId", "phoneNumber", "contactName", "type", "duration"}

  // ---------------------------------------------------------------------
  // The three schemas
  // ---------------------------------------------------------------------

  /** `insertContactSchema.parse(body)`: `name` and `phone` are required
      strings; `email` and `avatar` may be absent, null or a string;
      `isFavorite` may be absent, null or a boolean. */
  function ParseInsertContact(body: Body): (r: Result<InsertContact, seq<Issue>>)
    ensures r.Ok? <==>
      && body.Fields?
      && IsStr(body.fields, "name") && IsStr(body.fields, "phone")
      && StrOrNull(body.fields, "email") && StrOrNull(body.fields, "avatar")
      && BoolOrNull(body.fields, "isFavorite")
    ensures r.Ok? ==>
      var m := body.fields;
      r.value == InsertContact(m["name"].s, m["phone"].s, StrField(m, "email"),
                               StrField(m, "avatar"), BoolField(m, "isFavorite"))
    ensures r.Err? ==> r.error != []
    ensures r.Err? ==> forall i :: 0 <= i < |r.error| ==>
      r.error[i].path == [] || (|r.error[i].path| == 1 && r.error[i].path[0] in ContactKeys)
  {
    match body
    case NonObject(v) => Err(NotAnObject(v))
    case Fields(m) =>
      var name := RequiredString(m, "name");
      var phone := RequiredString(m, "phone");
      var email := NullableString(m, "email");
      var avatar := NullableString(m, "avatar");
      var favorite := NullableBool(m, "isFavorite");
      var issues := IssuesOf(name) + IssuesOf(phone) + IssuesOf(email) + IssuesOf(avatar) + IssuesOf(favorite);
      if issues == [] then Ok(InsertContact(name.value, phone.value, email.value, avatar.value, favorite.value))
      else Err(issues)
  }

  /** `insertContactSchema.partial().parse(body)`: every field may be absent;
      a present `name` or `phone` must be a string, a present `email` or
      `avatar` a string or null, a present `isFavorite` a boolean or null. */
  function ParseContactPatch(body: Body): (r: Result<ContactPatch, seq<Issue>>)
    ensures r.Ok? <==>
      && body.Fields?
      && ("name" in body.fields ==> body.fields["name"].Str?)
      && ("phone" in body.fields ==> body.fields["phone"].Str?)
      && StrOrNull(body.fields, "email") && StrOrNull(body.fields, "avatar")
      && BoolOrNull(body.fields, "isFavorite")
    ensures r.Ok? ==>
      var m := body.fields;
      && (r.value.name.Some? <==> "name" in m) && (r.value.phone.Some? <==> "phone" in m)
      && (r.value.email.Some? <==> "email" in m) && (r.value.avatar.Some? <==> "avatar" in m)
      && (r.value.isFavorite.Some? <==> "isFavorite" in m)
      && (r.value.name.Some? ==> r.value.name.value == m["name"].s)
      && (r.value.phone.Some? ==> r.value.phone.value == m["phone"].s)
      && (r.value.email.Some? ==> r.value.email.value == StrField(m, "email"))
      && (r.value.avatar.Some? ==> r.value.avatar.value == StrField(m, "avatar"))
      && (r.value.isFavorite.Some? ==> r.value.isFavorite.value == BoolField(m, "isFavorite"))
    ensures r.Err? ==> r.error != []
  {
    match body
    case NonObject(v) => Err(NotAnObject(v))
    case Fields(m) =>
      var name := PartialString(m, "name");
      var phone := PartialString(m, "phone");
      var email := PartialNullableString(m, "email");
      var avatar := PartialNullableString(m, "avatar");
      var favorite := PartialNullableBool(m, "isFavorite");
      var issues := IssuesOf(name) + IssuesOf(phone) + IssuesOf(email) + IssuesOf(avatar) + IssuesOf(favorite);
      if issues == [] then Ok(ContactPatch(name.value, phone.value, email.value, avatar.value, favorite.value))
      else Err(issues)
  }

  /** `insertCallLogSchema.parse(body)`: `phoneNumber` is a required string,
      `type` a required enum name; `contactId`, `contactName` and `duration`
      may be absent, null or a string. */
  function ParseInsertCallLog(body: Body): (r: Result<InsertCallLog, seq<Issue>>)
    ensures r.Ok? <==>
      && body.Fields?
      && StrOrNull(body.fields, "contactId") && IsStr(body.fields, "phoneNumber")
      && StrOrNull(body.fields, "contactName") && StrOrNull(body.fields, "duration")
      && IsStr(body.fields, "type") && ParseCallType(body.fields["type"].s).Some?
    ensures r.Ok? ==>
      var m := body.fields;
      r.value == InsertCallLog(StrField(m, "contactId"), m["phoneNumber"].s, StrField(m, "contactName"),
                               ParseCallType(m["type"].s).value, StrField(m, "duration"))
    ensures r.Err? ==> r.error != []
    ensures r.Err? ==> forall i :: 0 <= i < |r.error| ==>
      r.error[i].path == [] || (|r.error[i].path| == 1 && r.error[i].path[0] in CallLogKeys)
  {
    match body
    case NonObject(v) => Err(NotAnObject(v))
    case Fields(m) =>
      var contactId := NullableString(m, "contactId");
      var phoneNumber := RequiredString(m, "phoneNumber");
      var contactName := NullableString(m, "contactName");
      var callType := RequiredCallType(m, "type");
      var duration := NullableString(m, "duration");
      var issues := IssuesOf(contactId) + IssuesOf(phoneNumber) + IssuesOf(contactName) + IssuesOf(callType) + IssuesOf(duration);
      if issues == [] then Ok(InsertCallLog(contactId.value, phoneNumber.value, contactName.value, callType.value, duration.value))
      else Err(issues)
  }

  // ---------------------------------------------------------------------
  // Encoding a value as the JSON a client sends
  // ---------------------------------------------------------------------

  // Each helper adds one key, or none when the value is to be left out.

  function PutStr(m: map<string, Value>, key: string, v: Option<string>): map<string, Value> {
    if v.Some? then m[key := Str(v.value)] else m
  }

  function PutBool(m: map<string, Value>, key: string, v: Option<bool>): map<string, Value> {
    if v.Some? then m[key := Bool(v.value)] else m
  }

  function PutNullableStr(m: map<string, Value>, key: string, v: Option<Option<string>>): map<string, Value> {
    if v.None? then m else m[key := if v.value.None? then Null else Str(v.value.value)]
  }

  function PutNullableBool(m: map<string, Value>, key: string, v: Option<Option<bool>>): map<string, Value> {
    if v.None? then m else m[key := if v.value.None? then Null else Bool(v.value.value)]
  }

  /** `JSON.stringify` of a contact insert: name and phone always, each
      optional field only when it is set, and no key outside the schema. */
  function EncodeInsertContact(c: InsertContact): (r: Body)
    ensures r.Fields? && r.fields.Keys <= ContactKeys
    ensures "name" in r.fields && r.fields["name"] == Str(c.name)
    ensures "phone" in r.fields && r.fields["phone"] == Str(c.phone)
    ensures ("email" in r.fields <==> c.email.Some?) && ("avatar" in r.fields <==> c.avatar.Some?)
    ensures "isFavorite" in r.fields <==> c.isFavorite.Some?
  {
    var m := map["name" := Str(c.name), "phone" := Str(c.phone)];
    Fields(PutBool(PutStr(PutStr(m, "email", c.email), "avatar", c.avatar), "isFavorite", c.isFavorite))
  }

  /** `JSON.stringify` of a patch: a key exactly for each supplied field, a
      supplied null as `null`. */
  function EncodeContactPatch(p: ContactPatch): (r: Body)
    ensures r.Fields? && r.fields.Keys <= ContactKeys
    ensures ("name" in r.fields <==> p.name.Some?) && ("phone" in r.fields <==> p.phone.Some?)
    ensures ("email" in r.fields <==> p.email.Some?) && ("avatar" in r.fields <==> p.avatar.Some?)
    ensures "isFavorite" in r.fields <==> p.isFavorite.Some?
  {
    var m := PutStr(PutStr(map[], "name", p.name), "phone", p.phone);
    Fields(PutNullableBool(PutNullableStr(PutNullableStr(m, "email", p.email), "avatar", p.avatar),
                           "isFavorite", p.isFavorite))
  }

  /** `JSON.stringify` of a call-log insert: number and type always, each
      optional field only when it is set, and no key outside the schema. */
  function EncodeInsertCallLog(l: InsertCallLog): (r: Body)
    ensures r.Fields? && r.fields.Keys <= CallLogKeys
    ensures "phoneNumber" in r.fields && r.fields["phoneNumber"] == Str(l.phoneNumber)
    ensures "type" in r.fields && r.fields["type"] == Str(CallTypeName(l.callType))
    ensures ("contactId" in r.fields <==> l.contactId.Some?) && ("contactName" in r.fields <==> l.contactName.Some?)
    ensures "duration" in r.fields <==> l.duration.Some?
  {
    var m := map["phoneNumber" := Str(l.phoneNumber), "type" := Str(CallTypeName(l.callType))];
    Fields(PutStr(PutStr(PutStr(m, "contactId", l.contactId), "contactName", l.contactName), "duration", l.duration))
  }

  // ---------------------------------------------------------------------
  // Properties of the schemas
  // ---------------------------------------------------------------------

  /** Every well-formed contact insert is accepted as exactly itself. */
  lemma InsertContactRoundTrip(c: InsertContact)
    ensures ParseInsertContact(EncodeInsertContact(c)) == Ok(c)
  {
  }

  // The encoded patch holds each field under its own key, so each
  // field's check sees exactly what the patch says.
  lemma EncodedPatchName(p: ContactPatch)
    ensures PartialString(EncodeContactPatch(p).fields, "name") == Valid(p.name)
  {
  }

  lemma EncodedPatchPhone(p: ContactPatch)
    ensures PartialString(EncodeContactPatch(p).fields, "phone") == Valid(p.phone)
  {
  }

  lemma EncodedPatchEmail(p: ContactPatch)
    ensures PartialNullableString(EncodeContactPatch(p).fields, "email") == Valid(p.email)
  {
  }

  lemma EncodedPatchAvatar(p: ContactPatch)
    ensures PartialNullableString(EncodeContactPatch(p).fields, "avatar") == Valid(p.avatar)
  {
  }

  lemma EncodedPatchFavorite(p: ContactPatch)
    ensures PartialNullableBool(EncodeContactPatch(p).fields, "isFavorite") == Valid(p.isFavorite)
  {
  }

  /** Every patch is accepted as exactly itself. */
  lemma ContactPatchRoundTrip(p: ContactPatch)
    ensures ParseContactPatch(EncodeContactPatch(p)) == Ok(p)
  {
    EncodedPatchName(p);
    EncodedPatchPhone(p);
    EncodedPatchEmail(p);
    EncodedPatchAvatar(p);
    EncodedPatchFavorite(p);
  }

  /** Every well-formed call-log insert is accepted as exactly itself. */
  lemma InsertCallLogRoundTrip(l: InsertCallLog)
    ensures ParseInsertCallLog(EncodeInsertCallLog(l)) == Ok(l)
  {
    var m := EncodeInsertCallLog(l).fields;
    CallTypeRoundTrip(l.callType);
    assert NullableString(m, "contactId") == Valid(l.contactId);
    assert RequiredString(m, "phoneNumber") == Valid(l.phoneNumber);
    assert NullableString(m, "contactName") == Valid(l.contactName);
    assert RequiredCallType(m, "type") == Valid(l.callType);
    assert NullableString(m, "duration") == Valid(l.duration);
  }

  /** Keys outside the contact schema, `id` and `createdAt` among them, are
      dropped: a client cannot choose them. */
  lemma InsertContactIgnoresOtherKeys(m: map<string, Value>, key: string, v: Value)
    requires key !in ContactKeys
    ensures ParseInsertContact(Fields(m[key := v])) == ParseInsertContact(Fields(m))
  {
    var m' := m[key := v];
    assert RequiredString(m', "name") == RequiredString(m, "name");
    assert RequiredString(m', "phone") == RequiredString(m, "phone");
    assert NullableString(m', "email") == NullableString(m, "email");
    assert NullableString(m', "avatar") == NullableString(m, "avatar");
    assert NullableBool(m', "isFavorite") == NullableBool(m, "isFavorite");
  }

  /** The same holds of an update body. */
  lemma ContactPatchIgnoresOtherKeys(m: map<string, Value>, key: string, v: Value)
    requires key !in ContactKeys
    ensures ParseContactPatch(Fields(m[key := v])) == ParseContactPatch(Fields(m))
  {
    var m' := m[key := v];
    assert PartialString(m', "name") == PartialString(m, "name");
    assert PartialString(m', "phone") == PartialString(m, "phone");
    assert PartialNullableString(m', "email") == PartialNullableString(m, "email");
    assert PartialNullableString(m', "avatar") == PartialNullableString(m, "avatar");
    assert PartialNullableBool(m', "isFavorite") == PartialNullableBool(m, "isFavorite");
  }

  /** Keys outside the call-log schema, `id` and `timestamp` among them, are
      dropped. */
  lemma InsertCallLogIgnoresOtherKeys(m: map<string, Value>, key: string, v: Value)
    requires key !in CallLogKeys
    ensures ParseInsertCallLog(Fields(m[key := v])) == ParseInsertCallLog(Fields(m))
  {
    var m' := m[key := v];
    assert NullableString(m', "contactId") == NullableString(m, "contactId");
    assert RequiredString(m', "phoneNumber") == RequiredString(m, "phoneNumber");
    assert NullableString(m', "contactName") == NullableString(m, "contactName");
    assert RequiredCallType(m', "type") == RequiredCallType(m, "type");
    assert NullableString(m', "duration") == NullableString(m, "duration");
  }

  /** A call-log body whose `type` is a string outside the enum is refused,
      with an issue on `type`. */
  lemma UnknownCallTypeRefused(m: map<string, Value>, s: string)
    requires "type" in m && m["type"] == Str(s)
    requires s != "incoming" && s != "outgoing" && s != "missed"
    ensures ParseInsertCallLog(Fields(m)).Err?
    ensures exists i :: 0 <= i < |ParseInsertCallLog(Fields(m)).error|
                        && ParseInsertCallLog(Fields(m)).error[i].path == ["type"]
  {
    var contactId := NullableString(m, "contactId");
    var phoneNumber := RequiredString(m, "phoneNumber");
    var contactName := NullableString(m, "contactName");
    var prefix := IssuesOf(contactId) + IssuesOf(phoneNumber) + IssuesOf(contactName);
    var errs := ParseInsertCallLog(Fields(m)).error;
    assert errs[|prefix|].path == ["type"];
  }
}
