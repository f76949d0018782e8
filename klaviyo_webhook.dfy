/**
  The server-side webhook: a form submission arrives as an HTTP request, is
  checked (method, form identity, email), turned into a Klaviyo profile
  payload and sent to the profile-upsert endpoint; the outcome becomes the
  HTTP reply. The network answer is an input (`HttpOutcome`), and whether a
  response body is valid JSON is an input too (`parses`), since `JSON.parse`
  is not part of this model.
 */
module KlaviyoWebhook {
  import opened JsValues
  import opened NameSplit
  import opened Decimal

  const SweepstakesFormName := "Sweepstakes 2025"
  const SweepstakesFormId := "wf-form-Sweepstakes-2025"

  /** The parsed JSON request body: field name to field value. */
  type FormBody = map<string, string>

  /** `formData[key]`: `None` stands for `undefined`. */
  function Field(body: FormBody, key: string): JsString {
    if key in body then Some(body[key]) else None
  }

  // ---------------------------------------------------------------------------
  // Replies

  /** The JSON object of a reply; each key is present or absent. */
  datatype ReplyBody = ReplyBody(success: Option<bool>, message: JsString, error: JsString)

  datatype Reply = Reply(status: nat, body: ReplyBody)

  const MethodNotAllowed := Reply(405, ReplyBody(None, None, Some("Method not allowed")))
  const FormNotMatched := Reply(200, ReplyBody(None, Some("Form not matched"), None))
  const EmailRequired := Reply(400, ReplyBody(None, None, Some("Email is required")))
  const ProfileUpdated := Reply(200, ReplyBody(Some(true), Some("Profile updated in Klaviyo"), None))

  function UpsertFailed(message: string): Reply {
    Reply(500, ReplyBody(Some(false), None, Some(message)))
  }

  // ---------------------------------------------------------------------------
  // Field extraction

  /**
    The submission is the sweepstakes form: its `name` key holds the form's
    name or its `form` key holds the form's id; a body without either key
    (an empty object, or a primitive, whose properties read as undefined) is
    never the form.
   */
  predicate IsSweepstakesForm(body: FormBody): (r: bool)
    ensures r <==> ("name" in body && body["name"] == SweepstakesFormName) || ("form" in body && body["form"] == SweepstakesFormId)
    ensures "name" !in body && "form" !in body ==> !r
  {
    Field(body, "name") == Some(SweepstakesFormName) || Field(body, "form") == Some(SweepstakesFormId)
  }

  /**
    `formData[preferred] || formData[fallback]`: the preferred (capitalised)
    key wins when it holds a non-empty string; otherwise the fallback key's
    value is taken as it is, empty or missing included.
   */
  function FieldOr(body: FormBody, preferred: string, fallback: string): (v: JsString)
    ensures Truthy(Field(body, preferred)) ==> v == Some(body[preferred])
    ensures !Truthy(Field(body, preferred)) ==> v == Field(body, fallback)
    ensures Truthy(v) <==> Truthy(Field(body, preferred)) || Truthy(Field(body, fallback))
  {
    Or(Field(body, preferred), Field(body, fallback))
  }

  datatype ExtractedFields = ExtractedFields(email: JsString, name: JsString, phone: JsString, zipCode: JsString)

  /**
    The four fields, each from its capitalised key with its fallback:
    `Email`/`email`, `Name`/`name`, `Phone`/`phone`, `Zip-Code`/`zipCode`.
    A field is non-empty exactly when one of its two keys holds a non-empty
    string, and then it is the capitalised key's value if that one is.
   */
  function ExtractFields(body: FormBody): (f: ExtractedFields)
    ensures Truthy(f.email) <==> Truthy(Field(body, "Email")) || Truthy(Field(body, "email"))
    ensures Truthy(f.name) <==> Truthy(Field(body, "Name")) || Truthy(Field(body, "name"))
    ensures Truthy(f.phone) <==> Truthy(Field(body, "Phone")) || Truthy(Field(body, "phone"))
    ensures Truthy(f.zipCode) <==> Truthy(Field(body, "Zip-Code")) || Truthy(Field(body, "zipCode"))
    ensures Truthy(Field(body, "Email")) ==> f.email == Field(body, "Email")
    ensures Truthy(Field(body, "Name")) ==> f.name == Field(body, "Name")
    ensures Truthy(Field(body, "Phone")) ==> f.phone == Field(body, "Phone")
    ensures Truthy(Field(body, "Zip-Code")) ==> f.zipCode == Field(body, "Zip-Code")
    ensures !Truthy(Field(body, "Email")) ==> f.email == Field(body, "email")
    ensures !Truthy(Field(body, "Name")) ==> f.name == Field(body, "name")
    ensures !Truthy(Field(body, "Phone")) ==> f.phone == Field(body, "phone")
    ensures !Truthy(Field(body, "Zip-Code")) ==> f.zipCode == Field(body, "zipCode")
  {
    ExtractedFields(
      FieldOr(body, "Email", "email"),
      FieldOr(body, "Name", "name"),
      FieldOr(body, "Phone", "phone"),
      FieldOr(body, "Zip-Code", "zipCode"))
  }

  // ---------------------------------------------------------------------------
  // The profile payload

  datatype Location = Location(zip: JsString)
  datatype CampaignProperties = CampaignProperties(sweepstakes2025: bool)
  datatype ProfileAttributes = ProfileAttributes(
    email: string,
    firstName: string,
    lastName: string,
    phoneNumber: JsString,
    location: Location,
    properties: CampaignProperties)
  /** `kind` is the JSON key `type`. */
  datatype ProfileData = ProfileData(kind: string, attributes: ProfileAttributes)
  datatype ProfileRequest = ProfileRequest(data: ProfileData)

  /**
    The body of the profile-upsert call. Its type is always "profile" and it
    always sets the campaign flag; the zip code sits under `location`; phone
    and zip are passed on as given, with no default.
   */
  function BuildProfilePayload(email: string, name: PersonName, phone: JsString, zipCode: JsString): (p: ProfileRequest)
    ensures p.data.kind == "profile"
    ensures p.data.attributes.properties.sweepstakes2025
    ensures p.data.attributes.email == email
    ensures p.data.attributes.firstName == name.firstName && p.data.attributes.lastName == name.lastName
    ensures p.data.attributes.phoneNumber == phone && p.data.attributes.location.zip == zipCode
  {
    ProfileRequest(ProfileData("profile", ProfileAttributes(
      email, name.firstName, name.lastName, phone, Location(zipCode), CampaignProperties(true))))
  }

  // ---------------------------------------------------------------------------
  // The upstream answer

  /** What the HTTPS request ends with: a response (status and body chunks) or a request error. */
  datatype HttpOutcome = Response(statusCode: nat, chunks: seq<string>) | RequestError(message: string)

  /** The response body: every chunk appended in arrival order. */
  function ResponseData(chunks: seq<string>): string {
    if chunks == [] then "" else ResponseData(chunks[..|chunks| - 1]) + chunks[|chunks| - 1]
  }

  /** How the body is cut into chunks does not change the collected data. */
  lemma {:induction false} ResponseDataAppend(a: seq<string>, b: seq<string>)
    ensures ResponseData(a + b) == ResponseData(a) + ResponseData(b)
  {
    if b != [] {
      var ab := a + b;
      assert ab[..|ab| - 1] == a + b[..|b| - 1];
      ResponseDataAppend(a, b[..|b| - 1]);
    } else {
      assert a + b == a;
    }
  }

  /** Collects the response body chunk by chunk, as the `data` handler does. */
  method CollectResponseData(chunks: seq<string>) returns (data: string)
    ensures data == ResponseData(chunks)
  {
    data := "";
    var i := 0;
    while i < |chunks|
      invariant 0 <= i <= |chunks|
      invariant data == ResponseData(chunks[..i])
    {
      assert chunks[..i + 1][..i] == chunks[..i];
      data := data + chunks[i];
      i := i + 1;
    }
    assert chunks[..i] == chunks;
  }

  predicate IsSuccessStatus(code: nat) {
    200 <= code < 300
  }

  /** What a successful upsert resolves with: the parsed body, or `{success: true, raw}`. */
  datatype ResolvedValue = Parsed(data: string) | Unparsed(data: string)

  datatype UpsertResult = Resolved(value: ResolvedValue) | Rejected(message: string)

  const ApiErrorPrefix := "Klaviyo API error: "


  /** The number of digits at the front of `s`. */
  function LeadingDigits(s: string): (k: nat)
    ensures k <= |s| && AllDigits(s[..k])
    ensures k < |s| ==> !IsDigit(s[k])
  {
    if s == [] || !IsDigit(s[0]) then 0
    else
      var k := 1 + LeadingDigits(s[1..]);
      assert forall i :: 1 <= i < k ==> s[..k][i] == s[1..][..k - 1][i - 1];
      k
  }

  /**
    Reads the status code and the raw body back out of an API error message;
    only the shortest decimal text of a status code (no leading zero) is read.
   */
  function DecodeApiError(m: string): Option<(nat, string)> {
    if |m| < |ApiErrorPrefix| || m[..|ApiErrorPrefix|] != ApiErrorPrefix then None
    else
      var rest := m[|ApiErrorPrefix|..];
      var k := LeadingDigits(rest);
      if k == 0 || (k > 1 && rest[0] == '0') || |rest| < k + 3 || rest[k..k + 3] != " - " then None
      else Some((ParseDecimal(rest[..k]), rest[k + 3..]))
  }

  lemma {:induction false} LeadingDigitsOfDigitsThen(d: string, t: string)
    requires AllDigits(d)
    requires t != [] && !IsDigit(t[0])
    ensures LeadingDigits(d + t) == |d|
  {
    if d != [] {
      assert (d + t)[1..] == d[1..] + t;
      LeadingDigitsOfDigitsThen(d[1..], t);
    } else {
      assert d + t == t;
    }
  }

  /** The text of an API error message carries the status code and the raw body, both recoverable. */
  lemma DecodeApiErrorMessage(statusCode: nat, data: string)
    ensures DecodeApiError(ApiErrorPrefix + NatToDecimal(statusCode) + " - " + data) == Some((statusCode, data))
  {
    var m := ApiErrorPrefix + NatToDecimal(statusCode) + " - " + data;
    var digits := NatToDecimal(statusCode);
    var rest := digits + " - " + data;
    assert m == ApiErrorPrefix + rest;
    assert m[..|ApiErrorPrefix|] == ApiErrorPrefix;
    assert m[|ApiErrorPrefix|..] == rest;
    assert rest == digits + (" - " + data);
    LeadingDigitsOfDigitsThen(digits, " - " + data);
    assert rest[..|digits|] == digits;
    assert rest[|digits|..|digits| + 3] == " - ";
    assert rest[|digits| + 3..] == data;
    ParseNatToDecimal(statusCode);
  }

  /**
    The message of the error a non-2xx response rejects with: it starts with
    the fixed prefix, and the status code and the raw body can be read back.
   */
  function ApiErrorMessage(statusCode: nat, data: string): (m: string)
    ensures |m| >= |ApiErrorPrefix| && m[..|ApiErrorPrefix|] == ApiErrorPrefix
    ensures DecodeApiError(m) == Some((statusCode, data))
  {
    var m := ApiErrorPrefix + NatToDecimal(statusCode) + " - " + data;
    DecodeApiErrorMessage(statusCode, data);
    m
  }

  /**
    How `createOrUpdateKlaviyoProfile` settles: any 2xx status resolves,
    whether or not the body is JSON (unparseable text resolves as raw); any
    other status rejects with a message carrying the status code and the raw
    body; a request error rejects with that error's message.
   */
  function SettleUpsert(upstream: HttpOutcome, parses: string -> bool): (r: UpsertResult)
    ensures r.Resolved? <==> upstream.Response? && IsSuccessStatus(upstream.statusCode)
    ensures r.Resolved? ==> r.value.data == ResponseData(upstream.chunks)
    ensures r.Resolved? ==> (r.value.Parsed? <==> parses(ResponseData(upstream.chunks)))
    ensures upstream.Response? && !IsSuccessStatus(upstream.statusCode) ==>
              DecodeApiError(r.message) == Some((upstream.statusCode, ResponseData(upstream.chunks)))
    ensures upstream.RequestError? ==> r == Rejected(upstream.message)
  {
    match upstream
    case RequestError(message) => Rejected(message)
    case Response(statusCode, chunks) =>
      var data := ResponseData(chunks);
      if IsSuccessStatus(statusCode) then
        if parses(data) then Resolved(Parsed(data)) else Resolved(Unparsed(data))
      else
        Rejected(ApiErrorMessage(statusCode, data))
  }

  /** `createOrUpdateKlaviyoProfile`: builds the payload, collects the answer, settles. */
  method CreateOrUpdateKlaviyoProfile(
    email: string, name: PersonName, phone: JsString, zipCode: JsString,
    upstream: HttpOutcome, parses: string -> bool)
    returns (request: ProfileRequest, result: UpsertResult)
    ensures request == BuildProfilePayload(email, name, phone, zipCode)
    ensures result == SettleUpsert(upstream, parses)
  {
    request := BuildProfilePayload(email, name, phone, zipCode);
    match upstream
    case RequestError(message) =>
      result := Rejected(message);
    case Response(statusCode, chunks) =>
      var data := CollectResponseData(chunks);
      if 200 <= statusCode && statusCode < 300 {
        result := if parses(data) then Resolved(Parsed(data)) else Resolved(Unparsed(data));
      } else {
        result := Rejected(ApiErrorMessage(statusCode, data));
      }
  }

  // ---------------------------------------------------------------------------
  // The request handler

  /** The reply, and the profile payload sent upstream if a call was made. */
  datatype Handled = Handled(reply: Reply, upsert: Option<ProfileRequest>)

  /** The payload for a submission whose email is present. */
  function ProfileFor(fields: ExtractedFields): ProfileRequest
    requires Truthy(fields.email)
  {
    BuildProfilePayload(fields.email.value, SplitName(OrEmpty(fields.name)), fields.phone, fields.zipCode)
  }

  /**
    `handleWebhookRequest`, as a decision: method first, then form identity,
    then email, then the upsert. Exactly the POST requests from the
    sweepstakes form with an email reach the upstream; everything else is
    answered without a call. The reply is 200 with `success: true` exactly
    when the upsert resolved, and 500 with `success: false` and the error's
    message when it rejected.
   */
  function WebhookDecision(httpMethod: string, body: FormBody, upstream: HttpOutcome, parses: string -> bool): (h: Handled)
    ensures httpMethod != "POST" ==> h == Handled(MethodNotAllowed, None)
    ensures httpMethod == "POST" && !IsSweepstakesForm(body) ==> h == Handled(FormNotMatched, None)
    ensures httpMethod == "POST" && IsSweepstakesForm(body) && !Truthy(ExtractFields(body).email) ==>
              h == Handled(EmailRequired, None)
    ensures h.upsert.Some? <==> httpMethod == "POST" && IsSweepstakesForm(body) && Truthy(ExtractFields(body).email)
    ensures h.upsert.Some? ==> h.upsert.value == ProfileFor(ExtractFields(body))
    ensures h.upsert.Some? ==> (h.reply == ProfileUpdated <==> SettleUpsert(upstream, parses).Resolved?)
    ensures h.reply.body.success == Some(true) <==> h.upsert.Some? && SettleUpsert(upstream, parses).Resolved?
    ensures h.reply.status == 500 <==> h.upsert.Some? && SettleUpsert(upstream, parses).Rejected?
    ensures h.reply.status == 500 ==> h.reply == UpsertFailed(SettleUpsert(upstream, parses).message)
    ensures h.reply.status in {200, 400, 405, 500}
  {
    if httpMethod != "POST" then Handled(MethodNotAllowed, None)
    else if !IsSweepstakesForm(body) then Handled(FormNotMatched, None)
    else
      var fields := ExtractFields(body);
      if !Truthy(fields.email) then Handled(EmailRequired, None)
      else
        var request := ProfileFor(fields);
        match SettleUpsert(upstream, parses)
        case Resolved(_) => Handled(ProfileUpdated, Some(request))
        case Rejected(message) => Handled(UpsertFailed(message), Some(request))
  }

  /** When no call is made, the upstream's answer cannot influence the reply. */
  lemma NoCallMeansUpstreamIrrelevant(
    httpMethod: string, body: FormBody, u1: HttpOutcome, u2: HttpOutcome, p1: string -> bool, p2: string -> bool)
    requires WebhookDecision(httpMethod, body, u1, p1).upsert.None?
    ensures WebhookDecision(httpMethod, body, u1, p1) == WebhookDecision(httpMethod, body, u2, p2)
  {
  }

  /** Whether the upstream body parses as JSON never changes the reply. */
  lemma ReplyIgnoresJsonParsing(httpMethod: string, body: FormBody, upstream: HttpOutcome, p1: string -> bool, p2: string -> bool)
    ensures WebhookDecision(httpMethod, body, upstream, p1) == WebhookDecision(httpMethod, body, upstream, p2)
  {
  }

  /**
    `name` both identifies the form and stands in for a missing `Name`: a
    submission identified by `name: "Sweepstakes 2025"` without a `Name`
    sends first name "Sweepstakes" and last name "2025".
   */
  lemma FormNameDoublesAsPersonName(body: FormBody, upstream: HttpOutcome, parses: string -> bool)
    requires Field(body, "name") == Some(SweepstakesFormName)
    requires !Truthy(Field(body, "Name"))
    requires Truthy(Field(body, "Email")) || Truthy(Field(body, "email"))
    ensures WebhookDecision("POST", body, upstream, parses).upsert.Some?
    ensures WebhookDecision("POST", body, upstream, parses).upsert.value.data.attributes.firstName == "Sweepstakes"
    ensures WebhookDecision("POST", body, upstream, parses).upsert.value.data.attributes.lastName == "2025"
  {
    assert ExtractFields(body).name == Some(SweepstakesFormName);
    SplitNameUnique(SweepstakesFormName, "Sweepstakes", "2025");
  }

  /** A matched submission with `Name: "Jane Doe"` and a 2xx answer: 200, Jane / Doe upstream. */
  lemma JaneDoeIsUpserted(email: string, upstream: HttpOutcome, parses: string -> bool)
    requires email != ""
    requires upstream.Response? && IsSuccessStatus(upstream.statusCode)
    ensures var body := map["form" := SweepstakesFormId, "Email" := email, "Name" := "Jane Doe"];
            var h := WebhookDecision("POST", body, upstream, parses);
            h.reply == ProfileUpdated && h.upsert.Some? &&
            h.upsert.value.data.attributes.firstName == "Jane" &&
            h.upsert.value.data.attributes.lastName == "Doe"
  {
    var body := map["form" := SweepstakesFormId, "Email" := email, "Name" := "Jane Doe"];
    assert IsSweepstakesForm(body);
    var fields := ExtractFields(body);
    assert fields.email == Some(email);
    assert fields.name == Some("Jane Doe");
    SplitNameUnique("Jane Doe", "Jane", "Doe");
    assert ProfileFor(fields).data.attributes.firstName == "Jane";
  }

  // ---------------------------------------------------------------------------
  // The response object and the AWS Lambda adapter

  /**
    The `res` object the Lambda adapter hands to the handler: `status()` and
    `json()` overwrite its two fields. `body == None` is the initial `''`;
    `Some(v)` stands for `JSON.stringify(v)`.
   */
  class LambdaResponse {
    var statusCode: nat
    var body: Option<ReplyBody>

    constructor ()
      ensures statusCode == 200 && body == None
    {
      statusCode := 200;
      body := None;
    }

    method Status(code: nat)
      modifies this`statusCode
      ensures statusCode == code
    {
      statusCode := code;
    }

    method Json(data: ReplyBody)
      modifies this`body
      ensures body == Some(data)
    {
      body := Some(data);
    }
  }

  /** `res.status(reply.status).json(reply.body)`. */
  method Respond(res: LambdaResponse, reply: Reply)
    modifies res
    ensures res.statusCode == reply.status && res.body == Some(reply.body)
  {
    res.Status(reply.status);
    res.Json(reply.body);
  }

  /** `handleWebhookRequest(req, res)`: writes the reply and returns the payload it sent, if any. */
  method HandleWebhookRequest(httpMethod: string, body: FormBody, upstream: HttpOutcome, parses: string -> bool, res: LambdaResponse)
    returns (sent: Option<ProfileRequest>)
    modifies res
    ensures sent == WebhookDecision(httpMethod, body, upstream, parses).upsert
    ensures res.statusCode == WebhookDecision(httpMethod, body, upstream, parses).reply.status
    ensures res.body == Some(WebhookDecision(httpMethod, body, upstream, parses).reply.body)
  {
    if httpMethod != "POST" {
      Respond(res, MethodNotAllowed);
      return None;
    }
    if !IsSweepstakesForm(body) {
      Respond(res, FormNotMatched);
      return None;
    }
    var fields := ExtractFields(body);
    if !Truthy(fields.email) {
      Respond(res, EmailRequired);
      return None;
    }
    var request, result := CreateOrUpdateKlaviyoProfile(
      fields.email.value, SplitName(OrEmpty(fields.name)), fields.phone, fields.zipCode, upstream, parses);
    sent := Some(request);
    match result
    case Resolved(_) =>
      Respond(res, ProfileUpdated);
    case Rejected(message) =>
      Respond(res, UpsertFailed(message));
  }

  /** What the Lambda adapter returns. */
  datatype LambdaResult = LambdaResult(statusCode: nat, contentType: string, body: Option<ReplyBody>)

  /**
    The AWS Lambda export: a fresh `res` (200, empty body) is handed to the
    handler, and the status code and body it last wrote are returned.
   */
  method LambdaHandler(httpMethod: string, body: FormBody, upstream: HttpOutcome, parses: string -> bool)
    returns (r: LambdaResult)
    ensures r.statusCode == WebhookDecision(httpMethod, body, upstream, parses).reply.status
    ensures r.body == Some(WebhookDecision(httpMethod, body, upstream, parses).reply.body)
    ensures r.contentType == "application/json"
  {
    var res := new LambdaResponse();
    var _ := HandleWebhookRequest(httpMethod, body, upstream, parses, res);
    r := LambdaResult(res.statusCode, "application/json", res.body);
  }
}
