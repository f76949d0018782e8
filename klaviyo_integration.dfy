/**
  The browser script: on submit of the sweepstakes form it validates the
  fields, sends an identify call to Klaviyo (a GET whose answer is an input,
  `XhrOutcome`), pushes two commands onto the `_learnq` queue when the page
  has one, and then redirects on success or reveals the form's error element
  on failure. The page's mutable state (the queue, `location.href`, the error
  element's `display`) is a `Page` object.
 */
module KlaviyoIntegration {
  import opened JsValues
  import opened NameSplit

  /** The public site token sent with the identify call (`KLAVIYO_API_KEY`). */
  const SiteToken := "UX2UHq"
  const DefaultConfirmation := "/confirmation/sweepstakes-confirmation"
  const TrackedEvent := "Sweepstakes Entry"
  const SweepstakesName := "Sweepstakes 2025"

  /** The form's fields as `FormData.get` returns them: `None` is `null`. */
  datatype SubmittedFields = SubmittedFields(name: JsString, email: JsString, phone: JsString, zipCode: JsString)

  /**
    The data handed to `sendToKlaviyo`. The type itself allows any strings;
    `ValidateSubmission` only builds one with a non-empty email and name.
   */
  datatype EntryData = EntryData(email: string, name: string, phone: JsString, zipCode: JsString)

  /**
    Required-field validation: a submission goes on exactly when both
    email and name are present and non-empty, and then with the values as
    submitted.
   */
  function ValidateSubmission(f: SubmittedFields): (r: Option<EntryData>)
    ensures r.Some? <==> Truthy(f.email) && Truthy(f.name)
    ensures r.Some? ==> r.value.email != "" && Some(r.value.email) == f.email
    ensures r.Some? ==> r.value.name != "" && Some(r.value.name) == f.name
    ensures r.Some? ==> r.value.phone == f.phone && r.value.zipCode == f.zipCode
  {
    if !Truthy(f.email) || !Truthy(f.name) then None
    else Some(EntryData(f.email.value, f.name.value, f.phone, f.zipCode))
  }

  // ---------------------------------------------------------------------------
  // Payloads

  /** The profile properties both channels carry (`$email`, `$first_name`, ...). */
  datatype Traits = Traits(
    email: string,
    firstName: string,
    lastName: string,
    phoneNumber: string,
    zip: string,
    sweepstakes2025: bool)

  /** The `properties` object of the identify call: the traits plus `$consent`. */
  datatype IdentifyProperties = IdentifyProperties(traits: Traits, consent: seq<string>)

  datatype IdentifyProfile = IdentifyProfile(token: string, properties: IdentifyProperties)

  /**
    The traits of an entry: the name split at its first space, phone and zip
    defaulted to '' when missing or empty, and the campaign flag set.
   */
  function EntryTraits(data: EntryData): (t: Traits)
    ensures t.email == data.email && t.sweepstakes2025
    ensures ' ' !in t.firstName
    ensures ' ' in data.name ==> t.firstName + " " + t.lastName == data.name
    ensures ' ' !in data.name ==> t.firstName == data.name && t.lastName == ""
    ensures Truthy(data.phone) ==> t.phoneNumber == data.phone.value
    ensures !Truthy(data.phone) ==> t.phoneNumber == ""
    ensures Truthy(data.zipCode) ==> t.zip == data.zipCode.value
    ensures !Truthy(data.zipCode) ==> t.zip == ""
  {
    var name := SplitName(data.name);
    Traits(data.email, name.firstName, name.lastName, OrEmpty(data.phone), OrEmpty(data.zipCode), true)
  }

  /**
    The profile sent by the identify call: always the site token, always the
    consent list ['email', 'sms'], and the entry's traits.
   */
  function BuildIdentifyProfile(data: EntryData): (p: IdentifyProfile)
    ensures p.token == SiteToken
    ensures p.properties.consent == ["email", "sms"]
    ensures p.properties.traits == EntryTraits(data)
  {
    IdentifyProfile(SiteToken, IdentifyProperties(EntryTraits(data), ["email", "sms"]))
  }

  datatype TrackProperties = TrackProperties(sweepstakesName: string, entryDate: string)

  /** An entry of the `_learnq` array. */
  datatype QueueCommand = Identify(traits: Traits) | Track(eventName: string, properties: TrackProperties)

  /**
    The two commands pushed onto `_learnq`, in order: an identify with the
    same traits as the identify call (without consent), then a track of
    'Sweepstakes Entry' stamped with `entryDate`.
   */
  function QueueCommands(data: EntryData, entryDate: string): (q: seq<QueueCommand>)
    ensures |q| == 2
    ensures q[0] == Identify(BuildIdentifyProfile(data).properties.traits)
    ensures q[1] == Track(TrackedEvent, TrackProperties(SweepstakesName, entryDate))
  {
    [Identify(EntryTraits(data)), Track(TrackedEvent, TrackProperties(SweepstakesName, entryDate))]
  }

  /** The queue after a send: two commands appended if it exists, still absent if not. */
  function QueueAfterSend(queue: Option<seq<QueueCommand>>, data: EntryData, entryDate: string): (r: Option<seq<QueueCommand>>)
    ensures r.Some? <==> queue.Some?
    ensures r.Some? ==> |r.value| == |queue.value| + 2
    ensures r.Some? ==> r.value[..|queue.value|] == queue.value
    ensures r.Some? ==> r.value[|queue.value|..] == QueueCommands(data, entryDate)
  {
    if queue.Some? then Some(queue.value + QueueCommands(data, entryDate)) else None
  }

  // ---------------------------------------------------------------------------
  // Encoding the identify request

  /** Every character is at most U+00FF, the range `btoa` accepts. */
  predicate Latin1(s: string) {
    forall i :: 0 <= i < |s| ==> s[i] <= '\U{FF}'
  }

  lemma Latin1Concat(a: string, b: string)
    ensures Latin1(a + b) <==> Latin1(a) && Latin1(b)
  {
    if Latin1(a + b) {
      assert forall i :: 0 <= i < |a| ==> a[i] == (a + b)[i];
      assert forall i :: 0 <= i < |b| ==> b[i] == (a + b)[|a| + i];
    }
  }

  /**
    `btoa(JSON.stringify(profileData))` does not throw: JSON text escapes
    control characters, quotes and backslashes with ASCII sequences but
    copies every other character, and the token, the keys and the consent
    list are ASCII, so the text is Latin-1 exactly when the five trait
    strings are.
   */
  predicate BtoaEncodable(t: Traits) {
    Latin1(t.email) && Latin1(t.firstName) && Latin1(t.lastName) && Latin1(t.phoneNumber) && Latin1(t.zip)
  }

  /**
    The identify request of an entry can be encoded exactly when email, full
    name, phone and zip (after the `|| ''` default) are all Latin-1: the
    name splitter only removes spaces.
   */
  lemma EntryEncodableIffLatin1(data: EntryData)
    ensures BtoaEncodable(EntryTraits(data)) <==>
              Latin1(data.email) && Latin1(data.name) && Latin1(OrEmpty(data.phone)) && Latin1(OrEmpty(data.zipCode))
  {
    var t := EntryTraits(data);
    if ' ' in data.name {
      Latin1Concat(t.firstName, " ");
      Latin1Concat(t.firstName + " ", t.lastName);
      assert Latin1(" ");
    }
  }

  /** A typographic apostrophe (U+2019) in the name makes the identify request unencodable. */
  lemma TypographicApostropheThrows(email: string)
    ensures !BtoaEncodable(EntryTraits(EntryData(email, "Conan O\U{2019}Brien", None, None)))
  {
    var name := "Conan O\U{2019}Brien";
    SplitNameUnique(name, "Conan", "O\U{2019}Brien");
    assert !Latin1("O\U{2019}Brien") by {
      assert "O\U{2019}Brien"[1] == '\U{2019}';
    }
  }

  // ---------------------------------------------------------------------------
  // Outcomes

  /** How the identify request ends: `onload` with a status, or `onerror`. */
  datatype XhrOutcome = Loaded(status: int) | NetworkError

  /**
    How the promise of `sendToKlaviyo` ends: it resolves with a success flag,
    or its executor threw (`btoa` on a non-Latin-1 character) and it rejects.
   */
  datatype SendOutcome = Settled(success: bool) | Threw

  /**
    The promise resolves true exactly on a load with status 200 or 1: a
    network error, and a load with any other status, resolve false.
   */
  predicate IdentifySucceeded(x: XhrOutcome): (ok: bool)
    ensures x.NetworkError? ==> !ok
    ensures x.Loaded? ==> (ok <==> x.status == 200 || x.status == 1)
  {
    x.Loaded? && (x.status == 200 || x.status == 1)
  }

  /**
    Where a successful submission navigates: the form's `redirect` attribute
    when it is non-empty, the default confirmation page otherwise; never an
    empty URL.
   */
  function RedirectTarget(redirect: JsString): (url: string)
    ensures url != ""
    ensures Truthy(redirect) ==> url == redirect.value
    ensures !Truthy(redirect) ==> url == DefaultConfirmation
  {
    if Truthy(redirect) then redirect.value else DefaultConfirmation
  }

  /** The browser state the script reads and writes. */
  class Page {
    /** `window._learnq`; `None` when the page has no such array. */
    var learnq: Option<seq<QueueCommand>>
    /** `window.location.href`. */
    var href: string
    /** `style.display` of the `.w-form-fail` element beside the form; `None` when there is none. */
    var errorDisplay: Option<string>
    /** The form's `redirect` attribute. */
    const redirect: JsString

    constructor (learnq: Option<seq<QueueCommand>>, href: string, errorDisplay: Option<string>, redirect: JsString)
      ensures this.learnq == learnq && this.href == href
      ensures this.errorDisplay == errorDisplay && this.redirect == redirect
    {
      this.learnq := learnq;
      this.href := href;
      this.errorDisplay := errorDisplay;
      this.redirect := redirect;
    }

    /**
      `sendToKlaviyo`: encodes the identify profile into the request URL; if
      that throws, nothing is sent, the queue is not touched and the promise
      rejects. Otherwise it issues the identify call, pushes identify then
      track onto the queue if there is one, and reports whether the identify
      call succeeded; the queue plays no part in that outcome.
     */
    method SendToKlaviyo(data: EntryData, xhr: XhrOutcome, entryDate: string)
      returns (request: Option<IdentifyProfile>, outcome: SendOutcome)
      modifies this`learnq
      ensures BtoaEncodable(EntryTraits(data)) ==>
                && request == Some(BuildIdentifyProfile(data))
                && outcome == Settled(IdentifySucceeded(xhr))
                && learnq == QueueAfterSend(old(learnq), data, entryDate)
      ensures !BtoaEncodable(EntryTraits(data)) ==>
                request.None? && outcome == Threw && learnq == old(learnq)
    {
      var profile := BuildIdentifyProfile(data);
      if !BtoaEncodable(profile.properties.traits) {
        return None, Threw;
      }
      request := Some(profile);
      if learnq.Some? {
        ghost var before := learnq.value;
        learnq := Some(learnq.value + [Identify(profile.properties.traits)]);
        learnq := Some(learnq.value + [Track(TrackedEvent, TrackProperties(SweepstakesName, entryDate))]);
        assert learnq.value == before + QueueCommands(data, entryDate);
      }
      outcome := Settled(IdentifySucceeded(xhr));
    }

    /**
      The submit handler. An invalid submission changes nothing and sends
      nothing. A valid one is sent; on success the page navigates to the
      redirect target, on failure the error element (if any) is shown with
      `display: block`. When encoding the request throws, the rejected
      promise has no handler: nothing is sent and the page stays as it was.
     */
    method OnSubmit(fields: SubmittedFields, xhr: XhrOutcome, entryDate: string)
      returns (sent: Option<IdentifyProfile>)
      modifies this
      ensures ValidateSubmission(fields).None? ==>
                sent.None? && learnq == old(learnq) && href == old(href) && errorDisplay == old(errorDisplay)
      ensures ValidateSubmission(fields).Some? && !BtoaEncodable(EntryTraits(ValidateSubmission(fields).value)) ==>
                sent.None? && learnq == old(learnq) && href == old(href) && errorDisplay == old(errorDisplay)
      ensures ValidateSubmission(fields).Some? && BtoaEncodable(EntryTraits(ValidateSubmission(fields).value)) ==>
                var data := ValidateSubmission(fields).value;
                && sent == Some(BuildIdentifyProfile(data))
                && learnq == QueueAfterSend(old(learnq), data, entryDate)
                && href == (if IdentifySucceeded(xhr) then RedirectTarget(redirect) else old(href))
                && errorDisplay == (if !IdentifySucceeded(xhr) && old(errorDisplay).Some? then Some("block")
                                    else old(errorDisplay))
    {
      match ValidateSubmission(fields)
      case None =>
        return None;
      case Some(data) =>
        var outcome;
        sent, outcome := SendToKlaviyo(data, xhr, entryDate);
        match outcome
        case Threw =>
        case Settled(success) =>
          if success {
            href := RedirectTarget(redirect);
          } else if errorDisplay.Some? {
            errorDisplay := Some("block");
          }
    }
  }
}
