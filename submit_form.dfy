/**
 * The server action behind the site's five forms (`submitForm` in
 * app/actions/submit-form.ts): choose a schema by the submitted `formType`,
 * validate the flat field map against it, report every failing field, and on
 * success compose the notification e-mail and answer with a thank-you.
 *
 * What lies outside the model is passed in:
 *  - `isEmail` stands for the validation library's e-mail syntax check;
 *  - `mailConfigured` says whether the mail API key is set;
 *  - `delivery` is what the mail service did with the message. The outcome
 *    never depends on it.
 */
module SubmitForm {
  import opened Wrappers
  import opened Text

  type Fields = map<string, string>

  /** One entry of the validated data, in the order the schema lists its fields. */
  type Entry = (string, string)

  /**
   * The message of one issue: either the text the schema declares, or one of
   * the validation library's own messages, whose exact wording this model does
   * not fix.
   */
  datatype Message =
    | Declared(text: string)
    | MissingKey
    | InvalidEnumValue(options: seq<string>, received: string)
    | InvalidLiteral(expected: string)

  /** The rule a schema attaches to one field. */
  datatype Kind =
    | RequiredText(message: string)               // a string of length at least 1
    | OptionalText                                // any string, or absent
    | EmailField(message: string)                 // a string the e-mail check accepts
    | Choice(options: seq<string>, optional: bool) // one of the listed strings (or absent, if optional)
    | Literal(value: string)                      // exactly this string

  datatype FieldSpec = FieldSpec(name: string, kind: Kind)

  type Schema = seq<FieldSpec>

  datatype Issue = Issue(path: string, message: Message)

  /** What the action returns to the page. `errors` is present only after a validation failure. */
  datatype Outcome = Outcome(success: bool, message: string, errors: Option<map<string, seq<Message>>>)

  /** The message handed to the mail service. */
  datatype Mail = Mail(from: string, to: seq<string>, cc: string, subject: string, html: string)

  /** What the mail service did; the action logs it and answers the same either way. */
  datatype Delivery = Delivered | Rejected | Threw

  // -----------------------------------------------------------------------
  // The five schemas

  const RequestDemo := "Request a Demo"
  const StartupPartnership := "Startup Partnership"
  const IndustryPartnership := "Industry Partnership"
  const CanadianPartnerships := "Canadian Partnerships"
  const ContactUs := "Contact Us"

  const FormTypeKey := "formType"
  const InvalidEmail := "Invalid email address"

  const TrlStages: seq<string> := ["TRL 1-2", "TRL 3", "TRL 4", "TRL 5", "TRL 6", "TRL 7+"]
  const CompanySizes: seq<string> := ["<50", "50-500", "500-5000", "5000+"]
  const BudgetRanges: seq<string> := ["< $50K", "$50K - $250K", "$250K - $1M", "$1M+", "Flexible"]
  const DecisionProcesses: seq<string> :=
    ["I'm the decision maker", "I influence decisions", "I'm researching", "Part of a committee"]
  const OrganizationTypes: seq<string> :=
    ["Government - Federal", "Government - Provincial", "Innovation Centre", "Non-Profit",
     "Research Institute", "University", "Economic Development", "Industry Association", "Other"]

  const RequestDemoSchema: Schema := [
    FieldSpec("companyName", RequiredText("Company Name is required")),
    FieldSpec("email", EmailField(InvalidEmail)),
    FieldSpec("materialsFocus", RequiredText("Materials Focus is required")),
    FieldSpec(FormTypeKey, Literal(RequestDemo))
  ]

  const StartupPartnershipSchema: Schema := [
    FieldSpec("companyName", OptionalText),
    FieldSpec("website", OptionalText),
    FieldSpec("contactNameTitle", OptionalText),
    FieldSpec("email", EmailField(InvalidEmail)),
    FieldSpec("location", OptionalText),
    FieldSpec("foundedYear", OptionalText),
    FieldSpec("materialsFocus", OptionalText),
    FieldSpec("technologyDescription", OptionalText),
    FieldSpec("currentTRLStage", Choice(TrlStages, true)),
    FieldSpec("teamSize", OptionalText),
    FieldSpec("fundingStatus", OptionalText),
    FieldSpec("primaryChallenge", OptionalText),
    FieldSpec("desiredOutcomes", OptionalText),
    FieldSpec("idealPartnershipTimeline", OptionalText),
    FieldSpec("howDidYouHear", OptionalText),
    FieldSpec(FormTypeKey, Literal(StartupPartnership))
  ]

  const IndustryPartnershipSchema: Schema := [
    FieldSpec("companyName", RequiredText("Company Name is required")),
    FieldSpec("contactNameTitle", RequiredText("Contact Name & Title is required")),
    FieldSpec("email", EmailField(InvalidEmail)),
    FieldSpec("industry", RequiredText("Industry is required")),
    FieldSpec("companySize", Choice(CompanySizes, false)),
    FieldSpec("applicationNeed", RequiredText("Application Need is required")),
    FieldSpec("currentMaterialsChallenge", RequiredText("Materials Challenge is required")),
    FieldSpec("projectTimeline", RequiredText("Project Timeline is required")),
    FieldSpec("budgetRange", Choice(BudgetRanges, false)),
    FieldSpec("decisionMakingProcess", Choice(DecisionProcesses, false)),
    FieldSpec(FormTypeKey, Literal(IndustryPartnership))
  ]

  const CanadianPartnershipsSchema: Schema := [
    FieldSpec("organizationName", RequiredText("Organization Name is required")),
    FieldSpec("organizationType", Choice(OrganizationTypes, false)),
    FieldSpec("location", RequiredText("Location is required")),
    FieldSpec("contactName", RequiredText("Contact Name is required")),
    FieldSpec("contactTitle", RequiredText("Title/Position is required")),
    FieldSpec("email", EmailField(InvalidEmail)),
    FieldSpec("phone", OptionalText),
    FieldSpec("areaOfInterest", RequiredText("Area of Collaboration is required")),
    FieldSpec("partnershipScope", RequiredText("Partnership Scope is required")),
    FieldSpec("targetSectors", RequiredText("Target Sectors are required")),
    FieldSpec("fundingPrograms", OptionalText),
    FieldSpec("timeline", RequiredText("Timeline is required")),
    FieldSpec("strategicAlignment", RequiredText("Strategic Alignment is required")),
    FieldSpec("existingPartners", OptionalText),
    FieldSpec("additionalInfo", OptionalText),
    FieldSpec(FormTypeKey, Literal(CanadianPartnerships))
  ]

  const ContactUsSchema: Schema := [
    FieldSpec("name", RequiredText("Name is required")),
    FieldSpec("email", EmailField(InvalidEmail)),
    FieldSpec("organization", OptionalText),
    FieldSpec("message", RequiredText("Message is required")),
    FieldSpec(FormTypeKey, Literal(ContactUs))
  ]

  const KnownFormTypes: seq<string> :=
    [RequestDemo, StartupPartnership, IndustryPartnership, CanadianPartnerships, ContactUs]

  /** The `switch` on the submitted form type. */
  function SchemaFor(formType: string): Option<Schema>
  {
    if formType == RequestDemo then Some(RequestDemoSchema)
    else if formType == StartupPartnership then Some(StartupPartnershipSchema)
    else if formType == IndustryPartnership then Some(IndustryPartnershipSchema)
    else if formType == CanadianPartnerships then Some(CanadianPartnershipsSchema)
    else if formType == ContactUs then Some(ContactUsSchema)
    else None
  }

  // -----------------------------------------------------------------------
  // Validation

  /** The issue (if any) that the rule for `spec` raises against the submitted fields. */
  function CheckField(spec: FieldSpec, fields: Fields, isEmail: string -> bool): Option<Message>
  {
    var present := spec.name in fields;
    match spec.kind
    case RequiredText(msg) =>
      if !present then Some(MissingKey)
      else if fields[spec.name] == "" then Some(Declared(msg))
      else None
    case OptionalText => None
    case EmailField(msg) =>
      if !present then Some(MissingKey)
      else if !isEmail(fields[spec.name]) then Some(Declared(msg))
      else None
    case Choice(options, optional) =>
      if !present then (if optional then None else Some(MissingKey))
      else if fields[spec.name] in options then None
      else Some(InvalidEnumValue(options, fields[spec.name]))
    case Literal(v) =>
      if present && fields[spec.name] == v then None else Some(InvalidLiteral(v))
  }

  /** The issues of one validation pass, one per failing field, in schema order. */
  function Issues(schema: Schema, fields: Fields, isEmail: string -> bool): seq<Issue>
  {
    if schema == [] then []
    else FieldIssues(schema[0], fields, isEmail) + Issues(schema[1..], fields, isEmail)
  }

  /** The issue one field contributes: none when its rule holds. */
  function FieldIssues(spec: FieldSpec, fields: Fields, isEmail: string -> bool): seq<Issue>
  {
    match CheckField(spec, fields, isEmail)
    case Some(m) => [Issue(spec.name, m)]
    case None => []
  }

  /** The validated data: the schema's fields that were submitted, in schema order; unknown keys are dropped. */
  function ValidatedData(schema: Schema, fields: Fields): seq<Entry>
  {
    if schema == [] then []
    else
      (if schema[0].name in fields then [(schema[0].name, fields[schema[0].name])] else [])
      + ValidatedData(schema[1..], fields)
  }

  /** The names of the fields whose rule fails. */
  function FailingNames(schema: Schema, fields: Fields, isEmail: string -> bool): set<string>
  {
    set k | 0 <= k < |schema| && CheckField(schema[k], fields, isEmail).Some? :: schema[k].name
  }

  /** The names of the fields that must be submitted (everything but optional text and optional choices). */
  function RequiredNames(schema: Schema): set<string>
  {
    set k | 0 <= k < |schema| && schema[k].kind.Literal? == false && !IsOptional(schema[k].kind) :: schema[k].name
  }

  predicate IsOptional(kind: Kind)
  {
    kind.OptionalText? || (kind.Choice? && kind.optional)
  }

  predicate DistinctNames(schema: Schema)
  {
    forall i, j :: 0 <= i < j < |schema| ==> schema[i].name != schema[j].name
  }

  /** The form-type literal is the field `formType`, it holds `formType`'s own value, and no other field has that name. */
  predicate WellFormed(schema: Schema, formType: string)
  {
    && DistinctNames(schema)
    && (exists k :: 0 <= k < |schema| && schema[k] == FieldSpec(FormTypeKey, Literal(formType)))
    && forall k :: 0 <= k < |schema| && schema[k].kind.Literal? ==> schema[k] == FieldSpec(FormTypeKey, Literal(formType))
  }

  /** `errors` reports exactly the failing fields, each with its one message. */
  predicate ReportsFailures(schema: Schema, fields: Fields, isEmail: string -> bool, errors: map<string, seq<Message>>)
  {
    && errors.Keys == FailingNames(schema, fields, isEmail)
    && forall k :: 0 <= k < |schema| && CheckField(schema[k], fields, isEmail).Some? ==>
         errors[schema[k].name] == [CheckField(schema[k], fields, isEmail).value]
  }

  /** Issue `i` is the last one in `issues[..n]` for its path. */
  predicate LastIn(issues: seq<Issue>, n: int, i: int)
    requires 0 <= i < n <= |issues|
  {
    forall j :: i < j < n ==> issues[j].path != issues[i].path
  }

  /**
   * The loop that turns the issue list into the per-field error map: each
   * issue writes a one-message list under its path, so a later issue for the
   * same path overwrites an earlier one.
   */
  method CollectFieldErrors(issues: seq<Issue>) returns (errors: map<string, seq<Message>>)
    ensures forall p :: p in errors <==> exists i :: 0 <= i < |issues| && issues[i].path == p
    ensures forall i :: 0 <= i < |issues| && LastIn(issues, |issues|, i) ==>
              errors[issues[i].path] == [issues[i].message]
  {
    errors := map[];
    var n := 0;
    while n < |issues|
      invariant 0 <= n <= |issues|
      invariant forall p :: p in errors <==> exists i :: 0 <= i < n && issues[i].path == p
      invariant forall i :: 0 <= i < n && LastIn(issues, n, i) ==> errors[issues[i].path] == [issues[i].message]
    {
      errors := errors[issues[n].path := [issues[n].message]];
      n := n + 1;
    }
  }

  // -----------------------------------------------------------------------
  // The notification

  const MailFrom := "TrueNorth Platform <tobias@truenorthmaterials.com>"
  const MailTo := "tobias@truenorthmaterials.com"
  const MailCc := "peti@truenorthmaterials.com"
  const NotProvided := "Not provided"

  /** The value stored under `key`, if the validated data has it. */
  function Lookup(data: seq<Entry>, key: string): Option<string>
  {
    if data == [] then None
    else if data[0].0 == key then Some(data[0].1)
    else Lookup(data[1..], key)
  }

  /** `key in data && data[key]`: present and not the empty string. */
  predicate Truthy(data: seq<Entry>, key: string)
  {
    Lookup(data, key).Some? && Lookup(data, key).value != ""
  }

  const SubjectKeys: seq<string> := ["companyName", "organizationName", "name", "contactName"]

  /** The name shown in the subject line. */
  function SubjectIdentifier(data: seq<Entry>): string
  {
    if Truthy(data, "companyName") then Lookup(data, "companyName").value
    else if Truthy(data, "organizationName") then Lookup(data, "organizationName").value
    else if Truthy(data, "name") then Lookup(data, "name").value
    else if Truthy(data, "contactName") then Lookup(data, "contactName").value
    else "N/A"
  }

  function Subject(formType: string, data: seq<Entry>): string
  {
    "New Submission: " + formType + " - " + SubjectIdentifier(data)
  }

  /** `key.replace(/([A-Z])/g, " $1")` */
  function SpaceBeforeCapitals(s: string): string
  {
    if s == [] then []
    else (if IsAsciiUpper(s[0]) then [' ', s[0]] else [s[0]]) + SpaceBeforeCapitals(s[1..])
  }

  /** The label a field name gets in the e-mail body ("contactNameTitle" becomes "Contact Name Title"). */
  function TitleCase(key: string): string
  {
    Trim(CapitalizeFirst(SpaceBeforeCapitals(key)))
  }

  /** The value as written into the body: every line break becomes `<br>`. */
  function FormatValue(value: string): string
  {
    if '\n' in value then ReplaceChar(value, '\n', "<br>") else value
  }

  /** `formattedValue || 'Not provided'` */
  function Shown(value: string): string
  {
    if FormatValue(value) == "" then NotProvided else FormatValue(value)
  }

  // The fixed parts of the e-mail body template.
  const HeaderOpen := "\n        <div style=\"font-family: Arial, sans-serif; max-width: 600px; margin: 0 auto;\">\n          <h1 style=\"color: #10b981;\">New "
  const HeaderClose := " Submission</h1>\n          <div style=\"background-color: #f9fafb; padding: 20px; border-radius: 8px;\">\n      "
  const EntryOpen := "\n          <div style=\"margin-bottom: 15px;\">\n            <strong style=\"color: #334155;\">"
  const EntryMid := ":</strong><br>\n            <span style=\"color: #64748b;\">"
  const EntryClose := "</span>\n          </div>\n        "
  const Footer := "\n          </div>\n          <p style=\"color: #64748b; font-size: 12px; margin-top: 20px;\">\n            This email was sent from the TrueNorth Materials website contact form.\n          </p>\n        </div>\n      "

  function Header(formType: string): string
  {
    HeaderOpen + formType + HeaderClose
  }

  function EntryHtml(title: string, shown: string): string
  {
    EntryOpen + title + EntryMid + shown + EntryClose
  }

  /** The block one entry contributes: nothing for the form type, a labelled value otherwise. */
  function Block(e: Entry): string
  {
    if e.0 == FormTypeKey then "" else EntryHtml(TitleCase(e.0), Shown(e.1))
  }

  function Blocks(data: seq<Entry>): string
  {
    if data == [] then "" else Block(data[0]) + Blocks(data[1..])
  }

  function BodyHtml(formType: string, data: seq<Entry>): string
  {
    Header(formType) + Blocks(data) + Footer
  }

  /** The e-mail composed for a valid submission. */
  function Notification(formType: string, data: seq<Entry>): Mail
  {
    Mail(MailFrom, [MailTo], MailCc, Subject(formType, data), BodyHtml(formType, data))
  }

  /** The e-mail body: the header, the entries' blocks, and the closing footer. */
  method RenderBody(formType: string, data: seq<Entry>) returns (html: string)
    ensures html == BodyHtml(formType, data)
  {
    html := AppendEntries(Header(formType), data);
    html := html + Footer;
  }

  /**
   * The loop over the validated entries: the form type is skipped, every
   * other key is title-cased and its value formatted, and the block is
   * appended to what was written before.
   */
  method AppendEntries(prefix: string, data: seq<Entry>) returns (html: string)
    ensures html == prefix + Blocks(data)
  {
    html := prefix;
    var i := 0;
    while i < |data|
      invariant 0 <= i <= |data|
      invariant html == prefix + Blocks(data[..i])
    {
      var (key, value) := data[i];
      var block := "";
      if key != FormTypeKey {
        var formattedKey := TitleCase(key);
        var formattedValue := FormatValue(value);
        block := EntryHtml(formattedKey, if formattedValue == "" then NotProvided else formattedValue);
      }
      assert block == Block(data[i]);
      RenderStep(prefix, data, i, html, block);
      html, i := html + block, i + 1;
    }
    TakeAll(data);
  }

  lemma RenderStep(header: string, data: seq<Entry>, i: nat, html: string, block: string)
    requires i < |data|
    requires html == header + Blocks(data[..i])
    requires block == Block(data[i])
    ensures html + block == header + Blocks(data[..i + 1])
  {
    TakeOneMore(data, i);
    BlocksSnoc(data[..i], data[i]);
    AppendAssoc(header, Blocks(data[..i]), block);
  }

  lemma TakeOneMore<T>(s: seq<T>, i: nat)
    requires i < |s|
    ensures s[..i + 1] == s[..i] + [s[i]]
  {
  }

  lemma TakeAll<T>(s: seq<T>)
    ensures s[..|s|] == s
  {
  }

  lemma AppendAssoc(a: string, b: string, c: string)
    ensures (a + b) + c == a + (b + c)
  {
  }

  // -----------------------------------------------------------------------
  // The action

  /**
   * `safeParse` followed by the error collection: no map when every rule
   * holds, otherwise the map that reports exactly the failing fields.
   */
  method FieldErrors(schema: Schema, fields: Fields, isEmail: string -> bool)
    returns (failures: Option<map<string, seq<Message>>>)
    requires DistinctNames(schema)
    ensures failures.None? <==> Issues(schema, fields, isEmail) == []
    ensures failures.Some? ==> ReportsFailures(schema, fields, isEmail, failures.value)
  {
    var issues := Issues(schema, fields, isEmail);
    if issues == [] {
      return None;
    }
    var errors := CollectFieldErrors(issues);
    ReportsFromCollected(schema, fields, isEmail, issues, errors);
    return Some(errors);
  }

  const InvalidFormTypeMessage := "Invalid form type."
  const ValidationFailedMessage := "Validation failed. Please check your input."

  function ThankYou(formType: string): string
  {
    "Thank you for your " + formType + " submission! We'll be in touch within 24-48 hours."
  }

  /**
   * `submitForm`: `notification` is the message handed to the mail service
   * (none when the key is not configured); `delivery` is what the service did
   * with it, which the outcome ignores.
   */
  method Submit(fields: Fields, isEmail: string -> bool, mailConfigured: bool, delivery: Delivery)
    returns (outcome: Outcome, notification: Option<Mail>)
    // an absent or unknown form type: rejected before any validation
    ensures FormTypeKey !in fields || SchemaFor(fields[FormTypeKey]).None? ==>
              outcome == Outcome(false, InvalidFormTypeMessage, None) && notification == None
    // a validation failure: every failing field reported, nothing sent
    ensures FormTypeKey in fields && SchemaFor(fields[FormTypeKey]).Some? ==>
              var schema := SchemaFor(fields[FormTypeKey]).value;
              Issues(schema, fields, isEmail) != [] ==>
                && !outcome.success
                && outcome.message == ValidationFailedMessage
                && outcome.errors.Some?
                && ReportsFailures(schema, fields, isEmail, outcome.errors.value)
                && notification == None
    // a valid submission: always a thank-you, whatever the mail service does
    ensures FormTypeKey in fields && SchemaFor(fields[FormTypeKey]).Some? ==>
              var formType := fields[FormTypeKey];
              var schema := SchemaFor(formType).value;
              Issues(schema, fields, isEmail) == [] ==>
                && outcome == Outcome(true, ThankYou(formType), None)
                && notification == (if mailConfigured then Some(Notification(formType, ValidatedData(schema, fields))) else None)
  {
    notification := None;
    if FormTypeKey !in fields {
      outcome := Outcome(false, InvalidFormTypeMessage, None);
      return;
    }
    var formType := fields[FormTypeKey];
    var schema := SchemaFor(formType);
    if schema.None? {
      outcome := Outcome(false, InvalidFormTypeMessage, None);
      return;
    }
    SchemaNamesDistinct(formType);
    var failures := FieldErrors(schema.value, fields, isEmail);
    if failures.Some? {
      outcome := Outcome(false, ValidationFailedMessage, failures);
      return;
    }
    var data := ValidatedData(schema.value, fields);
    if mailConfigured {
      var subject := "New Submission: " + formType + " - " + SubjectIdentifier(data);
      var html := RenderBody(formType, data);
      notification := Some(Mail(MailFrom, [MailTo], MailCc, subject, html));
      // whatever `delivery` reports is only logged
    }
    outcome := Outcome(true, ThankYou(formType), None);
  }

  // -----------------------------------------------------------------------
  // Lemmas

  /** Each of the five schemas names its fields once and ends in its own form-type literal. */
  lemma SchemasWellFormed()
    ensures forall ft :: ft in KnownFormTypes <==> SchemaFor(ft).Some?
    ensures forall ft :: SchemaFor(ft).Some? ==> WellFormed(SchemaFor(ft).value, ft)
  {
    RequestDemoWellFormed();
    StartupPartnershipWellFormed();
    IndustryPartnershipWellFormed();
    CanadianPartnershipsWellFormed();
    ContactUsWellFormed();
  }

  lemma SchemaNamesDistinct(formType: string)
    requires SchemaFor(formType).Some?
    ensures DistinctNames(SchemaFor(formType).value)
  {
    SchemasWellFormed();
  }

  lemma RequestDemoWellFormed()
    ensures WellFormed(RequestDemoSchema, RequestDemo)
  {
    assert RequestDemoSchema[3] == FieldSpec(FormTypeKey, Literal(RequestDemo));
  }

  lemma StartupPartnershipWellFormed()
    ensures WellFormed(StartupPartnershipSchema, StartupPartnership)
  {
    assert StartupPartnershipSchema[15] == FieldSpec(FormTypeKey, Literal(StartupPartnership));
  }

  lemma IndustryPartnershipWellFormed()
    ensures WellFormed(IndustryPartnershipSchema, IndustryPartnership)
  {
    assert IndustryPartnershipSchema[10] == FieldSpec(FormTypeKey, Literal(IndustryPartnership));
  }

  lemma CanadianPartnershipsWellFormed()
    ensures WellFormed(CanadianPartnershipsSchema, CanadianPartnerships)
  {
    assert CanadianPartnershipsSchema[15] == FieldSpec(FormTypeKey, Literal(CanadianPartnerships));
  }

  lemma ContactUsWellFormed()
    ensures WellFormed(ContactUsSchema, ContactUs)
  {
    assert ContactUsSchema[4] == FieldSpec(FormTypeKey, Literal(ContactUs));
  }

  predicate DistinctPaths(issues: seq<Issue>)
  {
    forall i, j :: 0 <= i < j < |issues| ==> issues[i].path != issues[j].path
  }

  lemma DistinctTail(schema: Schema)
    requires schema != [] && DistinctNames(schema)
    ensures DistinctNames(schema[1..])
    ensures forall k :: 0 <= k < |schema[1..]| ==> schema[1..][k].name != schema[0].name
  {
    var rest := schema[1..];
    forall i, j | 0 <= i < j < |rest| ensures rest[i].name != rest[j].name {
      assert rest[i] == schema[i + 1] && rest[j] == schema[j + 1];
    }
    forall k | 0 <= k < |rest| ensures rest[k].name != schema[0].name {
      assert rest[k] == schema[k + 1];
    }
  }

  /**
   * The issue list of a schema with distinct names has one issue per failing
   * field, carrying that field's message, and no path twice.
   */
  lemma {:induction false} IssuesCoverFailures(schema: Schema, fields: Fields, isEmail: string -> bool)
    requires DistinctNames(schema)
    ensures DistinctPaths(Issues(schema, fields, isEmail))
    ensures forall i :: 0 <= i < |Issues(schema, fields, isEmail)| ==>
              Issues(schema, fields, isEmail)[i].path in FailingNames(schema, fields, isEmail)
    ensures forall k :: 0 <= k < |schema| && CheckField(schema[k], fields, isEmail).Some? ==>
              Issue(schema[k].name, CheckField(schema[k], fields, isEmail).value) in Issues(schema, fields, isEmail)
  {
    IssuesDistinct(schema, fields, isEmail);
    IssuesAreFailures(schema, fields, isEmail);
    FailuresHaveIssues(schema, fields, isEmail);
  }

  /** Every issue names a failing field. */
  lemma {:induction false} IssuesAreFailures(schema: Schema, fields: Fields, isEmail: string -> bool)
    ensures forall i :: 0 <= i < |Issues(schema, fields, isEmail)| ==>
              Issues(schema, fields, isEmail)[i].path in FailingNames(schema, fields, isEmail)
    decreases |schema|
  {
    if schema != [] {
      var rest := schema[1..];
      IssuesAreFailures(rest, fields, isEmail);
      var head := FieldIssues(schema[0], fields, isEmail);
      var tail := Issues(rest, fields, isEmail);
      var issues: seq<Issue> := head + tail;
      forall i | 0 <= i < |issues|
        ensures issues[i].path in FailingNames(schema, fields, isEmail)
      {
        if i >= |head| {
          assert tail[i - |head|].path in FailingNames(rest, fields, isEmail);
          var k :| 0 <= k < |rest| && CheckField(rest[k], fields, isEmail).Some? && rest[k].name == tail[i - |head|].path;
          assert rest[k] == schema[k + 1];
        }
      }
    }
  }

  /** Every failing field has its issue, with its message. */
  lemma {:induction false} FailuresHaveIssues(schema: Schema, fields: Fields, isEmail: string -> bool)
    ensures forall k :: 0 <= k < |schema| && CheckField(schema[k], fields, isEmail).Some? ==>
              Issue(schema[k].name, CheckField(schema[k], fields, isEmail).value) in Issues(schema, fields, isEmail)
    decreases |schema|
  {
    if schema != [] {
      var rest := schema[1..];
      FailuresHaveIssues(rest, fields, isEmail);
      forall k | 0 <= k < |schema| && CheckField(schema[k], fields, isEmail).Some?
        ensures Issue(schema[k].name, CheckField(schema[k], fields, isEmail).value) in Issues(schema, fields, isEmail)
      {
        if k > 0 {
          assert schema[k] == rest[k - 1];
        }
      }
    }
  }

  /** With distinct field names no path is reported twice. */
  lemma {:induction false} IssuesDistinct(schema: Schema, fields: Fields, isEmail: string -> bool)
    requires DistinctNames(schema)
    ensures DistinctPaths(Issues(schema, fields, isEmail))
    decreases |schema|
  {
    if schema != [] {
      var rest := schema[1..];
      DistinctTail(schema);
      IssuesDistinct(rest, fields, isEmail);
      IssuesAreFailures(rest, fields, isEmail);
      var head := FieldIssues(schema[0], fields, isEmail);
      var tail := Issues(rest, fields, isEmail);
      var issues := head + tail;
      forall i | 0 <= i < |tail| ensures tail[i].path != schema[0].name {
        assert tail[i].path in FailingNames(rest, fields, isEmail);
        var k :| 0 <= k < |rest| && CheckField(rest[k], fields, isEmail).Some? && rest[k].name == tail[i].path;
      }
      forall i, j | 0 <= i < j < |issues| ensures issues[i].path != issues[j].path {
        if i >= |head| {
          assert issues[i] == tail[i - |head|] && issues[j] == tail[j - |head|];
        } else {
          assert issues[j] == tail[j - |head|];
        }
      }
    }
  }

  /**
   * The error map built from the issue list (each path mapped to the message
   * of its last issue) reports exactly the failing fields with their messages.
   */
  lemma ReportsFromCollected(schema: Schema, fields: Fields, isEmail: string -> bool,
                              issues: seq<Issue>, errors: map<string, seq<Message>>)
    requires DistinctNames(schema)
    requires issues == Issues(schema, fields, isEmail)
    requires forall p :: p in errors <==> exists i :: 0 <= i < |issues| && issues[i].path == p
    requires forall i :: 0 <= i < |issues| && LastIn(issues, |issues|, i) ==> errors[issues[i].path] == [issues[i].message]
    ensures ReportsFailures(schema, fields, isEmail, errors)
  {
    IssuesCoverFailures(schema, fields, isEmail);
    ErrorKeysAreFailures(schema, fields, isEmail, issues, errors);
    forall k | 0 <= k < |schema| && CheckField(schema[k], fields, isEmail).Some?
      ensures errors[schema[k].name] == [CheckField(schema[k], fields, isEmail).value]
    {
      var m := CheckField(schema[k], fields, isEmail).value;
      var i :| 0 <= i < |issues| && issues[i] == Issue(schema[k].name, m);
      OnlyIssueIsLast(issues, i);
    }
  }

  lemma ErrorKeysAreFailures(schema: Schema, fields: Fields, isEmail: string -> bool,
                             issues: seq<Issue>, errors: map<string, seq<Message>>)
    requires issues == Issues(schema, fields, isEmail)
    requires forall i :: 0 <= i < |issues| ==> issues[i].path in FailingNames(schema, fields, isEmail)
    requires forall k :: 0 <= k < |schema| && CheckField(schema[k], fields, isEmail).Some? ==>
               Issue(schema[k].name, CheckField(schema[k], fields, isEmail).value) in issues
    requires forall p :: p in errors <==> exists i :: 0 <= i < |issues| && issues[i].path == p
    ensures errors.Keys == FailingNames(schema, fields, isEmail)
  {
    forall p | p in FailingNames(schema, fields, isEmail) ensures p in errors {
      var k :| 0 <= k < |schema| && CheckField(schema[k], fields, isEmail).Some? && schema[k].name == p;
      var i :| 0 <= i < |issues| && issues[i] == Issue(schema[k].name, CheckField(schema[k], fields, isEmail).value);
    }
  }

  /** Without repeated paths every issue is the last one for its path. */
  lemma OnlyIssueIsLast(issues: seq<Issue>, i: int)
    requires DistinctPaths(issues) && 0 <= i < |issues|
    ensures LastIn(issues, |issues|, i)
  {
  }

  /**
   * Submitting nothing but the form type reports exactly the fields that must
   * be submitted: required text, e-mail and non-optional choices.
   */
  lemma EmptySubmissionReportsRequired(formType: string, isEmail: string -> bool)
    requires SchemaFor(formType).Some?
    ensures FailingNames(SchemaFor(formType).value, map[FormTypeKey := formType], isEmail)
            == RequiredNames(SchemaFor(formType).value)
  {
    SchemasWellFormed();
    var schema := SchemaFor(formType).value;
    var fields := map[FormTypeKey := formType];
    forall k | 0 <= k < |schema|
      ensures CheckField(schema[k], fields, isEmail).Some? <==> (!schema[k].kind.Literal? && !IsOptional(schema[k].kind))
    {
      if schema[k].name == FormTypeKey {
        var j :| 0 <= j < |schema| && schema[j] == FieldSpec(FormTypeKey, Literal(formType));
        assert j == k;
      }
    }
  }

  /** Only companyName submitted to the Industry Partnership form: the other nine fields are reported. */
  lemma IndustryPartnershipCompanyOnly(isEmail: string -> bool)
    ensures FailingNames(IndustryPartnershipSchema, map[FormTypeKey := IndustryPartnership, "companyName" := "Acme"], isEmail)
            == {"contactNameTitle", "email", "industry", "companySize", "applicationNeed",
                "currentMaterialsChallenge", "projectTimeline", "budgetRange", "decisionMakingProcess"}
  {
    var s := IndustryPartnershipSchema;
    var f := map[FormTypeKey := IndustryPartnership, "companyName" := "Acme"];
    assert CheckField(s[1], f, isEmail).Some? && CheckField(s[2], f, isEmail).Some?;
    assert CheckField(s[3], f, isEmail).Some? && CheckField(s[4], f, isEmail).Some?;
    assert CheckField(s[5], f, isEmail).Some? && CheckField(s[6], f, isEmail).Some?;
    assert CheckField(s[7], f, isEmail).Some? && CheckField(s[8], f, isEmail).Some?;
    assert CheckField(s[9], f, isEmail).Some?;
  }

  /** A complete Contact Us submission with an accepted address raises no issue. */
  lemma ContactUsExampleIsValid(isEmail: string -> bool)
    requires isEmail("ada@example.com")
    ensures Issues(ContactUsSchema, map[FormTypeKey := ContactUs, "name" := "Ada", "email" := "ada@example.com", "message" := "Hello"], isEmail) == []
  {
    var f := map[FormTypeKey := ContactUs, "name" := "Ada", "email" := "ada@example.com", "message" := "Hello"];
    NoIssuesIff(ContactUsSchema, f, isEmail);
  }

  /**
   * What each kind of rule accepts: required text must be present and
   * non-empty, optional text always passes, an e-mail field must pass the
   * e-mail check, a choice must be one of its options (or absent, if
   * optional), and the form type must be exactly the schema's own.
   */
  lemma FieldRuleIff(spec: FieldSpec, fields: Fields, isEmail: string -> bool)
    ensures spec.kind.RequiredText? ==>
              (CheckField(spec, fields, isEmail).None? <==> spec.name in fields && fields[spec.name] != "")
    ensures spec.kind.RequiredText? && spec.name in fields && fields[spec.name] == "" ==>
              CheckField(spec, fields, isEmail) == Some(Declared(spec.kind.message))
    ensures spec.kind.OptionalText? ==> CheckField(spec, fields, isEmail).None?
    ensures spec.kind.EmailField? ==>
              (CheckField(spec, fields, isEmail).None? <==> spec.name in fields && isEmail(fields[spec.name]))
    ensures spec.kind.EmailField? && spec.name in fields && !isEmail(fields[spec.name]) ==>
              CheckField(spec, fields, isEmail) == Some(Declared(spec.kind.message))
    ensures spec.kind.Choice? ==>
              (CheckField(spec, fields, isEmail).None? <==>
                 if spec.name in fields then fields[spec.name] in spec.kind.options else spec.kind.optional)
    ensures spec.kind.Literal? ==>
              (CheckField(spec, fields, isEmail).None? <==> spec.name in fields && fields[spec.name] == spec.kind.value)
  {
  }

  /** Validation passes exactly when no field's rule fails. */
  lemma {:induction false} NoIssuesIff(schema: Schema, fields: Fields, isEmail: string -> bool)
    ensures Issues(schema, fields, isEmail) == [] <==>
            forall k :: 0 <= k < |schema| ==> CheckField(schema[k], fields, isEmail).None?
    decreases |schema|
  {
    if schema != [] {
      NoIssuesIff(schema[1..], fields, isEmail);
      if forall k :: 0 <= k < |schema[1..]| ==> CheckField(schema[1..][k], fields, isEmail).None? {
        forall k | 1 <= k < |schema| ensures CheckField(schema[k], fields, isEmail).None? {
          assert schema[k] == schema[1..][k - 1];
        }
      }
    }
  }

  /** The subject name is the first present, non-empty one of companyName, organizationName, name, contactName; else "N/A". */
  lemma SubjectIdentifierPriority(data: seq<Entry>)
    ensures var r := SubjectIdentifier(data);
      || (r == "N/A" && forall k :: 0 <= k < |SubjectKeys| ==> !Truthy(data, SubjectKeys[k]))
      || (exists k :: 0 <= k < |SubjectKeys| && Truthy(data, SubjectKeys[k]) && r == Lookup(data, SubjectKeys[k]).value
            && forall j :: 0 <= j < k ==> !Truthy(data, SubjectKeys[j]))
  {
    if Truthy(data, "companyName") {
      assert SubjectKeys[0] == "companyName";
    } else if Truthy(data, "organizationName") {
      assert SubjectKeys[1] == "organizationName";
    } else if Truthy(data, "name") {
      assert SubjectKeys[2] == "name";
    } else if Truthy(data, "contactName") {
      assert SubjectKeys[3] == "contactName";
    }
  }

  /** organizationName wins over contactName when neither companyName nor name is there. */
  lemma SubjectPrefersOrganization()
    ensures SubjectIdentifier([("organizationName", "X"), ("contactName", "Y")]) == "X"
  {
  }

  /** Removing the spaces `SpaceBeforeCapitals` inserts gives back the name. */
  lemma {:induction false} SpacesRemoved(s: string)
    requires ' ' !in s
    ensures ReplaceChar(SpaceBeforeCapitals(s), ' ', "") == s
    decreases |s|
  {
    if s != [] {
      SpacesRemoved(s[1..]);
      var first := if IsAsciiUpper(s[0]) then [' ', s[0]] else [s[0]];
      ReplaceAppend(first, SpaceBeforeCapitals(s[1..]), ' ', "");
      if IsAsciiUpper(s[0]) {
        ReplaceAppend([' '], [s[0]], ' ', "");
      }
      assert s == [s[0]] + s[1..];
    }
  }

  lemma {:induction false} SpaceBeforeCapitalsShape(s: string)
    ensures |SpaceBeforeCapitals(s)| >= |s|
    ensures s != [] ==> SpaceBeforeCapitals(s)[|SpaceBeforeCapitals(s)| - 1] == s[|s| - 1]
    ensures s != [] && !IsAsciiUpper(s[0]) ==> SpaceBeforeCapitals(s)[0] == s[0]
    decreases |s|
  {
    if s != [] {
      SpaceBeforeCapitalsShape(s[1..]);
    }
  }

  lemma {:induction false} SpaceBeforeCapitalsAppend(a: string, b: string)
    ensures SpaceBeforeCapitals(a + b) == SpaceBeforeCapitals(a) + SpaceBeforeCapitals(b)
    decreases |a|
  {
    if a != [] {
      assert (a + b)[0] == a[0] && (a + b)[1..] == a[1..] + b;
      SpaceBeforeCapitalsAppend(a[1..], b);
    } else {
      assert a + b == b;
    }
  }

  lemma {:induction false} NoCapitalsUnchanged(s: string)
    requires forall c :: c in s ==> !IsAsciiUpper(c)
    ensures SpaceBeforeCapitals(s) == s
    decreases |s|
  {
    if s != [] {
      assert s[0] in s;
      assert forall c :: c in s[1..] ==> c in s;
      NoCapitalsUnchanged(s[1..]);
    }
  }

  /**
   * A camelCase field name becomes its words separated by single spaces, the
   * first letter capitalised: removing the spaces gives back the name with
   * that one letter raised.
   */
  lemma TitleCaseOfCamelName(key: string)
    requires key != [] && IsAsciiLower(key[0])
    requires forall c :: c in key ==> IsAsciiLower(c) || IsAsciiUpper(c) || '0' <= c <= '9'
    ensures TitleCase(key) == [ToUpperChar(key[0])] + SpaceBeforeCapitals(key[1..])
    ensures ReplaceChar(TitleCase(key), ' ', "") == [ToUpperChar(key[0])] + key[1..]
  {
    SpaceBeforeCapitalsShape(key);
    var spaced := SpaceBeforeCapitals(key);
    assert spaced == [key[0]] + SpaceBeforeCapitals(key[1..]);
    var capped := CapitalizeFirst(spaced);
    assert capped == [ToUpperChar(key[0])] + SpaceBeforeCapitals(key[1..]);
    assert key[|key| - 1] in key;
    if |key| > 1 {
      SpaceBeforeCapitalsShape(key[1..]);
      assert capped[|capped| - 1] == key[|key| - 1];
    }
    TrimNoop(capped);
    assert ' ' !in key[1..] by {
      assert forall c :: c in key[1..] ==> c in key;
    }
    SpacesRemoved(key[1..]);
    ReplaceAppend([ToUpperChar(key[0])], SpaceBeforeCapitals(key[1..]), ' ', "");
  }

  /** Position `i` of `r` holds a space if and only if a capital follows it. */
  predicate SpaceMarksCapital(r: string, i: nat)
    requires i < |r|
  {
    r[i] == ' ' <==> i + 1 < |r| && IsAsciiUpper(r[i + 1])
  }

  predicate SpacesExactlyBeforeCapitals(r: string)
  {
    forall i :: 0 <= i < |r| ==> SpaceMarksCapital(r, i)
  }

  /**
   * The spaces in the spaced name are exactly the ones in front of capitals:
   * a character is a space if and only if a capital follows it.
   */
  lemma {:induction false} SpacesMarkCapitals(s: string)
    requires ' ' !in s
    ensures SpaceBeforeCapitals(s) != [] ==> !IsAsciiUpper(SpaceBeforeCapitals(s)[0])
    ensures SpacesExactlyBeforeCapitals(SpaceBeforeCapitals(s))
    decreases |s|
  {
    if s != [] {
      assert ' ' !in s[1..] by {
        assert forall c :: c in s[1..] ==> c in s;
      }
      SpacesMarkCapitals(s[1..]);
      assert s[0] in s;
      var rest := SpaceBeforeCapitals(s[1..]);
      var r := SpaceBeforeCapitals(s);
      var head := if IsAsciiUpper(s[0]) then [' ', s[0]] else [s[0]];
      assert r == head + rest;
      MarksAcrossJoin(head, rest);
    }
  }

  /** The marking property carries over a join when the left part ends well. */
  lemma MarksAcrossJoin(head: string, rest: string)
    requires |head| == 1 || (|head| == 2 && head[0] == ' ' && IsAsciiUpper(head[1]))
    requires !IsAsciiUpper(head[0]) && head[|head| - 1] != ' '
    requires rest != [] ==> !IsAsciiUpper(rest[0])
    requires SpacesExactlyBeforeCapitals(rest)
    ensures head + rest != [] ==> !IsAsciiUpper((head + rest)[0])
    ensures SpacesExactlyBeforeCapitals(head + rest)
  {
    var r := head + rest;
    var n := |head|;
    assert r[0] == head[0];
    forall i | 0 <= i < |r| ensures SpaceMarksCapital(r, i) {
      if i >= n {
        var j := i - n;
        assert r[i] == rest[j];
        assert SpaceMarksCapital(rest, j);
        if i + 1 < |r| {
          assert r[i + 1] == rest[j + 1];
        }
      } else if i == n - 1 {
        assert r[i] == head[n - 1];
        if i + 1 < |r| {
          assert r[i + 1] == rest[0];
        }
      } else {
        assert i == 0 && n == 2;
        assert r[0] == ' ' && r[1] == head[1];
      }
    }
  }

  /**
   * The shown value: "Not provided" exactly for the empty string; any other
   * value appears with its line breaks written as `<br>` and none left.
   */
  lemma ShownValue(value: string)
    ensures value == "" ==> Shown(value) == NotProvided
    ensures value != "" ==> Shown(value) == ReplaceChar(value, '\n', "<br>") && '\n' !in Shown(value)
  {
    ReplaceRemoves(value, '\n', "<br>");
    if value != [] {
      NonEmptyShown(value);
    }
  }

  /** A non-empty value is never rendered as "Not provided", even when it is just line breaks. */
  lemma NonEmptyShown(value: string)
    requires value != []
    ensures ReplaceChar(value, '\n', "<br>") != []
  {
    if '\n' !in value {
      ReplaceAbsent(value, '\n', "<br>");
    } else {
      var i :| 0 <= i < |value| && value[i] == '\n';
      assert value == value[..i] + [value[i]] + value[i + 1..];
      ReplaceAppend(value[..i] + [value[i]], value[i + 1..], '\n', "<br>");
      ReplaceAppend(value[..i], [value[i]], '\n', "<br>");
    }
  }

  /** A multi-line value keeps its lines: lines joined by line breaks come out joined by `<br>`. */
  lemma MultiLineValue(lines: seq<string>)
    requires |lines| >= 2
    requires forall k :: 0 <= k < |lines| ==> '\n' !in lines[k]
    ensures Shown(Join(lines, "\n")) == Join(lines, "<br>")
  {
    assert "\n" == ['\n'];
    assert Join(lines, "\n") == lines[0] + "\n" + Join(lines[1..], "\n");
    ShownValue(Join(lines, "\n"));
    ReplaceJoin(lines, '\n', "<br>");
  }

  lemma {:induction false} BlocksAppend(a: seq<Entry>, b: seq<Entry>)
    ensures Blocks(a + b) == Blocks(a) + Blocks(b)
    decreases |a|
  {
    if a != [] {
      BlocksCons(a, b);
      BlocksAppend(a[1..], b);
      AppendAssoc(Block(a[0]), Blocks(a[1..]), Blocks(b));
    } else {
      assert a + b == b;
    }
  }

  lemma BlocksCons(a: seq<Entry>, b: seq<Entry>)
    requires a != []
    ensures Blocks(a + b) == Block(a[0]) + Blocks(a[1..] + b)
    ensures Blocks(a) == Block(a[0]) + Blocks(a[1..])
  {
    assert (a + b)[0] == a[0] && (a + b)[1..] == a[1..] + b;
  }

  /** The body leaves out the form type: removing its entry does not change the body. */
  lemma BodySkipsFormType(formType: string, before: seq<Entry>, value: string, after: seq<Entry>)
    ensures BodyHtml(formType, before + [(FormTypeKey, value)] + after) == BodyHtml(formType, before + after)
  {
    BlocksSkip(before, (FormTypeKey, value), after);
  }

  lemma BlocksSnoc(a: seq<Entry>, x: Entry)
    ensures Blocks(a + [x]) == Blocks(a) + Block(x)
  {
    BlocksAppend(a, [x]);
    assert [x][1..] == [];
  }

  lemma BlocksSkip(a: seq<Entry>, x: Entry, b: seq<Entry>)
    requires x.0 == FormTypeKey
    ensures Blocks(a + [x] + b) == Blocks(a + b)
  {
    BlocksSnoc(a, x);
    assert Block(x) == "";
    assert Blocks(a + [x]) == Blocks(a) by {
      assert Blocks(a) + "" == Blocks(a);
    }
    BlocksAppend(a + [x], b);
    BlocksAppend(a, b);
  }

  /** Every other entry appears in the body under its title with its shown value. */
  lemma BodyShowsEntry(formType: string, data: seq<Entry>, i: nat)
    requires i < |data| && data[i].0 != FormTypeKey
    ensures Contains(BodyHtml(formType, data), EntryHtml(TitleCase(data[i].0), Shown(data[i].1)))
  {
    var a, x, b := data[..i], data[i], data[i + 1..];
    SplitAt(data, i);
    BlocksAppend(a + [x], b);
    BlocksSnoc(a, x);
    var h, e, f := Header(formType), Block(x), Footer;
    Regroup(h, Blocks(a), e, Blocks(b), f);
    ContainsInfix(h + Blocks(a), e, Blocks(b) + f);
  }

  lemma SplitAt<T>(s: seq<T>, i: nat)
    requires i < |s|
    ensures s == s[..i] + [s[i]] + s[i + 1..]
  {
  }

  lemma Regroup(h: string, a: string, e: string, b: string, f: string)
    ensures h + (a + e + b) + f == h + a + e + (b + f)
  {
  }

  /** The validated data holds exactly the schema's submitted fields with their submitted values. */
  lemma {:induction false} ValidatedDataExact(schema: Schema, fields: Fields, key: string)
    requires DistinctNames(schema)
    ensures Lookup(ValidatedData(schema, fields), key) ==
            (if key in fields && exists k :: 0 <= k < |schema| && schema[k].name == key then Some(fields[key]) else None)
    decreases |schema|
  {
    if schema != [] {
      var rest := schema[1..];
      assert DistinctNames(rest) by {
        forall i, j | 0 <= i < j < |rest| ensures rest[i].name != rest[j].name {
          assert rest[i] == schema[i + 1] && rest[j] == schema[j + 1];
        }
      }
      ValidatedDataExact(rest, fields, key);
      var head := if schema[0].name in fields then [(schema[0].name, fields[schema[0].name])] else [];
      LookupAppend(head, ValidatedData(rest, fields), key);
      if exists k :: 0 <= k < |schema| && schema[k].name == key {
        var k :| 0 <= k < |schema| && schema[k].name == key;
        if k > 0 {
          assert rest[k - 1].name == key;
        }
      }
      if exists k :: 0 <= k < |rest| && rest[k].name == key {
        var k :| 0 <= k < |rest| && rest[k].name == key;
        assert schema[k + 1].name == key;
      }
    }
  }

  lemma LookupAppend(a: seq<Entry>, b: seq<Entry>, key: string)
    requires |a| <= 1
    ensures Lookup(a + b, key) == if Lookup(a, key).Some? then Lookup(a, key) else Lookup(b, key)
  {
    if a != [] {
      assert (a + b)[1..] == b;
    } else {
      assert a + b == b;
    }
  }
}
