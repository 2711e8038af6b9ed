/**
 * app/forms.py: each form is a list of fields, each field a list of
 * validators run in order. The validators are data here, and `RunChain`
 * runs them the way the form library does, so that the acceptance rules
 * of each form are derived (the lemmas at the end) rather than restated.
 */
module Forms {
  import opened Wrappers
  import opened Strings

  /** What the submission holds for a field, once the form library has coerced it. */
  datatype Input =
    | Absent                   // nothing submitted for the field
    | Text(s: string)          // a text field's data
    | Number(n: int)           // an integer field's or an int-coerced select's data
    | Unreadable(raw: string)  // submitted to an integer field, but not an integer
    | Upload(filename: string) // a file field holding an uploaded file

  /**
   * What the library can make of a submission to an integer field or an
   * int-coerced select: nothing, a number, or raw text that is not one.
   */
  type NumberInput = v: Input | v.Absent? || v.Number? || v.Unreadable? witness Absent

  /** The validators app/forms.py uses. */
  datatype Validator =
    | DataRequired
    | Optional
    | NumberRange(min: int, max: int)
    | Email
    | URL
    | FileRequired
    | FileAllowed(extensions: seq<string>)

  /** The library's e-mail and URL regular expressions, which this model leaves opaque. */
  datatype Checks = Checks(isEmail: string -> bool, isUrl: string -> bool)

  /**
   * A bound field: what was submitted for it, the data it holds (which on an
   * edit form may come from the stored record instead), the choices of a
   * select field, and its validators.
   */
  datatype Field = Field(input: Input, data: Input, choices: Option<set<Input>>, validators: seq<Validator>)

  /** A field of a create form, or a text field: its data is what was submitted. */
  function Submitted(v: Input, choices: Option<set<Input>>, validators: seq<Validator>): Field {
    Field(v, v, choices, validators)
  }

  /**
   * The data of an integer or int-coerced select field once the submission
   * is processed. A create form (`stored == None`) holds what was submitted.
   * An edit form starts from the stored record (`obj=`), and the submission
   * only replaces what it can coerce: with nothing submitted the field keeps
   * the stored value, and so does a select field whose coercion fails, while
   * an integer field that fails to coerce holds `None`.
   */
  function Bound(input: NumberInput, stored: Option<Input>, select: bool): (d: Input)
    ensures stored.None? ==> d == input
    ensures stored.Some? && input.Absent? ==> d == stored.value
    ensures stored.Some? && input.Unreadable? ==> d == (if select then stored.value else Absent)
    ensures !input.Absent? && !input.Unreadable? ==> d == input
  {
    match stored
    case None => input
    case Some(value) =>
      match input
      case Absent => value
      case Unreadable(_) => if select then value else Absent
      case _ => input
  }

  /** The value an edit form starts from for a nullable integer column. */
  function StoredNumber(x: Option<int>): Input {
    if x.Some? then Number(x.value) else Absent
  }

  /** An integer field left out of an edit submission keeps the stored value. */
  lemma OmittedFieldKeepsStoredValue(x: Option<int>, select: bool)
    ensures IntegerData(Bound(Absent, Some(StoredNumber(x)), select)) == x
  {
  }

  /** Python truthiness of a field's data, which `DataRequired` tests. */
  predicate Truthy(v: Input) {
    match v
    case Absent => false
    case Text(s) => !IsBlank(s)
    case Number(n) => n != 0
    case Unreadable(_) => false
    case Upload(name) => name != ""
  }

  /** What `Optional` tests of the submission: nothing, or raw text that is only whitespace. */
  predicate Blank(v: Input) {
    match v
    case Absent => true
    case Text(s) => IsBlank(s)
    case Number(_) => false
    case Unreadable(raw) => IsBlank(raw)
    case Upload(_) => false
  }

  /** `FileAllowed`'s test: the lower-cased file name ends in `.` and one of the extensions. */
  predicate HasAllowedExtension(filename: string, extensions: seq<string>) {
    exists i | 0 <= i < |extensions| :: EndsWith(Lower(filename), "." + extensions[i])
  }

  /**
   * Runs a validator chain on a field with submission `input` and data `v`,
   * whose earlier checks already found an error when `failed` holds.
   * `DataRequired`, `FileRequired` and `FileAllowed` stop the chain with an
   * error, `Optional` stops it and clears every error when the submission is
   * blank, and the other validators record an error and let the chain go on.
   * The field is valid when it ends without errors.
   */
  function RunChain(input: Input, v: Input, chain: seq<Validator>, failed: bool, checks: Checks): bool
    decreases |chain|
  {
    if chain == [] then !failed
    else
      var rest := chain[1..];
      match chain[0]
      case DataRequired => Truthy(v) && RunChain(input, v, rest, failed, checks)
      case Optional => Blank(input) || RunChain(input, v, rest, failed, checks)
      case NumberRange(lo, hi) => RunChain(input, v, rest, failed || !(v.Number? && lo <= v.n <= hi), checks)
      case Email => RunChain(input, v, rest, failed || !(v.Text? && checks.isEmail(v.s)), checks)
      case URL => RunChain(input, v, rest, failed || !(v.Text? && checks.isUrl(v.s)), checks)
      case FileRequired => v.Upload? && v.filename != "" && RunChain(input, v, rest, failed, checks)
      case FileAllowed(exts) =>
        (!(v.Upload? && v.filename != "") || HasAllowedExtension(v.filename, exts))
        && RunChain(input, v, rest, failed, checks)
  }

  /**
   * One field's validation: a failed integer coercion and (for a select
   * field) data that is not among the choices are errors that do not stop
   * the chain; then the validators run.
   */
  predicate FieldValid(f: Field, checks: Checks) {
    var coercionError := f.input.Unreadable?;
    var choiceError := f.choices.Some? && f.data !in f.choices.value;
    RunChain(f.input, f.data, f.validators, coercionError || choiceError, checks)
  }

  predicate FormValid(fields: seq<Field>, checks: Checks) {
    forall i | 0 <= i < |fields| :: FieldValid(fields[i], checks)
  }

  /** The `.data` of an integer field: the number, or `None`. */
  function IntegerData(v: Input): Option<int> {
    if v.Number? then Some(v.n) else None
  }

  // The constant choice lists.
  const TargetStatuses: seq<string> := ["identified", "contacted", "negotiating", "approved", "live", "rejected"]
  const Priorities: seq<string> := ["low", "medium", "high"]
  const CampaignStatuses: seq<string> := ["draft", "active", "paused", "completed"]
  const UploadExtensions: seq<string> := ["csv", "xlsx", "xls"]

  /** The choices of a string select field. */
  function TextChoices(values: seq<string>): set<Input> {
    set i | 0 <= i < |values| :: Text(values[i])
  }

  /** The choices of an int-coerced select field built from record ids. */
  function IdChoices(ids: set<int>): set<Input> {
    set id | id in ids :: Number(id)
  }

  // PlatformForm

  datatype PlatformForm = PlatformForm(
    name: string, url: string, domainAuthority: NumberInput,
    contactEmail: string, contactName: string, notes: string)

  /** `domainAuthority` is the data of the integer field (see `Bound`). */
  function PlatformFields(f: PlatformForm, domainAuthority: Input): seq<Field> {
    [ Submitted(Text(f.name), None, [DataRequired]),
      Submitted(Text(f.url), None, [DataRequired, URL]),
      Field(f.domainAuthority, domainAuthority, None, [Optional, NumberRange(0, 100)]),
      Submitted(Text(f.contactEmail), None, [Optional, Email]),
      Submitted(Text(f.contactName), None, [Optional]),
      Submitted(Text(f.notes), None, [Optional]) ]
  }

  predicate PlatformFormValid(f: PlatformForm, domainAuthority: Input, checks: Checks) {
    FormValid(PlatformFields(f, domainAuthority), checks)
  }

  // TargetForm; the platform choices are the ids of the existing platforms.

  datatype TargetForm = TargetForm(
    platformId: NumberInput, targetUrl: string, targetPageTitle: string, ourUrl: string,
    anchorText: string, status: string, priority: string, notes: string)

  /** `platformId` is the data of the platform select (see `Bound`). */
  function TargetFields(f: TargetForm, platformIds: set<int>, platformId: Input): seq<Field> {
    [ Field(f.platformId, platformId, Some(IdChoices(platformIds)), [DataRequired]),
      Submitted(Text(f.targetUrl), None, [DataRequired, URL]),
      Submitted(Text(f.targetPageTitle), None, [Optional]),
      Submitted(Text(f.ourUrl), None, [Optional]),
      Submitted(Text(f.anchorText), None, [Optional]),
      Submitted(Text(f.status), Some(TextChoices(TargetStatuses)), [DataRequired]),
      Submitted(Text(f.priority), Some(TextChoices(Priorities)), [DataRequired]),
      Submitted(Text(f.notes), None, [Optional]) ]
  }

  predicate TargetFormValid(f: TargetForm, platformIds: set<int>, platformId: Input, checks: Checks) {
    FormValid(TargetFields(f, platformIds, platformId), checks)
  }

  // CampaignForm

  datatype CampaignForm = CampaignForm(name: string, description: string, status: string)

  function CampaignFields(f: CampaignForm): seq<Field> {
    [ Submitted(Text(f.name), None, [DataRequired]),
      Submitted(Text(f.description), None, [Optional]),
      Submitted(Text(f.status), Some(TextChoices(CampaignStatuses)), [DataRequired]) ]
  }

  predicate CampaignFormValid(f: CampaignForm, checks: Checks) {
    FormValid(CampaignFields(f), checks)
  }

  // OutreachEmailForm; the target choices are the existing targets, the
  // campaign choices 0 ("no campaign") and the existing campaigns.

  datatype OutreachEmailForm = OutreachEmailForm(
    targetId: NumberInput, campaignId: NumberInput, recipientEmail: string, subject: string, body: string)

  /** `targetId` and `campaignId` are the data of the two selects. */
  function OutreachEmailFields(f: OutreachEmailForm, targetIds: set<int>, campaignIds: set<int>,
                               targetId: Input, campaignId: Input): seq<Field> {
    [ Field(f.targetId, targetId, Some(IdChoices(targetIds)), [DataRequired]),
      Field(f.campaignId, campaignId, Some(IdChoices({0} + campaignIds)), [Optional]),
      Submitted(Text(f.recipientEmail), None, [DataRequired, Email]),
      Submitted(Text(f.subject), None, [DataRequired]),
      Submitted(Text(f.body), None, [DataRequired]) ]
  }

  predicate OutreachEmailFormValid(f: OutreachEmailForm, targetIds: set<int>, campaignIds: set<int>,
                                   targetId: Input, campaignId: Input, checks: Checks) {
    FormValid(OutreachEmailFields(f, targetIds, campaignIds, targetId, campaignId), checks)
  }

  // UploadPlatformsForm

  function UploadFields(file: Input): seq<Field> {
    [ Submitted(file, None, [FileRequired, FileAllowed(UploadExtensions)]) ]
  }

  predicate UploadFormValid(file: Input, checks: Checks) {
    FormValid(UploadFields(file), checks)
  }

  // ---------------------------------------------------------------------
  // The acceptance rules, stated without validators and derived from them.
  // ---------------------------------------------------------------------

  /** Domain authority may be left empty; when it is given it must be an integer in 0..100. */
  predicate DomainAuthorityAccepted(input: Input, data: Input) {
    Blank(input) || (!input.Unreadable? && data.Number? && 0 <= data.n <= 100)
  }

  /** A campaign selection may be left empty; otherwise it must be 0 or the id of an existing campaign. */
  predicate CampaignChoiceAccepted(input: Input, data: Input, campaignIds: set<int>) {
    Blank(input) || (!input.Unreadable? && data.Number? && (data.n == 0 || data.n in campaignIds))
  }

  /** A select over record ids accepts exactly a non-zero id among them. */
  predicate IdChosen(v: Input, ids: set<int>) {
    v.Number? && v.n != 0 && v.n in ids
  }

  lemma ChoicesAreNotBlank()
    ensures forall i | 0 <= i < |TargetStatuses| :: !IsBlank(TargetStatuses[i])
    ensures forall i | 0 <= i < |Priorities| :: !IsBlank(Priorities[i])
    ensures forall i | 0 <= i < |CampaignStatuses| :: !IsBlank(CampaignStatuses[i])
  {
    forall i | 0 <= i < |TargetStatuses| ensures !IsBlank(TargetStatuses[i]) {
      assert !IsSpace(TargetStatuses[i][0]);
    }
    forall i | 0 <= i < |Priorities| ensures !IsBlank(Priorities[i]) {
      assert !IsSpace(Priorities[i][0]);
    }
    forall i | 0 <= i < |CampaignStatuses| ensures !IsBlank(CampaignStatuses[i]) {
      assert !IsSpace(CampaignStatuses[i][0]);
    }
  }

  /** A required select over a constant choice list accepts exactly the listed values. */
  lemma {:induction false} ChoiceFieldRule(s: string, values: seq<string>, checks: Checks)
    requires forall i | 0 <= i < |values| :: !IsBlank(values[i])
    ensures FieldValid(Submitted(Text(s), Some(TextChoices(values)), [DataRequired]), checks) <==> s in values
  {
    assert [DataRequired][1..] == [];
    if s in values {
      var i :| 0 <= i < |values| && values[i] == s;
      assert Text(s) in TextChoices(values);
    }
    if Text(s) in TextChoices(values) {
      var i :| 0 <= i < |values| && Text(values[i]) == Text(s);
    }
  }

  /**
   * An int-coerced required select accepts exactly a submission that coerces
   * and leaves the field holding a non-zero id among its choices.
   */
  lemma IdFieldRule(input: Input, v: Input, ids: set<int>, checks: Checks)
    ensures FieldValid(Field(input, v, Some(IdChoices(ids)), [DataRequired]), checks) <==>
      !input.Unreadable? && IdChosen(v, ids)
  {
    assert [DataRequired][1..] == [];
    if IdChosen(v, ids) {
      assert Number(v.n) in IdChoices(ids);
    }
  }

  /** `PlatformForm`: name and URL required, URL well-formed, domain authority in range, e-mail well-formed if given. */
  lemma PlatformFormRule(f: PlatformForm, domainAuthority: Input, checks: Checks)
    ensures PlatformFormValid(f, domainAuthority, checks) <==>
      && Required(f.name)
      && Required(f.url) && checks.isUrl(f.url)
      && DomainAuthorityAccepted(f.domainAuthority, domainAuthority)
      && (IsBlank(f.contactEmail) || checks.isEmail(f.contactEmail))
  {
    var fs := PlatformFields(f, domainAuthority);
    assert [DataRequired][1..] == [];
    assert [DataRequired, URL][1..] == [URL] && [URL][1..] == [];
    assert [Optional, NumberRange(0, 100)][1..] == [NumberRange(0, 100)] && [NumberRange(0, 100)][1..] == [];
    assert [Optional, Email][1..] == [Email] && [Email][1..] == [];
    assert [Optional][1..] == [];
    assert FormValid(fs, checks) <==>
      FieldValid(fs[0], checks) && FieldValid(fs[1], checks) && FieldValid(fs[2], checks)
      && FieldValid(fs[3], checks) && FieldValid(fs[4], checks) && FieldValid(fs[5], checks);
  }

  /** `TargetForm`: an existing platform, a well-formed target URL, and a status and a priority from their lists. */
  lemma TargetFormRule(f: TargetForm, platformIds: set<int>, platformId: Input, checks: Checks)
    ensures TargetFormValid(f, platformIds, platformId, checks) <==>
      && !f.platformId.Unreadable? && IdChosen(platformId, platformIds)
      && Required(f.targetUrl) && checks.isUrl(f.targetUrl)
      && f.status in TargetStatuses
      && f.priority in Priorities
  {
    var fs := TargetFields(f, platformIds, platformId);
    ChoicesAreNotBlank();
    IdFieldRule(f.platformId, platformId, platformIds, checks);
    ChoiceFieldRule(f.status, TargetStatuses, checks);
    ChoiceFieldRule(f.priority, Priorities, checks);
    assert [DataRequired, URL][1..] == [URL] && [URL][1..] == [];
    assert [Optional][1..] == [];
    assert FormValid(fs, checks) <==>
      FieldValid(fs[0], checks) && FieldValid(fs[1], checks) && FieldValid(fs[2], checks)
      && FieldValid(fs[3], checks) && FieldValid(fs[4], checks) && FieldValid(fs[5], checks)
      && FieldValid(fs[6], checks) && FieldValid(fs[7], checks);
  }

  /** `CampaignForm`: a name, and a status from the campaign list. */
  lemma CampaignFormRule(f: CampaignForm, checks: Checks)
    ensures CampaignFormValid(f, checks) <==> Required(f.name) && f.status in CampaignStatuses
  {
    var fs := CampaignFields(f);
    ChoicesAreNotBlank();
    ChoiceFieldRule(f.status, CampaignStatuses, checks);
    assert [DataRequired][1..] == [];
    assert [Optional][1..] == [];
    assert FormValid(fs, checks) <==>
      FieldValid(fs[0], checks) && FieldValid(fs[1], checks) && FieldValid(fs[2], checks);
  }

  /** `OutreachEmailForm`: an existing target, an optional campaign, and recipient, subject and body. */
  lemma OutreachEmailFormRule(f: OutreachEmailForm, targetIds: set<int>, campaignIds: set<int>,
                              targetId: Input, campaignId: Input, checks: Checks)
    ensures OutreachEmailFormValid(f, targetIds, campaignIds, targetId, campaignId, checks) <==>
      && !f.targetId.Unreadable? && IdChosen(targetId, targetIds)
      && CampaignChoiceAccepted(f.campaignId, campaignId, campaignIds)
      && Required(f.recipientEmail) && checks.isEmail(f.recipientEmail)
      && Required(f.subject)
      && Required(f.body)
  {
    var fs := OutreachEmailFields(f, targetIds, campaignIds, targetId, campaignId);
    IdFieldRule(f.targetId, targetId, targetIds, checks);
    assert [DataRequired][1..] == [];
    assert [DataRequired, Email][1..] == [Email] && [Email][1..] == [];
    assert [Optional][1..] == [];
    if campaignId.Number? && (campaignId.n == 0 || campaignId.n in campaignIds) {
      assert campaignId in IdChoices({0} + campaignIds);
    }
    assert FormValid(fs, checks) <==>
      FieldValid(fs[0], checks) && FieldValid(fs[1], checks) && FieldValid(fs[2], checks)
      && FieldValid(fs[3], checks) && FieldValid(fs[4], checks);
  }

  /** An upload needs a named file whose extension, in any letter case, is csv, xlsx or xls. */
  lemma UploadFormRule(file: Input, checks: Checks)
    ensures UploadFormValid(file, checks) <==>
      && file.Upload? && file.filename != ""
      && (|| EndsWith(Lower(file.filename), ".csv")
          || EndsWith(Lower(file.filename), ".xlsx")
          || EndsWith(Lower(file.filename), ".xls"))
  {
    var fs := UploadFields(file);
    var chain := [FileRequired, FileAllowed(UploadExtensions)];
    assert chain[1..] == [FileAllowed(UploadExtensions)] && chain[1..][1..] == [];
    assert FormValid(fs, checks) <==> FieldValid(fs[0], checks);
    assert FieldValid(fs[0], checks) == RunChain(file, file, chain, false, checks);
    assert RunChain(file, file, chain[1..], false, checks) ==
      ((!(file.Upload? && file.filename != "") || HasAllowedExtension(file.filename, UploadExtensions))
       && RunChain(file, file, chain[1..][1..], false, checks));
    if file.Upload? {
      var name := Lower(file.filename);
      assert "." + UploadExtensions[0] == ".csv" && "." + UploadExtensions[1] == ".xlsx"
        && "." + UploadExtensions[2] == ".xls";
      assert HasAllowedExtension(file.filename, UploadExtensions) <==>
        EndsWith(name, "." + UploadExtensions[0]) || EndsWith(name, "." + UploadExtensions[1])
        || EndsWith(name, "." + UploadExtensions[2]);
    }
  }
}
