/**
 * app/routes.py: the request handlers that change or filter the store.
 * Each handler is a method on the `Store`; rendering, flashing and
 * redirecting are reduced to the `Outcome` the handler ends with. The
 * outreach-email lifecycle (edit and send) is also given as two functions
 * on the tables, `EditEmail` and `Send`, which state what the handlers do
 * and against which the handler methods are proved.
 */
module Routes {
  import opened Wrappers
  import opened Models
  import Forms

  /** How a handler ends: the flashed message and redirect, or the re-shown form. */
  datatype Outcome =
    | Created(id: Id)
    | Updated
    | Deleted
    | NotFound                  // get_or_404
    | Invalid                   // the form did not validate and is shown again
    | EditRefused               // 'Cannot edit a sent email.'
    | AlreadySent               // 'Email already sent.'
    | SendFailed(error: string) // 'Failed to send: …'
    | SendSucceeded(messageId: string)

  /** The mail provider's answer: a message id, or an error text. */
  datatype SendResult = Ok(id: string) | Err(msg: string)

  /** What the handler asks the mail provider to send. */
  datatype MailRequest = MailRequest(to: string, subject: string, bodyHtml: string)

  // -----------------------------------------------------------------------
  // Records built from validated forms
  // -----------------------------------------------------------------------

  /** The platform a validated form describes; `domainAuthority` is that field's data. */
  function PlatformFromForm(f: Forms.PlatformForm, domainAuthority: Forms.Input): Platform {
    Platform(f.name, f.url, Forms.IntegerData(domainAuthority), f.contactEmail, f.contactName, f.notes)
  }

  /** The target a validated form describes; `platformId` is the platform select's data. */
  function TargetFromForm(f: Forms.TargetForm, platformId: Forms.Input): Target
    requires platformId.Number?
  {
    Target(platformId.n, f.targetUrl, f.targetPageTitle, f.ourUrl, f.anchorText, f.status, f.priority, f.notes)
  }

  function CampaignFromForm(f: Forms.CampaignForm): Campaign {
    Campaign(f.name, f.description, f.status)
  }

  /** The campaign select's data as stored: `data if data != 0 else None`. */
  function CampaignRef(data: Forms.Input): (r: Option<Id>)
    ensures r.None? <==> !data.Number? || data.n == 0
    ensures r.Some? ==> data == Forms.Number(r.value) && r.value != 0
  {
    if data.Number? && data.n != 0 then Some(data.n) else None
  }

  /** The selection the edit form starts from for a stored reference: the id, or 0 for none. */
  function CampaignSelection(ref: Option<Id>): Forms.Input {
    Forms.Number(ref.GetOr(0))
  }

  /** Showing a stored reference in the form and saving it back gives the same reference. */
  lemma CampaignSelectionRoundTrip(ref: Option<Id>)
    requires ref != Some(0)
    ensures CampaignRef(CampaignSelection(ref)) == ref
  {
  }

  /** A selection accepted on the create form stores no campaign or an existing one. */
  lemma CampaignRefExists(selection: Forms.Input, campaignIds: set<Id>)
    requires Forms.CampaignChoiceAccepted(selection, selection, campaignIds)
    ensures CampaignRef(selection).None? || CampaignRef(selection).value in campaignIds
    ensures selection == Forms.Number(0) ==> CampaignRef(selection) == None
  {
  }

  // -----------------------------------------------------------------------
  // The data of the edit forms' integer and select fields
  // -----------------------------------------------------------------------

  /** platform_edit: the domain-authority field starts from the stored value. */
  function PlatformEditData(p: Platform, f: Forms.PlatformForm): Forms.Input {
    Forms.Bound(f.domainAuthority, Some(Forms.StoredNumber(p.domainAuthority)), false)
  }

  /** target_edit: the platform select starts from the stored platform. */
  function TargetEditData(t: Target, f: Forms.TargetForm): Forms.Input {
    Forms.Bound(f.platformId, Some(Forms.Number(t.platformId)), true)
  }

  /** email_edit: the target select starts from the stored target. */
  function EmailTargetData(e: OutreachEmail, f: Forms.OutreachEmailForm): Forms.Input {
    Forms.Bound(f.targetId, Some(Forms.Number(e.targetId)), true)
  }

  /**
   * email_edit's campaign select as the code is written: it starts from the
   * stored campaign, and lines 283-284 then set it to 0 whenever the email
   * has no campaign, after the submission has been processed.
   */
  function EmailCampaignDataAsWritten(e: OutreachEmail, f: Forms.OutreachEmailForm): (d: Forms.Input)
    ensures e.campaignId == None || e.campaignId == Some(0) ==> d == Forms.Number(0)
    ensures e.campaignId.Some? && e.campaignId.value != 0 ==>
      d == (if f.campaignId.Absent? || f.campaignId.Unreadable? then Forms.Number(e.campaignId.value) else f.campaignId)
  {
    if e.campaignId == None || e.campaignId == Some(0) then Forms.Number(0)
    else Forms.Bound(f.campaignId, Some(Forms.Number(e.campaignId.value)), true)
  }

  /**
   * The campaign select as evidently intended: the form starts from the
   * stored reference (0 for none) and the submission replaces it.
   */
  function EmailCampaignDataIntended(e: OutreachEmail, f: Forms.OutreachEmailForm): (d: Forms.Input)
    ensures f.campaignId.Absent? || f.campaignId.Unreadable? ==> d == CampaignSelection(e.campaignId)
    ensures !f.campaignId.Absent? && !f.campaignId.Unreadable? ==> d == f.campaignId
  {
    Forms.Bound(f.campaignId, Some(CampaignSelection(e.campaignId)), true)
  }

  /**
   * With the intended campaign select a submitted selection is what is
   * validated against the choices and stored, and with nothing submitted the
   * stored campaign is kept.
   */
  lemma IntendedEditStoresSelection(e: OutreachEmail, f: Forms.OutreachEmailForm, campaignIds: set<Id>)
    requires e.campaignId != Some(0)
    ensures f.campaignId.Number? ==> CampaignRef(EmailCampaignDataIntended(e, f)) == CampaignRef(f.campaignId)
    ensures f.campaignId.Number? ==>
      (Forms.CampaignChoiceAccepted(f.campaignId, EmailCampaignDataIntended(e, f), campaignIds)
       <==> f.campaignId.n == 0 || f.campaignId.n in campaignIds)
    ensures f.campaignId.Absent? ==> CampaignRef(EmailCampaignDataIntended(e, f)) == e.campaignId
  {
  }

  /**
   * As written, editing an email that has no campaign cannot give it one:
   * whatever campaign `c` is selected, even one that does not exist, the form
   * validates and stores no campaign, where the intended select stores `c`
   * and accepts it only when it exists.
   */
  lemma AsWrittenEditDropsCampaign(e: OutreachEmail, f: Forms.OutreachEmailForm, c: Id, campaignIds: set<Id>)
    requires e.campaignId == None && c != 0 && f.campaignId == Forms.Number(c)
    ensures Forms.CampaignChoiceAccepted(f.campaignId, EmailCampaignDataAsWritten(e, f), campaignIds)
    ensures CampaignRef(EmailCampaignDataAsWritten(e, f)) == None
    ensures CampaignRef(EmailCampaignDataIntended(e, f)) == Some(c)
    ensures Forms.CampaignChoiceAccepted(f.campaignId, EmailCampaignDataIntended(e, f), campaignIds) <==> c in campaignIds
  {
  }

  /** A platform edit that leaves out domain authority keeps the stored value. */
  lemma PlatformEditKeepsOmittedDomainAuthority(p: Platform, f: Forms.PlatformForm)
    requires f.domainAuthority.Absent?
    ensures Forms.DomainAuthorityAccepted(f.domainAuthority, PlatformEditData(p, f))
    ensures PlatformFromForm(f, PlatformEditData(p, f)).domainAuthority == p.domainAuthority
  {
    Forms.OmittedFieldKeepsStoredValue(p.domainAuthority, false);
  }

  /** A target edit that leaves out the platform keeps, and accepts, the stored platform. */
  lemma TargetEditKeepsOmittedPlatform(t: Target, f: Forms.TargetForm, platformIds: set<Id>)
    requires f.platformId.Absent? && t.platformId in platformIds && t.platformId != 0
    ensures Forms.IdChosen(TargetEditData(t, f), platformIds)
    ensures TargetFromForm(f, TargetEditData(t, f)).platformId == t.platformId
  {
  }

  /**
   * The five-field overwrite of email_edit: target, campaign, recipient,
   * subject and body come from the form's data; status, send time and
   * provider id stay.
   */
  function EditedEmail(e: OutreachEmail, f: Forms.OutreachEmailForm, targetId: Forms.Input, campaignId: Forms.Input): (r: OutreachEmail)
    requires targetId.Number?
    ensures r.targetId == targetId.n && r.campaignId == CampaignRef(campaignId)
    ensures r.recipientEmail == f.recipientEmail && r.subject == f.subject && r.body == f.body
    ensures r.status == e.status && r.sentAt == e.sentAt && r.gmailMessageId == e.gmailMessageId
  {
    e.(targetId := targetId.n, campaignId := CampaignRef(campaignId),
       recipientEmail := f.recipientEmail, subject := f.subject, body := f.body)
  }

  // -----------------------------------------------------------------------
  // The outreach-email lifecycle as functions on the tables
  // -----------------------------------------------------------------------

  /** A sent email that is still there is exactly as it was. */
  predicate SentFrozen(before: Tables, after: Tables) {
    forall e | e in before.emails && e in after.emails && before.emails[e].status == StatusSent ::
      after.emails[e] == before.emails[e]
  }

  /** email_edit's validation of a submission for the stored email `e`. */
  predicate EditFormValid(db: Tables, e: OutreachEmail, f: Forms.OutreachEmailForm, checks: Forms.Checks) {
    Forms.OutreachEmailFormValid(f, db.targets.Keys, db.campaigns.Keys,
                                 EmailTargetData(e, f), EmailCampaignDataAsWritten(e, f), checks)
  }

  /** An accepted edit stores no campaign, an existing campaign, or the campaign the email had. */
  lemma EditCampaignExists(campaignIds: set<Id>, e: OutreachEmail, f: Forms.OutreachEmailForm)
    requires Forms.CampaignChoiceAccepted(f.campaignId, EmailCampaignDataAsWritten(e, f), campaignIds)
    ensures var ref := CampaignRef(EmailCampaignDataAsWritten(e, f));
      ref.None? || ref.value in campaignIds || ref == e.campaignId
  {
  }

  datatype EditStep = EditStep(tables: Tables, outcome: Outcome)

  /** email_edit on a submitted form, as the code is written. */
  function EditEmail(db: Tables, id: Id, f: Forms.OutreachEmailForm, checks: Forms.Checks): (r: EditStep)
    ensures r.outcome == NotFound <==> id !in db.emails
    ensures r.outcome == EditRefused <==> id in db.emails && db.emails[id].status == StatusSent
    ensures r.outcome == Invalid <==>
      id in db.emails && db.emails[id].status != StatusSent && !EditFormValid(db, db.emails[id], f, checks)
    ensures r.outcome != Updated ==> r.tables == db
    ensures r.outcome == Updated ==>
      && id in db.emails && EmailTargetData(db.emails[id], f).Number?
      && r.tables == db.(emails := db.emails[id := EditedEmail(db.emails[id], f,
           EmailTargetData(db.emails[id], f), EmailCampaignDataAsWritten(db.emails[id], f))])
    ensures r.outcome in {NotFound, EditRefused, Invalid, Updated}
    ensures Integrity(db) ==> Integrity(r.tables)
    ensures SentFrozen(db, r.tables)
  {
    if id !in db.emails then EditStep(db, NotFound)
    else
      var e := db.emails[id];
      if e.status == StatusSent then EditStep(db, EditRefused)
      else if !EditFormValid(db, e, f, checks) then EditStep(db, Invalid)
      else
        var targetId := EmailTargetData(e, f);
        var campaignId := EmailCampaignDataAsWritten(e, f);
        Forms.OutreachEmailFormRule(f, db.targets.Keys, db.campaigns.Keys, targetId, campaignId, checks);
        EditCampaignExists(db.campaigns.Keys, e, f);
        EditStep(db.(emails := db.emails[id := EditedEmail(e, f, targetId, campaignId)]), Updated)
  }

  datatype SendStep = SendStep(tables: Tables, outcome: Outcome, request: Option<MailRequest>)

  /**
   * email_send: `request` is what the mail provider is asked to send (`None`
   * when it is not asked), `reply` its answer, `now` the time of sending.
   */
  function Send(db: Tables, id: Id, reply: SendResult, now: Timestamp): (r: SendStep)
    requires Integrity(db)
    ensures id !in db.emails ==> r == SendStep(db, NotFound, None)
    ensures id in db.emails && db.emails[id].status == StatusSent ==> r == SendStep(db, AlreadySent, None)
    ensures id in db.emails && db.emails[id].status != StatusSent ==>
      r.request == Some(MailRequest(db.emails[id].recipientEmail, db.emails[id].subject, db.emails[id].body))
    ensures r.request.Some? && reply.Err? ==> r.outcome == SendFailed(reply.msg) && r.tables == db
    ensures r.request.Some? && reply.Ok? ==>
      && r.outcome == SendSucceeded(reply.id)
      && id in db.emails && id in r.tables.emails
      && r.tables.emails[id] == db.emails[id].(status := StatusSent, sentAt := Some(now), gmailMessageId := Some(reply.id))
    // the owning target moves from identified to contacted, and only that way
    ensures r.outcome.SendSucceeded? ==>
      && id in db.emails
      && var t := db.emails[id].targetId;
      && t in db.targets && t in r.tables.targets
      && r.tables.targets[t] == db.targets[t].(status :=
           if db.targets[t].status == StatusIdentified then StatusContacted else db.targets[t].status)
    // nothing else changes
    ensures r.tables.platforms == db.platforms && r.tables.campaigns == db.campaigns
    ensures r.tables.emails.Keys == db.emails.Keys && r.tables.targets.Keys == db.targets.Keys
    ensures forall e | e in db.emails && e != id :: r.tables.emails[e] == db.emails[e]
    ensures forall t | t in db.targets && (id !in db.emails || t != db.emails[id].targetId) ::
      r.tables.targets[t] == db.targets[t]
    ensures Integrity(r.tables)
    ensures SentFrozen(db, r.tables)
  {
    if id !in db.emails then SendStep(db, NotFound, None)
    else
      var e := db.emails[id];
      if e.status == StatusSent then SendStep(db, AlreadySent, None)
      else
        var request := Some(MailRequest(e.recipientEmail, e.subject, e.body));
        match reply
        case Err(msg) => SendStep(db, SendFailed(msg), request)
        case Ok(messageId) =>
          var t := db.targets[e.targetId];
          var promoted := if t.status == StatusIdentified then t.(status := StatusContacted) else t;
          var sent := e.(status := StatusSent, sentAt := Some(now), gmailMessageId := Some(messageId));
          SendStep(db.(emails := db.emails[id := sent], targets := db.targets[e.targetId := promoted]),
                   SendSucceeded(messageId), request)
  }

  /** A target's status only ever moves from identified to contacted on a send. */
  lemma SendPromotesOneWay(db: Tables, id: Id, reply: SendResult, now: Timestamp, t: Id)
    requires Integrity(db) && t in db.targets
    ensures var after := Send(db, id, reply, now).tables;
      || after.targets[t].status == db.targets[t].status
      || (db.targets[t].status == StatusIdentified && after.targets[t].status == StatusContacted)
  {
  }

  /** Once a send succeeds, a second send asks the provider nothing and changes nothing. */
  lemma SendAtMostOnce(db: Tables, id: Id, reply: SendResult, now: Timestamp, reply2: SendResult, now2: Timestamp)
    requires Integrity(db)
    requires Send(db, id, reply, now).outcome.SendSucceeded?
    ensures var after := Send(db, id, reply, now).tables;
      Send(after, id, reply2, now2) == SendStep(after, AlreadySent, None)
  {
  }

  /** Once a send succeeds, the email can no longer be edited. */
  lemma SentEmailIsLocked(db: Tables, id: Id, reply: SendResult, now: Timestamp, f: Forms.OutreachEmailForm, checks: Forms.Checks)
    requires Integrity(db)
    requires Send(db, id, reply, now).outcome.SendSucceeded?
    ensures var after := Send(db, id, reply, now).tables;
      EditEmail(after, id, f, checks) == EditStep(after, EditRefused)
  {
  }

  /** After a provider error the email can be sent again, with the same message. */
  lemma FailedSendCanBeRetried(db: Tables, id: Id, msg: string, now: Timestamp, reply2: SendResult, now2: Timestamp)
    requires Integrity(db)
    requires Send(db, id, Err(msg), now).outcome == SendFailed(msg)
    ensures Send(Send(db, id, Err(msg), now).tables, id, reply2, now2).request == Send(db, id, Err(msg), now).request != None
  {
  }

  /** `if status_filter:` — a filter applies when one is given and it is not empty. */
  predicate Filters(statusFilter: Option<string>) {
    statusFilter.Some? && statusFilter.value != ""
  }

  // -----------------------------------------------------------------------
  // Handlers
  // -----------------------------------------------------------------------

  method PlatformCreate(db: Store, f: Forms.PlatformForm, checks: Forms.Checks) returns (r: Outcome)
    requires db.Valid()
    modifies db
    ensures db.Valid()
    ensures !Forms.PlatformFormValid(f, f.domainAuthority, checks) ==> r == Invalid && unchanged(db)
    ensures Forms.PlatformFormValid(f, f.domainAuthority, checks) ==>
      && r.Created? && r.id !in old(db.platforms)
      && db.Snapshot() == old(db.Snapshot()).(platforms := old(db.platforms)[r.id := PlatformFromForm(f, f.domainAuthority)])
  {
    if !Forms.PlatformFormValid(f, f.domainAuthority, checks) {
      return Invalid;
    }
    var id := db.AddPlatform(PlatformFromForm(f, f.domainAuthority));
    r := Created(id);
  }

  /**
   * platform_edit: the form starts from the stored platform and
   * `populate_obj` overwrites every column the form has.
   */
  method PlatformEdit(db: Store, id: Id, f: Forms.PlatformForm, checks: Forms.Checks) returns (r: Outcome)
    requires db.Valid()
    modifies db
    ensures db.Valid()
    ensures id !in old(db.platforms) ==> r == NotFound && unchanged(db)
    ensures id in old(db.platforms) && !Forms.PlatformFormValid(f, PlatformEditData(old(db.platforms[id]), f), checks) ==>
      r == Invalid && unchanged(db)
    ensures id in old(db.platforms) && Forms.PlatformFormValid(f, PlatformEditData(old(db.platforms[id]), f), checks) ==>
      && r == Updated
      && db.Snapshot() == old(db.Snapshot()).(platforms :=
           old(db.platforms)[id := PlatformFromForm(f, PlatformEditData(old(db.platforms[id]), f))])
    ensures db.nextPlatformId == old(db.nextPlatformId)
  {
    if id !in db.platforms {
      return NotFound;
    }
    var domainAuthority := PlatformEditData(db.platforms[id], f);
    if !Forms.PlatformFormValid(f, domainAuthority, checks) {
      return Invalid;
    }
    db.platforms := db.platforms[id := PlatformFromForm(f, domainAuthority)];
    r := Updated;
  }

  method PlatformDelete(db: Store, id: Id) returns (r: Outcome)
    requires db.Valid()
    modifies db
    ensures db.Valid()
    ensures id !in old(db.platforms) ==> r == NotFound && unchanged(db)
    ensures id in old(db.platforms) ==>
      r == Deleted && db.Snapshot() == CascadeDelete(old(db.Snapshot()), PlatformRow(id))
  {
    if id !in db.platforms {
      return NotFound;
    }
    db.Delete(PlatformRow(id));
    r := Deleted;
  }

  /** targets_list: with a non-empty status filter exactly the targets in that status, otherwise all. */
  method TargetsList(db: Store, statusFilter: Option<string>) returns (r: map<Id, Target>)
    ensures forall t :: t in r <==> t in db.targets && (!Filters(statusFilter) || db.targets[t].status == statusFilter.value)
    ensures forall t | t in r :: r[t] == db.targets[t]
  {
    if Filters(statusFilter) {
      r := map t | t in db.targets && db.targets[t].status == statusFilter.value :: db.targets[t];
    } else {
      r := db.targets;
    }
  }

  method TargetCreate(db: Store, f: Forms.TargetForm, checks: Forms.Checks) returns (r: Outcome)
    requires db.Valid()
    modifies db
    ensures db.Valid()
    ensures !Forms.TargetFormValid(f, old(db.platforms.Keys), f.platformId, checks) ==> r == Invalid && unchanged(db)
    ensures Forms.TargetFormValid(f, old(db.platforms.Keys), f.platformId, checks) ==>
      && r.Created? && r.id !in old(db.targets) && f.platformId.Number?
      && db.Snapshot() == old(db.Snapshot()).(targets := old(db.targets)[r.id := TargetFromForm(f, f.platformId)])
  {
    if !Forms.TargetFormValid(f, db.platforms.Keys, f.platformId, checks) {
      return Invalid;
    }
    Forms.TargetFormRule(f, db.platforms.Keys, f.platformId, checks);
    var id := db.AddTarget(TargetFromForm(f, f.platformId));
    r := Created(id);
  }

  /**
   * target_edit: the form starts from the stored target and the whole record
   * is overwritten from it, its platform included.
   */
  method TargetEdit(db: Store, id: Id, f: Forms.TargetForm, checks: Forms.Checks) returns (r: Outcome)
    requires db.Valid()
    modifies db
    ensures db.Valid()
    ensures id !in old(db.targets) ==> r == NotFound && unchanged(db)
    ensures id in old(db.targets) && !Forms.TargetFormValid(f, old(db.platforms.Keys), TargetEditData(old(db.targets[id]), f), checks) ==>
      r == Invalid && unchanged(db)
    ensures id in old(db.targets) && Forms.TargetFormValid(f, old(db.platforms.Keys), TargetEditData(old(db.targets[id]), f), checks) ==>
      && r == Updated && TargetEditData(old(db.targets[id]), f).Number?
      && db.Snapshot() == old(db.Snapshot()).(targets :=
           old(db.targets)[id := TargetFromForm(f, TargetEditData(old(db.targets[id]), f))])
    ensures db.nextTargetId == old(db.nextTargetId)
  {
    if id !in db.targets {
      return NotFound;
    }
    var platformId := TargetEditData(db.targets[id], f);
    if !Forms.TargetFormValid(f, db.platforms.Keys, platformId, checks) {
      return Invalid;
    }
    Forms.TargetFormRule(f, db.platforms.Keys, platformId, checks);
    db.targets := db.targets[id := TargetFromForm(f, platformId)];
    r := Updated;
  }

  method TargetDelete(db: Store, id: Id) returns (r: Outcome)
    requires db.Valid()
    modifies db
    ensures db.Valid()
    ensures id !in old(db.targets) ==> r == NotFound && unchanged(db)
    ensures id in old(db.targets) ==>
      r == Deleted && db.Snapshot() == CascadeDelete(old(db.Snapshot()), TargetRow(id))
  {
    if id !in db.targets {
      return NotFound;
    }
    db.Delete(TargetRow(id));
    r := Deleted;
  }

  method CampaignCreate(db: Store, f: Forms.CampaignForm, checks: Forms.Checks) returns (r: Outcome)
    requires db.Valid()
    modifies db
    ensures db.Valid()
    ensures !Forms.CampaignFormValid(f, checks) ==> r == Invalid && unchanged(db)
    ensures Forms.CampaignFormValid(f, checks) ==>
      && r.Created? && r.id !in old(db.campaigns)
      && db.Snapshot() == old(db.Snapshot()).(campaigns := old(db.campaigns)[r.id := CampaignFromForm(f)])
  {
    if !Forms.CampaignFormValid(f, checks) {
      return Invalid;
    }
    var id := db.AddCampaign(CampaignFromForm(f));
    r := Created(id);
  }

  method CampaignEdit(db: Store, id: Id, f: Forms.CampaignForm, checks: Forms.Checks) returns (r: Outcome)
    requires db.Valid()
    modifies db
    ensures db.Valid()
    ensures id !in old(db.campaigns) ==> r == NotFound && unchanged(db)
    ensures id in old(db.campaigns) && !Forms.CampaignFormValid(f, checks) ==> r == Invalid && unchanged(db)
    ensures id in old(db.campaigns) && Forms.CampaignFormValid(f, checks) ==>
      && r == Updated
      && db.Snapshot() == old(db.Snapshot()).(campaigns := old(db.campaigns)[id := CampaignFromForm(f)])
    ensures db.nextCampaignId == old(db.nextCampaignId)
  {
    if id !in db.campaigns {
      return NotFound;
    }
    if !Forms.CampaignFormValid(f, checks) {
      return Invalid;
    }
    db.campaigns := db.campaigns[id := CampaignFromForm(f)];
    r := Updated;
  }

  /** campaign_delete: the campaign's emails are deleted with it. */
  method CampaignDelete(db: Store, id: Id) returns (r: Outcome)
    requires db.Valid()
    modifies db
    ensures db.Valid()
    ensures id !in old(db.campaigns) ==> r == NotFound && unchanged(db)
    ensures id in old(db.campaigns) ==>
      r == Deleted && db.Snapshot() == CascadeDelete(old(db.Snapshot()), CampaignRow(id))
  {
    if id !in db.campaigns {
      return NotFound;
    }
    db.Delete(CampaignRow(id));
    r := Deleted;
  }

  /** emails_list: with a non-empty status filter exactly the emails in that status, otherwise all. */
  method EmailsList(db: Store, statusFilter: Option<string>) returns (r: map<Id, OutreachEmail>)
    ensures forall e :: e in r <==> e in db.emails && (!Filters(statusFilter) || db.emails[e].status == statusFilter.value)
    ensures forall e | e in r :: r[e] == db.emails[e]
  {
    if Filters(statusFilter) {
      r := map e | e in db.emails && db.emails[e].status == statusFilter.value :: db.emails[e];
    } else {
      r := db.emails;
    }
  }

  /** email_create: a draft with the column defaults; campaign 0 is stored as no campaign. */
  method EmailCreate(db: Store, f: Forms.OutreachEmailForm, checks: Forms.Checks) returns (r: Outcome)
    requires db.Valid()
    modifies db
    ensures db.Valid()
    ensures !Forms.OutreachEmailFormValid(f, old(db.targets.Keys), old(db.campaigns.Keys), f.targetId, f.campaignId, checks) ==>
      r == Invalid && unchanged(db)
    ensures Forms.OutreachEmailFormValid(f, old(db.targets.Keys), old(db.campaigns.Keys), f.targetId, f.campaignId, checks) ==>
      && r.Created? && r.id !in old(db.emails) && f.targetId.Number?
      && db.Snapshot() == old(db.Snapshot()).(emails := old(db.emails)[r.id :=
           NewOutreachEmail(f.targetId.n, CampaignRef(f.campaignId), f.recipientEmail, f.subject, f.body)])
  {
    if !Forms.OutreachEmailFormValid(f, db.targets.Keys, db.campaigns.Keys, f.targetId, f.campaignId, checks) {
      return Invalid;
    }
    Forms.OutreachEmailFormRule(f, db.targets.Keys, db.campaigns.Keys, f.targetId, f.campaignId, checks);
    CampaignRefExists(f.campaignId, db.campaigns.Keys);
    var email := NewOutreachEmail(f.targetId.n, CampaignRef(f.campaignId), f.recipientEmail, f.subject, f.body);
    var id := db.AddEmail(email);
    r := Created(id);
  }

  /** email_edit as written, proved against `EditEmail`. */
  method EmailEdit(db: Store, id: Id, f: Forms.OutreachEmailForm, checks: Forms.Checks) returns (r: Outcome)
    requires db.Valid()
    modifies db
    ensures db.Valid()
    ensures EditStep(db.Snapshot(), r) == EditEmail(old(db.Snapshot()), id, f, checks)
    ensures db.nextEmailId == old(db.nextEmailId)
  {
    if id !in db.emails {
      return NotFound;
    }
    var email := db.emails[id];
    if email.status == StatusSent {
      return EditRefused;
    }
    var targetId := EmailTargetData(email, f);
    var campaignId := EmailCampaignDataAsWritten(email, f);
    if !Forms.OutreachEmailFormValid(f, db.targets.Keys, db.campaigns.Keys, targetId, campaignId, checks) {
      return Invalid;
    }
    Forms.OutreachEmailFormRule(f, db.targets.Keys, db.campaigns.Keys, targetId, campaignId, checks);
    EditCampaignExists(db.campaigns.Keys, email, f);
    email := email.(targetId := targetId.n);
    email := email.(campaignId := CampaignRef(campaignId));
    email := email.(recipientEmail := f.recipientEmail);
    email := email.(subject := f.subject);
    email := email.(body := f.body);
    db.emails := db.emails[id := email];
    r := Updated;
  }

  /** email_send, proved against `Send`. */
  method EmailSend(db: Store, id: Id, reply: SendResult, now: Timestamp) returns (r: Outcome, request: Option<MailRequest>)
    requires db.Valid()
    modifies db
    ensures db.Valid()
    ensures SendStep(db.Snapshot(), r, request) == Send(old(db.Snapshot()), id, reply, now)
    ensures db.nextTargetId == old(db.nextTargetId) && db.nextEmailId == old(db.nextEmailId)
  {
    if id !in db.emails {
      return NotFound, None;
    }
    var email := db.emails[id];
    if email.status == StatusSent {
      return AlreadySent, None;
    }
    request := Some(MailRequest(email.recipientEmail, email.subject, email.body));
    match reply
    case Err(msg) =>
      r := SendFailed(msg);
    case Ok(messageId) =>
      email := email.(status := StatusSent);
      email := email.(sentAt := Some(now));
      email := email.(gmailMessageId := Some(messageId));
      db.emails := db.emails[id := email];
      var target := db.targets[email.targetId];
      if target.status == StatusIdentified {
        db.targets := db.targets[email.targetId := target.(status := StatusContacted)];
      }
      r := SendSucceeded(messageId);
  }

  method EmailDelete(db: Store, id: Id) returns (r: Outcome)
    requires db.Valid()
    modifies db
    ensures db.Valid()
    ensures id !in old(db.emails) ==> r == NotFound && unchanged(db)
    ensures id in old(db.emails) ==>
      r == Deleted && db.Snapshot() == CascadeDelete(old(db.Snapshot()), EmailRow(id))
  {
    if id !in db.emails {
      return NotFound;
    }
    db.Delete(EmailRow(id));
    r := Deleted;
  }
}
