# Backlink outreach: a verified model of the store and its handlers

The application tracks link-building outreach. It keeps **platforms**
(sites that might link to us), **targets** (a page on a platform where a
link is sought, with a status and a priority), **campaigns** and
**outreach emails** (drafts written to a target, optionally in a campaign,
that can be sent once through the mail provider). This project models:

- `Models` (`models.dfy`): the four record types, the outreach email's
  column defaults, the foreign keys as an integrity predicate on the four tables,
  and the cascade deletes (platform → its targets → their emails; campaign
  → its emails) defined as the least cascade-closed set of rows containing
  the deleted row. A `Store` class holds the tables and hands out ids.
- `Forms` (`forms.dfy`): the WTForms validator chains of the five forms,
  interpreted as WTForms runs them (`DataRequired`, `FileRequired` and
  `FileAllowed` stop the chain; `Optional` stops it and clears errors on
  blank input; a failed integer coercion or a value outside a select
  field's choices is an error), with one lemma per form stating plainly
  what it accepts.
- `Routes` (`routes.dfy`): the create, edit and delete handlers, the two
  status filters, and the outreach-email lifecycle: edit is refused for a
  sent email, a send asks the provider once per send attempt and never
  after a successful send, success marks the email sent and moves its
  target from identified to contacted, and a provider error changes
  nothing.
- `Config` (`config.dfy`): the settings read from the environment, the
  `postgres://` → `postgresql://` rewrite, and the configuration table
  with its `DEBUG` values.
- `Strings` (`strings.dfy`): Python's `str.strip()` blankness,
  ASCII `lower()`, `startswith`/`endswith` and `replace(old, new, 1)`.

Select fields get their choices from the store (platform ids, target ids,
and 0 plus the campaign ids), so a form that validates can only refer to
rows that exist; the handlers' `db.Valid()` postconditions rest on this.
Each bound field keeps what was submitted apart from the data it holds:
the edit forms start from the stored record, so an integer or select
field left out of the submission keeps the stored value (`Forms.Bound`).
The submission to an integer or int-coerced select field has the type
`Forms.NumberInput`: nothing, a number, or raw text that is not a number,
which is what the form library can make of it.
The calls into the mail provider and the clock are parameters: the
provider's answer is `SendResult` and the time of sending is `now`.

## Model

| member | source | states |
|---|---|---|
| Strings.ReplaceFirstAtLeftmost | config.py:14 | `replace(old, new, 1)` replaces exactly the leftmost occurrence and keeps everything around it |
| Strings.ReplaceFirstAbsent | config.py:14 | with no occurrence, `replace(old, new, 1)` returns the string unchanged |
| Config.NormalizeDatabaseUri | config.py:12-14 | a URI beginning with `postgres://` gets `postgresql://` followed by the rest of the URI; any other URI is returned unchanged |
| Config.NormalizeIsIdempotent | config.py:12-14 | the rewritten URI never begins with `postgres://`, so rewriting twice equals rewriting once |
| Config.LaterOccurrencesSurvive | config.py:14 | only the first occurrence is replaced: a later `postgres://` survives, shifted by two characters |
| Config.LoadSettings | config.py:4-14 | the secret key and the three mail settings are the environment variable's value when it is set and the default otherwise; modification tracking is off; a `DATABASE_URL` without the `postgres://` scheme is kept as it is, and the database URI never has that scheme |
| Config.HerokuDatabaseUrlIsRewritten | config.py:6-14 | a `DATABASE_URL` of `postgres://rest` yields the database URI `postgresql://rest` |
| Config.DefaultDatabaseUriKept | config.py:6 | without `DATABASE_URL` the URI is the local default, untouched by the rewrite |
| Config.LookupConfig | config.py:25-29 | exactly `development`, `production` and `default` name a configuration, and only `production` names the production one |
| Config.ConfigTable | config.py:17-29 | `default` is the development configuration with `DEBUG` on; production has it off |
| Forms.OmittedFieldKeepsStoredValue | app/routes.py:150-152 | an integer or select field left out of an edit submission holds the stored value |
| Forms.ChoicesAreNotBlank | app/forms.py:25-50 | no status or priority choice is blank, so `DataRequired` never rejects a listed choice |
| Forms.ChoiceFieldRule | app/forms.py:25-50 | a required string select field is valid exactly when its value is one of the choices |
| Forms.IdFieldRule | app/forms.py:20 | a required id select field is valid exactly when the submission coerces and the field holds a non-zero integer among the offered ids |
| Forms.PlatformFormRule | app/forms.py:8-15 | the platform form is valid exactly when name and URL are non-blank, the URL passes `URL()`, domain authority is left blank or is an integer in 0..100, and the contact email is blank or passes `Email()` |
| Forms.TargetFormRule | app/forms.py:19-38 | the target form is valid exactly when its platform submission coerces and the field holds an existing platform, the target URL is non-blank and passes `URL()`, and status and priority are listed choices |
| Forms.CampaignFormRule | app/forms.py:42-50 | the campaign form is valid exactly when the name is non-blank and the status is a listed choice |
| Forms.OutreachEmailFormRule | app/forms.py:54-60 | the email form is valid exactly when the target submission coerces and holds an existing target, the campaign is left blank or holds 0 or an existing campaign, and recipient, subject and body are non-blank with the recipient passing `Email()` |
| Forms.UploadFormRule | app/forms.py:69-73 | the upload form is valid exactly when a file with a non-empty name is given whose lower-cased name ends in `.csv`, `.xlsx` or `.xls` |
| Models.NewOutreachEmail | app/models.py:77-79 | a new email is a draft with no send time and no provider message id, holding the given target, campaign, recipient, subject and body |
| Models.ClosureIsClosed | app/models.py:19-20 | the rows a delete removes include the deleted row and are closed under both cascades |
| Models.ClosureIsLeast | app/models.py:43-44 | the rows a delete removes are contained in every cascade-closed set holding the deleted row, so nothing beyond the cascade is removed |
| Models.RemovingClosedKeepsIntegrity | app/models.py:30 | removing a cascade-closed set of rows leaves no dangling foreign key |
| Models.DeleteKeepsIntegrity | app/models.py:72-73 | every cascade delete preserves the foreign keys of targets and emails |
| Models.DeletePlatformEffect | app/models.py:19-20 | deleting a platform removes exactly its targets and exactly the emails of those targets; campaigns, other platforms and all remaining records are unchanged |
| Models.DeleteTargetEffect | app/models.py:43-44 | deleting a target removes exactly that target and its emails; nothing else changes |
| Models.DeleteCampaignEffect | app/models.py:61-62 | deleting a campaign removes exactly its emails (they are deleted, not detached); nothing else changes |
| Models.DeleteEmailEffect | app/models.py:68-79 | deleting an email removes that email and nothing else |
| Models.Store.constructor | app/models.py:5-79 | a new store is empty and valid |
| Models.Store.AddPlatform | app/routes.py:82-83 | adds the platform under an unused positive id; the other tables are unchanged |
| Models.Store.AddTarget | app/routes.py:142-143 | adds a target whose platform exists under an unused positive id; the other tables are unchanged |
| Models.Store.AddCampaign | app/routes.py:192-193 | adds the campaign under an unused positive id; the other tables are unchanged |
| Models.Store.AddEmail | app/routes.py:261-262 | adds an email whose target and campaign exist under an unused positive id; the other tables are unchanged |
| Models.Store.Delete | app/routes.py:104-105 | the new tables are the cascade delete of the old ones and the store stays valid |
| Routes.CampaignRef | app/routes.py:256 | the campaign select stores no campaign exactly when its data is not a number or is 0, and otherwise that id |
| Routes.CampaignSelectionRoundTrip | app/routes.py:288 | showing a stored campaign reference in the form (0 for none) and saving it back gives the same reference |
| Routes.CampaignRefExists | app/routes.py:256 | a campaign selection accepted on the create form stores either no campaign (selection 0 or blank) or an existing one |
| Routes.IntendedEditStoresSelection | app/routes.py:286-288 | with the intended campaign select, a submitted selection is what is validated and stored, and with nothing submitted the stored campaign is kept |
| Routes.AsWrittenEditDropsCampaign | app/routes.py:283-284 | as written, for an email without a campaign any selected campaign, existing or not, validates and is stored as none; the intended select stores it and accepts it only when it exists |
| Routes.PlatformEditKeepsOmittedDomainAuthority | app/routes.py:92-94 | a platform edit that leaves out domain authority is accepted on that field and keeps the stored value |
| Routes.TargetEditKeepsOmittedPlatform | app/routes.py:152-157 | a target edit that leaves out the platform accepts and keeps the stored platform |
| Routes.EditedEmail | app/routes.py:287-291 | an edit overwrites target and campaign from the selects' data and recipient, subject and body from the form, and keeps status, send time and provider id |
| Routes.EditCampaignExists | app/routes.py:283-288 | an accepted edit stores no campaign, an existing campaign, or the campaign the email already had |
| Routes.EditEmail | app/routes.py:268-296 | as written: a missing email is not found, a sent email is refused, an invalid form changes nothing, otherwise only that email is overwritten from the selects' data (omitted selects keep the stored target and campaign; a campaign-less email keeps none); foreign keys are preserved and no sent email changes |
| Routes.Send | app/routes.py:298-329 | a missing or already sent email asks the provider nothing and changes nothing; otherwise the provider is asked for recipient, subject and body; on error nothing changes; on success the email is sent with the time and message id, its target goes from identified to contacted, and nothing else changes |
| Routes.SendPromotesOneWay | app/routes.py:323-324 | a send leaves every target status unchanged except identified becoming contacted |
| Routes.SendAtMostOnce | app/routes.py:301-303 | after a successful send, sending again asks the provider nothing and changes nothing |
| Routes.SentEmailIsLocked | app/routes.py:271-273 | after a successful send, editing the email is refused and changes nothing |
| Routes.FailedSendCanBeRetried | app/routes.py:316-317 | after a provider error, a new send asks the provider for the same message again |
| Routes.PlatformCreate | app/routes.py:70-86 | an invalid form changes nothing; a valid one adds a platform built from the form under a fresh id |
| Routes.PlatformEdit | app/routes.py:89-98 | a missing platform is not found; an invalid form changes nothing; a valid one overwrites that platform from the form, an omitted domain authority keeping the stored value |
| Routes.PlatformDelete | app/routes.py:101-107 | a missing platform is not found; otherwise the tables become the platform's cascade delete |
| Routes.TargetsList | app/routes.py:114-122 | with a non-empty status filter exactly the targets in that status, otherwise every target |
| Routes.TargetCreate | app/routes.py:125-147 | an invalid form changes nothing; a valid one adds a target on an existing platform under a fresh id |
| Routes.TargetEdit | app/routes.py:149-161 | a missing target is not found; an invalid form changes nothing; a valid one overwrites that target, its platform included, an omitted platform keeping the stored one |
| Routes.TargetDelete | app/routes.py:164-170 | a missing target is not found; otherwise the tables become the target's cascade delete |
| Routes.CampaignCreate | app/routes.py:183-196 | an invalid form changes nothing; a valid one adds a campaign built from the form under a fresh id |
| Routes.CampaignEdit | app/routes.py:199-208 | a missing campaign is not found; an invalid form changes nothing; a valid one overwrites that campaign |
| Routes.CampaignDelete | app/routes.py:211-217 | a missing campaign is not found; otherwise the campaign and its emails are removed |
| Routes.EmailsList | app/routes.py:224-232 | with a non-empty status filter exactly the emails in that status, otherwise every email |
| Routes.EmailCreate | app/routes.py:235-265 | an invalid form changes nothing; a valid one adds a draft for an existing target, campaign 0 or blank stored as none |
| Routes.EmailEdit | app/routes.py:268-296 | the handler's new tables and outcome are those of `Routes.EditEmail` |
| Routes.EmailSend | app/routes.py:298-329 | the handler's new tables, outcome and provider request are those of `Routes.Send` |
| Routes.EmailDelete | app/routes.py:332-338 | a missing email is not found; otherwise that email alone is removed |

`Config.EnvGet`, `Routes.PlatformFromForm`, `Routes.TargetFromForm`,
`Routes.CampaignFromForm`, `Routes.Filters`, `Forms.Bound` and
`Routes.EmailCampaignDataAsWritten` are plain definitions; what they mean
is stated by the rows that cite the same lines: `Config.LoadSettings`
(config.py:4-14), `Routes.PlatformCreate` (app/routes.py:70-86),
`Routes.TargetCreate` (app/routes.py:125-147), `Routes.CampaignCreate`
(app/routes.py:183-196), `Routes.TargetsList` and `Routes.EmailsList`
(app/routes.py:114-122 and 224-232), `Forms.OmittedFieldKeepsStoredValue`,
`Routes.PlatformEditKeepsOmittedDomainAuthority` and
`Routes.TargetEditKeepsOmittedPlatform` (the `obj=` binding), and
`Routes.AsWrittenEditDropsCampaign` and `Routes.EditEmail`
(app/routes.py:280-284).

## Left out

- Sending mail (`app/services/gmail_service.py`): OAuth, the token file and MIME assembly are outside the model; the provider is the `SendResult` parameter. An authentication failure raised outside the provider's `try` aborts the request; for the store this is the same as a provider error (nothing changes), and it is modelled that way.
- Time: `datetime.now` is the `now` parameter of `Routes.Send`; `created_at` and `updated_at` are not modelled, and neither is the ordering of the lists (by creation time or by name), because the model's tables are maps.
- `platforms_list`, `campaigns_list` and the dashboard only read and order rows; they are not modelled.
- The spreadsheet import and the delete-all handlers are not part of this model.
- `Email()` and `URL()` are WTForms regular-expression validators; they are the opaque `isEmail` and `isUrl` fields of `Forms.Checks`.
- CSRF protection, `validate_on_submit`'s request-method test and the GET rendering of forms are not modelled: every handler is given a submitted form.
- The GET pre-fill of the recipient in `email_create` only changes what the form shows; it is not modelled.
- `SendEmailForm` is declared but no handler uses it; it is not modelled.
- Column lengths (`String(200)` and so on) are enforced by the database engine, not by the code; they are not modelled.
- Database sessions, transactions, concurrent requests and migrations are not modelled; each handler is one atomic step on the store.
- `app/__init__.py` (application factory, blueprint registration) is not part of this model.
- `Strings.Lower` lower-cases ASCII letters only; Python's `lower()` also maps other Unicode letters. It is used only on upload file names.
- `Config.LoadSettings`: the value of `DEBUG` is in `Config.ConfigTable`; how Flask chooses a configuration name is not modelled.
- The target and campaign column defaults (app/models.py lines 35-37 and 56) are not modelled: the handler that creates a target sets its status and priority from the form, and the one that creates a campaign sets its status from the form; those select fields require a value.
- PlatformCreate, TargetCreate, CampaignCreate, EmailCreate: text fields are strings in the model and so are always submitted; in the source an optional text field missing from a hand-made request stores `None`, where the model stores a string.
- PlatformEdit: text fields are strings in the model and so are always submitted; in the source a text field missing from a hand-made request keeps its stored value on the edit form. The domain-authority field is modelled with that rule.
- TargetEdit: text fields and the status and priority selects are strings in the model and so are always submitted; in the source such a field missing from a hand-made request keeps its stored value. The platform select is modelled with that rule.
- CampaignEdit: name, description and status are strings in the model and so are always submitted; in the source such a field missing from a hand-made request keeps its stored value.
- EditEmail: recipient, subject and body are strings in the model and so are always submitted; in the source such a field missing from a hand-made request keeps its stored value. The target and campaign selects are modelled with that rule. The same holds for EmailEdit, which is proved equal to it.

## Findings

| source | as written | input that shows it | evidently intended | confidence | as-written member | corrected member |
|---|---|---|---|---|---|---|
| app/routes.py:283-284 | the selection is reset to 0 whenever the email has no campaign, on POST as well as on GET | edit a draft without a campaign and select campaign 5: the form validates 0 and the draft still has no campaign; selecting a campaign id that does not exist is accepted the same way | reset only the initial display of the form; validate and store the campaign the user selects | medium; not executed | Routes.AsWrittenEditDropsCampaign | Routes.EmailCampaignDataIntended |

The handler model (`Routes.EditEmail`, `Routes.EmailEdit`) follows the code
as written; `Routes.IntendedEditStoresSelection` proves what the corrected
campaign select does.
