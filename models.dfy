/**
 * app/models.py: the four record types, the outreach email's column
 * defaults, the foreign keys, and the `cascade='all, delete-orphan'` relationships. The database
 * is a `Store` object holding one map per table; deleting a row removes the
 * rows its relationships cascade to.
 */
module Models {
  import opened Wrappers

  /** A primary key; the store hands out 1, 2, 3, ... per table. */
  type Id = int

  /** A point in time, supplied by the caller (the wall clock is not modelled). */
  type Timestamp = int

  // Status values the handlers and the column defaults use.
  const StatusIdentified := "identified"
  const StatusContacted := "contacted"
  const StatusDraft := "draft"
  const StatusSent := "sent"

  /** The column default of `OutreachEmail.status` (app/models.py line 77). */
  const DefaultEmailStatus := StatusDraft

  datatype Platform = Platform(
    name: string,
    url: string,
    domainAuthority: Option<int>,
    contactEmail: string,
    contactName: string,
    notes: string)

  datatype Target = Target(
    platformId: Id,          // non-null foreign key to platforms
    targetUrl: string,
    targetPageTitle: string,
    ourUrl: string,
    anchorText: string,
    status: string,
    priority: string,
    notes: string)

  datatype Campaign = Campaign(name: string, description: string, status: string)

  datatype OutreachEmail = OutreachEmail(
    targetId: Id,            // non-null foreign key to targets
    campaignId: Option<Id>,  // nullable foreign key to campaigns
    recipientEmail: string,
    subject: string,
    body: string,
    status: string,
    sentAt: Option<Timestamp>,
    gmailMessageId: Option<string>)

  /**
   * `OutreachEmail(target_id=…, campaign_id=…, recipient_email=…, subject=…, body=…)`:
   * the columns the caller leaves out take their defaults.
   */
  function NewOutreachEmail(targetId: Id, campaignId: Option<Id>, recipient: string, subject: string, body: string): (e: OutreachEmail)
    ensures e.status == DefaultEmailStatus && e.sentAt == None && e.gmailMessageId == None
    ensures e.targetId == targetId && e.campaignId == campaignId
    ensures e.recipientEmail == recipient && e.subject == subject && e.body == body
  {
    OutreachEmail(targetId, campaignId, recipient, subject, body, DefaultEmailStatus, None, None)
  }

  /** The contents of the four tables. */
  datatype Tables = Tables(
    platforms: map<Id, Platform>,
    targets: map<Id, Target>,
    campaigns: map<Id, Campaign>,
    emails: map<Id, OutreachEmail>)

  /** Every foreign key points at an existing row. */
  predicate Integrity(db: Tables) {
    && (forall t | t in db.targets :: db.targets[t].platformId in db.platforms)
    && (forall e | e in db.emails :: db.emails[e].targetId in db.targets)
    && (forall e | e in db.emails && db.emails[e].campaignId.Some? :: db.emails[e].campaignId.value in db.campaigns)
  }

  /** A row of one of the four tables. */
  datatype Row = PlatformRow(id: Id) | TargetRow(id: Id) | CampaignRow(id: Id) | EmailRow(id: Id)

  /**
   * The cascade rule of the three relationships: a set of rows to delete is
   * closed when it also holds every target of a platform in it and every
   * email of a target or a campaign in it.
   */
  predicate CascadeClosed(db: Tables, doomed: set<Row>) {
    && (forall t | t in db.targets && PlatformRow(db.targets[t].platformId) in doomed :: TargetRow(t) in doomed)
    && (forall e | e in db.emails && TargetRow(db.emails[e].targetId) in doomed :: EmailRow(e) in doomed)
    && (forall e | e in db.emails && db.emails[e].campaignId.Some? && CampaignRow(db.emails[e].campaignId.value) in doomed ::
          EmailRow(e) in doomed)
  }

  function TargetsOf(db: Tables, p: Id): set<Id> {
    set t | t in db.targets && db.targets[t].platformId == p
  }

  function EmailsOfTargets(db: Tables, ts: set<Id>): set<Id> {
    set e | e in db.emails && db.emails[e].targetId in ts
  }

  function EmailsOfCampaign(db: Tables, c: Id): set<Id> {
    set e | e in db.emails && db.emails[e].campaignId == Some(c)
  }

  function TargetRows(ts: set<Id>): set<Row> {
    set t | t in ts :: TargetRow(t)
  }

  function EmailRows(es: set<Id>): set<Row> {
    set e | e in es :: EmailRow(e)
  }

  /**
   * The rows deleting `root` removes: a platform with its targets and their
   * emails, a target with its emails, a campaign with its emails, an email alone.
   */
  function Closure(db: Tables, root: Row): set<Row> {
    match root
    case PlatformRow(p) =>
      var ts := TargetsOf(db, p);
      {root} + TargetRows(ts) + EmailRows(EmailsOfTargets(db, ts))
    case TargetRow(t) => {root} + EmailRows(EmailsOfTargets(db, {t}))
    case CampaignRow(c) => {root} + EmailRows(EmailsOfCampaign(db, c))
    case EmailRow(_) => {root}
  }

  /** The tables without the rows in `doomed`. */
  function RemoveRows(db: Tables, doomed: set<Row>): Tables {
    Tables(
      map p | p in db.platforms && PlatformRow(p) !in doomed :: db.platforms[p],
      map t | t in db.targets && TargetRow(t) !in doomed :: db.targets[t],
      map c | c in db.campaigns && CampaignRow(c) !in doomed :: db.campaigns[c],
      map e | e in db.emails && EmailRow(e) !in doomed :: db.emails[e])
  }

  /** `session.delete(row)` followed by a commit. */
  function CascadeDelete(db: Tables, root: Row): Tables {
    RemoveRows(db, Closure(db, root))
  }

  /** The closure holds its root and obeys the cascade rule. */
  lemma ClosureIsClosed(db: Tables, root: Row)
    ensures root in Closure(db, root)
    ensures CascadeClosed(db, Closure(db, root))
  {
    var s := Closure(db, root);
    match root
    case PlatformRow(p) =>
      var ts := TargetsOf(db, p);
      forall t | t in db.targets && PlatformRow(db.targets[t].platformId) in s
        ensures TargetRow(t) in s
      {
        assert t in ts;
      }
      forall e | e in db.emails && TargetRow(db.emails[e].targetId) in s
        ensures EmailRow(e) in s
      {
        assert db.emails[e].targetId in ts;
        assert e in EmailsOfTargets(db, ts);
      }
    case TargetRow(t) =>
      forall e | e in db.emails && TargetRow(db.emails[e].targetId) in s
        ensures EmailRow(e) in s
      {
        assert e in EmailsOfTargets(db, {t});
      }
    case CampaignRow(c) =>
      forall e | e in db.emails && db.emails[e].campaignId.Some? && CampaignRow(db.emails[e].campaignId.value) in s
        ensures EmailRow(e) in s
      {
        assert e in EmailsOfCampaign(db, c);
      }
    case EmailRow(_) =>
  }

  /** No smaller set will do: every closed set that holds the root holds the whole closure. */
  lemma ClosureIsLeast(db: Tables, root: Row, doomed: set<Row>)
    requires root in doomed && CascadeClosed(db, doomed)
    ensures Closure(db, root) <= doomed
  {
    match root
    case PlatformRow(p) =>
      var ts := TargetsOf(db, p);
      forall r | r in TargetRows(ts) ensures r in doomed {
        assert db.targets[r.id].platformId == p;
      }
      forall r | r in EmailRows(EmailsOfTargets(db, ts)) ensures r in doomed {
        var t := db.emails[r.id].targetId;
        assert t in ts && TargetRow(t) in doomed;
      }
    case TargetRow(t) =>
    case CampaignRow(c) =>
    case EmailRow(_) =>
  }

  /** Taking away a cascade-closed set of rows leaves no dangling foreign key. */
  lemma RemovingClosedKeepsIntegrity(db: Tables, doomed: set<Row>)
    requires Integrity(db) && CascadeClosed(db, doomed)
    ensures Integrity(RemoveRows(db, doomed))
  {
  }

  /** Every delete keeps referential integrity. */
  lemma DeleteKeepsIntegrity(db: Tables, root: Row)
    requires Integrity(db)
    ensures Integrity(CascadeDelete(db, root))
  {
    ClosureIsClosed(db, root);
    RemovingClosedKeepsIntegrity(db, Closure(db, root));
  }

  /**
   * Deleting a platform removes it, exactly its targets and exactly the emails
   * of those targets; campaigns and every remaining record are untouched.
   */
  lemma DeletePlatformEffect(db: Tables, p: Id)
    requires Integrity(db)
    ensures var r := CascadeDelete(db, PlatformRow(p));
      && r.platforms.Keys == db.platforms.Keys - {p}
      && (forall t :: t in r.targets <==> t in db.targets && db.targets[t].platformId != p)
      && (forall e :: e in r.emails <==> e in db.emails && db.targets[db.emails[e].targetId].platformId != p)
      && r.campaigns == db.campaigns
      && (forall q | q in r.platforms :: r.platforms[q] == db.platforms[q])
      && (forall t | t in r.targets :: r.targets[t] == db.targets[t])
      && (forall e | e in r.emails :: r.emails[e] == db.emails[e])
  {
    var r := CascadeDelete(db, PlatformRow(p));
    var ts := TargetsOf(db, p);
    forall t ensures t in r.targets <==> t in db.targets && db.targets[t].platformId != p {
      if t in db.targets && db.targets[t].platformId == p {
        assert TargetRow(t) in TargetRows(ts);
      }
    }
    forall e ensures e in r.emails <==> e in db.emails && db.targets[db.emails[e].targetId].platformId != p {
      if e in db.emails && db.targets[db.emails[e].targetId].platformId == p {
        assert e in EmailsOfTargets(db, ts);
        assert EmailRow(e) in EmailRows(EmailsOfTargets(db, ts));
      }
    }
    assert r.platforms.Keys == db.platforms.Keys - {p};
  }

  /** Deleting a target removes it and exactly its emails; nothing else changes. */
  lemma DeleteTargetEffect(db: Tables, t: Id)
    ensures var r := CascadeDelete(db, TargetRow(t));
      && r.targets.Keys == db.targets.Keys - {t}
      && (forall e :: e in r.emails <==> e in db.emails && db.emails[e].targetId != t)
      && r.platforms == db.platforms && r.campaigns == db.campaigns
      && (forall u | u in r.targets :: r.targets[u] == db.targets[u])
      && (forall e | e in r.emails :: r.emails[e] == db.emails[e])
  {
    var r := CascadeDelete(db, TargetRow(t));
    forall e ensures e in r.emails <==> e in db.emails && db.emails[e].targetId != t {
      if e in db.emails && db.emails[e].targetId == t {
        assert EmailRow(e) in EmailRows(EmailsOfTargets(db, {t}));
      }
    }
    assert r.targets.Keys == db.targets.Keys - {t};
  }

  /**
   * Deleting a campaign removes it and its emails; the emails are deleted,
   * not detached: every email that remains has the record it had before.
   */
  lemma DeleteCampaignEffect(db: Tables, c: Id)
    ensures var r := CascadeDelete(db, CampaignRow(c));
      && r.campaigns.Keys == db.campaigns.Keys - {c}
      && (forall e :: e in r.emails <==> e in db.emails && db.emails[e].campaignId != Some(c))
      && r.platforms == db.platforms && r.targets == db.targets
      && (forall d | d in r.campaigns :: r.campaigns[d] == db.campaigns[d])
      && (forall e | e in r.emails :: r.emails[e] == db.emails[e])
  {
    var r := CascadeDelete(db, CampaignRow(c));
    forall e ensures e in r.emails <==> e in db.emails && db.emails[e].campaignId != Some(c) {
      if e in db.emails && db.emails[e].campaignId == Some(c) {
        assert EmailRow(e) in EmailRows(EmailsOfCampaign(db, c));
      }
    }
    assert r.campaigns.Keys == db.campaigns.Keys - {c};
  }

  /** Deleting an email removes that email only. */
  lemma DeleteEmailEffect(db: Tables, e: Id)
    ensures CascadeDelete(db, EmailRow(e)) == db.(emails := map d | d in db.emails && d != e :: db.emails[d])
  {
  }

  /**
   * The database: one map per table and, per table, the next id its
   * sequence hands out.
   */
  class Store {
    var platforms: map<Id, Platform>
    var targets: map<Id, Target>
    var campaigns: map<Id, Campaign>
    var emails: map<Id, OutreachEmail>
    var nextPlatformId: Id
    var nextTargetId: Id
    var nextCampaignId: Id
    var nextEmailId: Id

    function Snapshot(): Tables
      reads this
    {
      Tables(platforms, targets, campaigns, emails)
    }

    /** Referential integrity, and every id is positive and below its table's next id. */
    ghost predicate Valid()
      reads this
    {
      && Integrity(Snapshot())
      && 1 <= nextPlatformId && 1 <= nextTargetId && 1 <= nextCampaignId && 1 <= nextEmailId
      && (forall p | p in platforms :: 1 <= p < nextPlatformId)
      && (forall t | t in targets :: 1 <= t < nextTargetId)
      && (forall c | c in campaigns :: 1 <= c < nextCampaignId)
      && (forall e | e in emails :: 1 <= e < nextEmailId)
    }

    constructor ()
      ensures Valid()
      ensures Snapshot() == Tables(map[], map[], map[], map[])
    {
      platforms, targets, campaigns, emails := map[], map[], map[], map[];
      nextPlatformId, nextTargetId, nextCampaignId, nextEmailId := 1, 1, 1, 1;
    }

    /** `session.add(platform)` and a commit: the row gets a fresh id. */
    method AddPlatform(p: Platform) returns (id: Id)
      requires Valid()
      modifies this
      ensures Valid()
      ensures id >= 1 && id !in old(platforms)
      ensures Snapshot() == old(Snapshot()).(platforms := old(platforms)[id := p])
    {
      id := nextPlatformId;
      platforms := platforms[id := p];
      nextPlatformId := nextPlatformId + 1;
    }

    /** Adding a target; its platform must exist (the foreign key). */
    method AddTarget(t: Target) returns (id: Id)
      requires Valid()
      requires t.platformId in platforms
      modifies this
      ensures Valid()
      ensures id >= 1 && id !in old(targets)
      ensures Snapshot() == old(Snapshot()).(targets := old(targets)[id := t])
    {
      id := nextTargetId;
      targets := targets[id := t];
      nextTargetId := nextTargetId + 1;
    }

    method AddCampaign(c: Campaign) returns (id: Id)
      requires Valid()
      modifies this
      ensures Valid()
      ensures id >= 1 && id !in old(campaigns)
      ensures Snapshot() == old(Snapshot()).(campaigns := old(campaigns)[id := c])
    {
      id := nextCampaignId;
      campaigns := campaigns[id := c];
      nextCampaignId := nextCampaignId + 1;
    }

    /** Adding an email; its target must exist, and its campaign if it has one. */
    method AddEmail(e: OutreachEmail) returns (id: Id)
      requires Valid()
      requires e.targetId in targets
      requires e.campaignId.Some? ==> e.campaignId.value in campaigns
      modifies this
      ensures Valid()
      ensures id >= 1 && id !in old(emails)
      ensures Snapshot() == old(Snapshot()).(emails := old(emails)[id := e])
    {
      id := nextEmailId;
      emails := emails[id := e];
      nextEmailId := nextEmailId + 1;
    }

    /** `session.delete(row)` and a commit: the row and its cascade closure go. */
    method Delete(root: Row)
      requires Valid()
      modifies this
      ensures Valid()
      ensures Snapshot() == CascadeDelete(old(Snapshot()), root)
      ensures nextPlatformId == old(nextPlatformId) && nextTargetId == old(nextTargetId)
      ensures nextCampaignId == old(nextCampaignId) && nextEmailId == old(nextEmailId)
    {
      DeleteKeepsIntegrity(Snapshot(), root);
      var after := CascadeDelete(Snapshot(), root);
      platforms, targets, campaigns, emails := after.platforms, after.targets, after.campaigns, after.emails;
    }
  }
}
