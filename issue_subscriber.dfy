/**
 * The issue event producer: which notification an issue insert or status
 * change raises, and the payload it builds for the Telegram agent (and every
 * other agent) from the issue, its first comment and the TMDB title.
 */
module IssueSubscriber {
  import opened Model
  import opened Markup
  import opened IssueCommon

  // ---------------------------------------------------------------------------
  // Kind selection

  /**
   * The kind a status change raises: RESOLVED when the issue became resolved,
   * REOPENED when it became open, nothing otherwise.
   */
  function UpdateKind(newStatus: IssueStatus, oldStatus: IssueStatus): (r: Option<Kind>)
    ensures r == Some(IssueResolved) <==> newStatus == Resolved && oldStatus != Resolved
    ensures r == Some(IssueReopened) <==> newStatus == Open && oldStatus != Open
  {
    if newStatus == Resolved && oldStatus != Resolved then Some(IssueResolved)
    else if newStatus == Open && oldStatus != Open then Some(IssueReopened)
    else None
  }

  /** An update raises a notification exactly when the status changed, and never a creation. */
  lemma UpdateKindOnChange(newStatus: IssueStatus, oldStatus: IssueStatus)
    ensures UpdateKind(newStatus, oldStatus).Some? <==> newStatus != oldStatus
    ensures UpdateKind(newStatus, oldStatus) != Some(IssueCreated)
  {
  }

  // ---------------------------------------------------------------------------
  // Payload

  /** The label of a kind: "Issue" for a creation, the resolved label, else the reopened one. */
  function KindLabel(kind: Kind, labels: Labels): string {
    if kind == IssueCreated then labels.issue
    else if kind == IssueResolved then labels.issueResolved
    else labels.issueReopened
  }

  /** The event label: the type prefix (none for OTHER), then the label of the kind. */
  function IssueEvent(kind: Kind, t: IssueType, typeName: IssueType -> string, labels: Labels): string {
    TypePrefix(t, typeName) + KindLabel(kind, labels)
  }

  /** The label ends with the kind's label and is exactly that label for an OTHER issue. */
  lemma IssueEventShape(kind: Kind, t: IssueType, typeName: IssueType -> string, labels: Labels)
    ensures var k, e := KindLabel(kind, labels), IssueEvent(kind, t, typeName, labels);
      |k| <= |e| && e[|e| - |k|..] == k
      && (e == k <==> t == Other)
      && (t != Other ==> e == typeName(t) + " " + k)
  {
  }

  /** The season and episode extras: season only for TV with a season, episode only after it. */
  function AffectedExtras(media: Media, season: int, episode: int, labels: Labels): seq<Extra> {
    if media.mediaType == Tv && season > 0 then
      [Extra(labels.affectedSeason, PositiveString(season))]
      + (if episode > 0 then [Extra(labels.affectedEpisode, PositiveString(episode))] else [])
    else []
  }

  /** What the extras hold, entry by entry. */
  lemma AffectedExtrasContents(media: Media, season: int, episode: int, labels: Labels)
    ensures var x := AffectedExtras(media, season, episode, labels);
      (x == [] <==> !(media.mediaType == Tv && season > 0))
      && |x| <= 2
      && (|x| == 2 <==> media.mediaType == Tv && season > 0 && episode > 0)
      && (x != [] ==> x[0].name == labels.affectedSeason && DecimalValue(x[0].value) == season && x[0].value[0] != '0')
      && (|x| == 2 ==> x[1].name == labels.affectedEpisode && DecimalValue(x[1].value) == episode && x[1].value[0] != '0')
  {
  }

  /**
   * The reporter is notified of a resolution or reopening they did not make
   * themselves, unless they manage issues.
   */
  function IssueNotifyUser(issue: Issue, kind: Kind): (r: Option<User>)
    ensures r.Some? ==> r.value == issue.createdBy
  {
    if !issue.createdBy.manageIssues
       && (issue.modifiedBy.None? || issue.modifiedBy.value.id != issue.createdBy.id)
       && (kind == IssueResolved || kind == IssueReopened)
    then Some(issue.createdBy)
    else None
  }

  /** Both directions of the reporter rule; a creation never notifies the reporter directly. */
  lemma IssueNotifyUserRule(issue: Issue, kind: Kind)
    ensures IssueNotifyUser(issue, kind).Some? <==>
      !issue.createdBy.manageIssues
      && !(issue.modifiedBy.Some? && issue.modifiedBy.value.id == issue.createdBy.id)
      && kind in {IssueResolved, IssueReopened}
    ensures kind == IssueCreated ==> IssueNotifyUser(issue, kind).None?
  {
  }

  /** The payload `sendIssueNotification` dispatches once its lookups have succeeded. */
  function IssuePayload(issue: Issue, kind: Kind, title: TmdbTitle, first: Comment,
                        typeName: IssueType -> string, labels: Labels): Payload
  {
    Payload(
      event := Some(IssueEvent(kind, issue.issueType, typeName, labels)),
      subject := Title(title),
      message := Some(first.message),
      image := Some(Poster(title)),
      extra := AffectedExtras(issue.media, issue.problemSeason, issue.problemEpisode, labels),
      request := None,
      comment := None,
      issue := Some(issue),
      media := Some(issue.media),
      notifySystem := true,
      notifyUser := IssueNotifyUser(issue, kind),
      notifyAdmin := true)
  }

  /**
   * What `sendIssueNotification` dispatches: nothing when the TMDB lookup
   * fails or the issue has no comment to quote, else one notification of the
   * given kind.
   */
  function IssueDispatches(issue: Issue, kind: Kind, tmdb: Tmdb, typeName: IssueType -> string,
                           labels: Labels): (r: seq<Dispatch>)
    ensures |r| <= 1
    ensures r != [] <==> Lookup(tmdb, issue.media).Some? && issue.comments != []
    ensures r != [] ==> r[0].kind == kind
  {
    match (Lookup(tmdb, issue.media), FirstComment(issue.comments))
    case (Some(title), Some(first)) => [Dispatch(kind, IssuePayload(issue, kind, title, first, typeName, labels))]
    case _ => []
  }

  /** Every dispatched issue payload targets admins and the system chat and quotes the first comment. */
  lemma IssuePayloadTargets(issue: Issue, kind: Kind, tmdb: Tmdb, typeName: IssueType -> string, labels: Labels)
    requires IssueDispatches(issue, kind, tmdb, typeName, labels) != []
    ensures var p := IssueDispatches(issue, kind, tmdb, typeName, labels)[0].payload;
      p.notifyAdmin && p.notifySystem
      && p.issue == Some(issue) && p.media == Some(issue.media)
      && p.request.None? && p.comment.None?
      && (exists i :: 0 <= i < |issue.comments| && p.message == Some(issue.comments[i].message)
                      && forall j :: 0 <= j < |issue.comments| ==> issue.comments[i].id <= issue.comments[j].id)
      && p.image == Some(Poster(Lookup(tmdb, issue.media).value))
      && p.image.Some? && |PosterBase| <= |p.image.value| && p.image.value[..|PosterBase|] == PosterBase
      && p.subject == Title(Lookup(tmdb, issue.media).value)
      && p.event == Some(IssueEvent(kind, issue.issueType, typeName, labels))
      && p.extra == AffectedExtras(issue.media, issue.problemSeason, issue.problemEpisode, labels)
      && p.notifyUser == IssueNotifyUser(issue, kind)
  {
    var i := FirstIndex(issue.comments);
    var title := Lookup(tmdb, issue.media).value;
    assert Poster(title)[..|PosterBase|] == PosterBase;
  }

  /** The dispatches an insert raises: a creation notification when there is an entity. */
  function InsertDispatches(entity: Option<Issue>, tmdb: Tmdb, typeName: IssueType -> string,
                            labels: Labels): (r: seq<Dispatch>)
    ensures entity.None? ==> r == []
    ensures forall d :: d in r ==> d.kind == IssueCreated
  {
    if entity.None? then [] else IssueDispatches(entity.value, IssueCreated, tmdb, typeName, labels)
  }

  /** The dispatches an update raises: at most one, for a status change only. */
  function UpdateDispatches(entity: Issue, databaseEntity: Issue, tmdb: Tmdb, typeName: IssueType -> string,
                            labels: Labels): (r: seq<Dispatch>)
    ensures |r| <= 1
    ensures entity.status == databaseEntity.status ==> r == []
    ensures r != [] ==> r[0].kind == (if entity.status == Resolved then IssueResolved else IssueReopened)
  {
    match UpdateKind(entity.status, databaseEntity.status)
    case None => []
    case Some(kind) => IssueDispatches(entity, kind, tmdb, typeName, labels)
  }

  // ---------------------------------------------------------------------------
  // The subscriber

  /**
   * `sendIssueNotification`: looks up the title, builds the extras in place,
   * and dispatches. A failed lookup or a missing first comment is caught and
   * dispatches nothing.
   */
  method SendIssueNotification(issue: Issue, kind: Kind, tmdb: Tmdb, typeName: IssueType -> string,
                               labels: Labels, manager: NotificationManager)
    modifies manager
    ensures manager.dispatched == old(manager.dispatched) + IssueDispatches(issue, kind, tmdb, typeName, labels)
  {
    var found := Lookup(tmdb, issue.media);
    if found.None? {
      return;
    }
    var title := Title(found.value);
    var image := Poster(found.value);
    var first := FirstComment(issue.comments);

    var extra: seq<Extra> := [];
    if issue.media.mediaType == Tv && issue.problemSeason > 0 {
      extra := extra + [Extra(labels.affectedSeason, PositiveString(issue.problemSeason))];
      if issue.problemEpisode > 0 {
        extra := extra + [Extra(labels.affectedEpisode, PositiveString(issue.problemEpisode))];
      }
    }

    if first.None? {
      return;
    }
    var payload := Payload(
      event := Some(IssueEvent(kind, issue.issueType, typeName, labels)),
      subject := title,
      message := Some(first.value.message),
      image := Some(image),
      extra := extra,
      request := None,
      comment := None,
      issue := Some(issue),
      media := Some(issue.media),
      notifySystem := true,
      notifyUser := IssueNotifyUser(issue, kind),
      notifyAdmin := true);
    assert payload == IssuePayload(issue, kind, found.value, first.value, typeName, labels);
    manager.SendNotification(kind, payload);
  }

  /** `afterInsert`: an inserted issue raises ISSUE_CREATED; an event without an entity does nothing. */
  method AfterInsert(entity: Option<Issue>, tmdb: Tmdb, typeName: IssueType -> string, labels: Labels,
                     manager: NotificationManager)
    modifies manager
    ensures manager.dispatched == old(manager.dispatched) + InsertDispatches(entity, tmdb, typeName, labels)
  {
    if entity.None? {
      return;
    }
    SendIssueNotification(entity.value, IssueCreated, tmdb, typeName, labels, manager);
  }

  /**
   * `beforeUpdate`: compares the new status with the stored one. Without an
   * entity it does nothing; without a stored entity the status read throws,
   * which this models as `thrown` with nothing dispatched.
   */
  method BeforeUpdate(entity: Option<Issue>, databaseEntity: Option<Issue>, tmdb: Tmdb,
                      typeName: IssueType -> string, labels: Labels, manager: NotificationManager)
    returns (thrown: bool)
    modifies manager
    ensures thrown <==> entity.Some? && databaseEntity.None?
    ensures manager.dispatched == old(manager.dispatched)
      + (if entity.Some? && databaseEntity.Some?
         then UpdateDispatches(entity.value, databaseEntity.value, tmdb, typeName, labels)
         else [])
  {
    thrown := false;
    if entity.None? {
      return;
    }
    if databaseEntity.None? {
      thrown := true;
      return;
    }
    var issue := entity.value;
    var stored := databaseEntity.value;
    if issue.status == Resolved && stored.status != Resolved {
      SendIssueNotification(issue, IssueResolved, tmdb, typeName, labels, manager);
    } else if issue.status == Open && stored.status != Open {
      SendIssueNotification(issue, IssueReopened, tmdb, typeName, labels, manager);
    }
  }
}
