/**
 * The issue comment producer: a new comment on an issue (other than the
 * comment that opened it) raises an ISSUE_COMMENT notification carrying the
 * comment, its issue and the issue's media.
 */
module IssueCommentSubscriber {
  import opened Model
  import opened IssueCommon

  /** The repository lookups: a comment's issue, a user by id, a media item by id; None is a failed lookup. */
  datatype Repository = Repository(
    issueOfComment: nat -> Option<Issue>,
    users: nat -> Option<User>,
    media: nat -> Option<Media>)

  /** "New Comment on", a space, the type prefix (none for OTHER), then "Issue". */
  function CommentEvent(t: IssueType, typeName: IssueType -> string, labels: Labels): string {
    labels.newCommentOn + " " + TypePrefix(t, typeName) + labels.issue
  }

  /** The label's frame is fixed and only the type prefix varies. */
  lemma CommentEventShape(t: IssueType, typeName: IssueType -> string, labels: Labels)
    ensures var e := CommentEvent(t, typeName, labels);
      var head := labels.newCommentOn + " ";
      |head| + |labels.issue| <= |e|
      && e[..|head|] == head && e[|e| - |labels.issue|..] == labels.issue
      && (t == Other <==> e == head + labels.issue)
      && (t != Other ==> e == head + typeName(t) + " " + labels.issue)
  {
    var e := CommentEvent(t, typeName, labels);
    var head := labels.newCommentOn + " ";
    assert e == head + (TypePrefix(t, typeName) + labels.issue);
    if e == head + labels.issue {
      assert |TypePrefix(t, typeName)| == 0;
    }
  }

  /** The issue's reporter is notified unless they manage issues or wrote the comment. */
  function CommentNotifyUser(createdBy: User, comment: Comment): (r: Option<User>)
    ensures r.Some? <==> !createdBy.manageIssues && createdBy.id != comment.user.id
    ensures r.Some? ==> r.value == createdBy
  {
    if !createdBy.manageIssues && createdBy.id != comment.user.id then Some(createdBy) else None
  }

  /** The payload dispatched for a comment once every lookup has succeeded. */
  function CommentPayload(comment: Comment, issue: Issue, createdBy: User, media: Media, title: TmdbTitle,
                          first: Comment, typeName: IssueType -> string, labels: Labels): Payload
  {
    Payload(
      event := Some(CommentEvent(issue.issueType, typeName, labels)),
      subject := Title(title),
      message := Some(first.message),
      image := Some(Poster(title)),
      extra := [],
      request := None,
      comment := Some(comment),
      issue := Some(issue),
      media := Some(media),
      notifySystem := true,
      notifyUser := CommentNotifyUser(createdBy, comment),
      notifyAdmin := true)
  }

  /**
   * What `sendIssueCommentNotification` dispatches: nothing when a lookup
   * fails, the issue has no comments, or the comment is the issue's first;
   * else one ISSUE_COMMENT notification.
   */
  function CommentDispatches(comment: Comment, repo: Repository, tmdb: Tmdb, typeName: IssueType -> string,
                             labels: Labels): (r: seq<Dispatch>)
    ensures |r| <= 1
    ensures forall d :: d in r ==> d.kind == IssueComment
    ensures r != [] <==>
      var i := repo.issueOfComment(comment.id);
      i.Some? && repo.users(i.value.createdBy.id).Some? && repo.media(i.value.media.id).Some?
      && Lookup(tmdb, repo.media(i.value.media.id).value).Some?
      && i.value.comments != [] && comment.id != FirstComment(i.value.comments).value.id
  {
    match repo.issueOfComment(comment.id)
    case None => []
    case Some(issue) =>
      match (repo.users(issue.createdBy.id), repo.media(issue.media.id))
      case (Some(createdBy), Some(media)) =>
        (match (Lookup(tmdb, media), FirstComment(issue.comments))
         case (Some(title), Some(first)) =>
           if comment.id != first.id
           then [Dispatch(IssueComment, CommentPayload(comment, issue, createdBy, media, title, first, typeName, labels))]
           else []
         case _ => [])
      case _ => []
  }

  /**
   * The first-comment skip: with every lookup succeeding, a comment raises a
   * notification exactly when its id differs from the issue's first comment;
   * with distinct ids, exactly the lowest-id comment of the issue is skipped.
   */
  lemma FirstCommentSkipped(comment: Comment, repo: Repository, tmdb: Tmdb, typeName: IssueType -> string,
                            labels: Labels)
    requires repo.issueOfComment(comment.id).Some?
    requires var issue := repo.issueOfComment(comment.id).value;
      repo.users(issue.createdBy.id).Some? && repo.media(issue.media.id).Some?
      && Lookup(tmdb, repo.media(issue.media.id).value).Some?
    requires var cs := repo.issueOfComment(comment.id).value.comments;
      comment in cs && forall j, k :: 0 <= j < k < |cs| ==> cs[j].id != cs[k].id
    ensures var cs := repo.issueOfComment(comment.id).value.comments;
      CommentDispatches(comment, repo, tmdb, typeName, labels) == [] <==> forall d :: d in cs ==> comment.id <= d.id
  {
    var cs := repo.issueOfComment(comment.id).value.comments;
    FirstCommentIsMinimum(cs, comment);
  }

  /** A dispatched comment payload carries the comment, its issue and the media, and targets admins and the system chat. */
  lemma CommentPayloadTargets(comment: Comment, repo: Repository, tmdb: Tmdb, typeName: IssueType -> string,
                              labels: Labels)
    requires CommentDispatches(comment, repo, tmdb, typeName, labels) != []
    ensures var p := CommentDispatches(comment, repo, tmdb, typeName, labels)[0].payload;
      var issue := repo.issueOfComment(comment.id).value;
      p.comment == Some(comment) && p.issue == Some(issue) && p.media == repo.media(issue.media.id)
      && p.request.None? && p.extra == []
      && p.notifyAdmin && p.notifySystem
      && p.notifyUser == CommentNotifyUser(repo.users(issue.createdBy.id).value, comment)
      && p.event == Some(CommentEvent(issue.issueType, typeName, labels))
      && p.message.Some? && comment.id != FirstComment(issue.comments).value.id
      && p.message.value == FirstComment(issue.comments).value.message
      && p.image == Some(Poster(Lookup(tmdb, repo.media(issue.media.id).value).value))
      && p.subject == Title(Lookup(tmdb, repo.media(issue.media.id).value).value)
  {
  }

  /**
   * `sendIssueCommentNotification`: the sequential lookups, the title and
   * poster, then the first-comment check and the dispatch. Any failed lookup
   * is caught and dispatches nothing.
   */
  method SendIssueCommentNotification(comment: Comment, repo: Repository, tmdb: Tmdb,
                                      typeName: IssueType -> string, labels: Labels, manager: NotificationManager)
    modifies manager
    ensures manager.dispatched == old(manager.dispatched) + CommentDispatches(comment, repo, tmdb, typeName, labels)
  {
    var issue := repo.issueOfComment(comment.id);
    if issue.None? {
      return;
    }
    var createdBy := repo.users(issue.value.createdBy.id);
    if createdBy.None? {
      return;
    }
    var media := repo.media(issue.value.media.id);
    if media.None? {
      return;
    }
    var found := Lookup(tmdb, media.value);
    if found.None? {
      return;
    }
    var title := Title(found.value);
    var image := Poster(found.value);
    var first := FirstComment(issue.value.comments);
    if first.None? {
      return;
    }
    if comment.id != first.value.id {
      var payload := Payload(
        event := Some(CommentEvent(issue.value.issueType, typeName, labels)),
        subject := title,
        message := Some(first.value.message),
        image := Some(image),
        extra := [],
        request := None,
        comment := Some(comment),
        issue := issue,
        media := media,
        notifySystem := true,
        notifyUser := CommentNotifyUser(createdBy.value, comment),
        notifyAdmin := true);
      manager.SendNotification(IssueComment, payload);
    }
  }

  /** `afterInsert`: an event without an entity does nothing. */
  method AfterInsert(entity: Option<Comment>, repo: Repository, tmdb: Tmdb, typeName: IssueType -> string,
                     labels: Labels, manager: NotificationManager)
    modifies manager
    ensures entity.None? ==> manager.dispatched == old(manager.dispatched)
    ensures entity.Some? ==>
      manager.dispatched == old(manager.dispatched) + CommentDispatches(entity.value, repo, tmdb, typeName, labels)
  {
    if entity.None? {
      return;
    }
    SendIssueCommentNotification(entity.value, repo, tmdb, typeName, labels, manager);
  }
}
