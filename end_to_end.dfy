/**
 * What the Telegram agent makes of the payloads the issue producers build:
 * which context block and deep link they render to, and that they always go
 * out as a photo with a bounded caption.
 */
module EndToEnd {
  import opened Model
  import opened Markup
  import opened IssueCommon
  import opened Telegram
  import IssueSubscriber
  import IssueCommentSubscriber

  /** A comment notification shows the comment block (not the issue block) and links to the issue. */
  lemma CommentRendersCommentBlockAndIssueLink(comment: Comment, repo: IssueCommentSubscriber.Repository, tmdb: Tmdb,
                                               typeName: IssueType -> string, labels: Labels, main: MainSettings)
    requires IssueCommentSubscriber.CommentDispatches(comment, repo, tmdb, typeName, labels) != []
    ensures var d := IssueCommentSubscriber.CommentDispatches(comment, repo, tmdb, typeName, labels)[0];
      var issue := repo.issueOfComment(comment.id).value;
      ContextBlock(d.kind, d.payload, typeName)
        == "\n\n*Comment from " + Escape(comment.user.displayName) + ":* " + Escape(comment.message)
      && (main.applicationUrl != "" ==> LinkUrl(main, d.payload) == Some(main.applicationUrl + "/issues/" + Decimal(issue.id)))
      && (main.applicationUrl == "" ==> LinkUrl(main, d.payload).None?)
      && d.kind == IssueComment
  {
    IssueCommentSubscriber.CommentPayloadTargets(comment, repo, tmdb, typeName, labels);
  }

  /** An issue notification shows the issue block with its status and links to the issue. */
  lemma IssueRendersIssueBlockAndLink(issue: Issue, kind: Kind, tmdb: Tmdb, typeName: IssueType -> string,
                                      labels: Labels, main: MainSettings)
    requires IssueSubscriber.IssueDispatches(issue, kind, tmdb, typeName, labels) != []
    ensures var p := IssueSubscriber.IssueDispatches(issue, kind, tmdb, typeName, labels)[0].payload;
      ContextBlock(kind, p, typeName)
        == "\n\n*Reported By:* " + Escape(issue.createdBy.displayName)
           + "\n*Issue Type:* " + typeName(issue.issueType)
           + "\n*Issue Status:* " + (if issue.status == Open then "Open" else "Resolved")
      && (main.applicationUrl != "" ==> LinkUrl(main, p) == Some(main.applicationUrl + "/issues/" + Decimal(issue.id)))
  {
    IssueSubscriber.IssuePayloadTargets(issue, kind, tmdb, typeName, labels);
  }

  /** Both producers attach the TMDB poster, so the agent always sends a photo whose caption fits. */
  lemma ProducerPayloadsArePhotos(p: Payload, kind: Kind, main: MainSettings, typeName: IssueType -> string, botAPI: string)
    requires p.image.Some? && |PosterBase| <= |p.image.value| && p.image.value[..|PosterBase|] == PosterBase
    ensures var r := Render(kind, p, main, typeName);
      r.Photo? && r.photo == p.image.value && |r.caption| <= CaptionLimit
      && Endpoint(botAPI, p) == BotUrl(botAPI) + "sendPhoto"
  {
    assert p.image.value[0] == PosterBase[0];
  }

  /** Applied to each producer: an issue notification goes out as a photo. */
  lemma IssueNotificationIsPhoto(issue: Issue, kind: Kind, tmdb: Tmdb, typeName: IssueType -> string,
                                 labels: Labels, main: MainSettings)
    requires IssueSubscriber.IssueDispatches(issue, kind, tmdb, typeName, labels) != []
    ensures var p := IssueSubscriber.IssueDispatches(issue, kind, tmdb, typeName, labels)[0].payload;
      Render(kind, p, main, typeName).Photo? && |Render(kind, p, main, typeName).caption| <= CaptionLimit
  {
    IssueSubscriber.IssuePayloadTargets(issue, kind, tmdb, typeName, labels);
    var p := IssueSubscriber.IssueDispatches(issue, kind, tmdb, typeName, labels)[0].payload;
    ProducerPayloadsArePhotos(p, kind, main, typeName, "");
  }

  /** Applied to each producer: a comment notification goes out as a photo. */
  lemma CommentNotificationIsPhoto(comment: Comment, repo: IssueCommentSubscriber.Repository, tmdb: Tmdb,
                                   typeName: IssueType -> string, labels: Labels, main: MainSettings)
    requires IssueCommentSubscriber.CommentDispatches(comment, repo, tmdb, typeName, labels) != []
    ensures var p := IssueCommentSubscriber.CommentDispatches(comment, repo, tmdb, typeName, labels)[0].payload;
      Render(IssueComment, p, main, typeName).Photo? && |Render(IssueComment, p, main, typeName).caption| <= CaptionLimit
  {
    IssueCommentSubscriber.CommentPayloadTargets(comment, repo, tmdb, typeName, labels);
    var p := IssueCommentSubscriber.CommentDispatches(comment, repo, tmdb, typeName, labels)[0].payload;
    var title := Lookup(tmdb, repo.media(repo.issueOfComment(comment.id).value.media.id).value).value;
    assert Poster(title)[..|PosterBase|] == PosterBase;
    ProducerPayloadsArePhotos(p, IssueComment, main, typeName, "");
  }

  /**
   * A comment notification whose reporter is also a subscribed admin with a
   * chat of their own reaches that chat twice: once directly, once as admin.
   */
  lemma CommentReporterAlsoAdminGetsTwo(comment: Comment, repo: IssueCommentSubscriber.Repository, tmdb: Tmdb,
                                        typeName: IssueType -> string, labels: Labels, s: TelegramSettings,
                                        users: seq<User>, eligible: (Kind, User, Payload) -> bool)
    requires IssueCommentSubscriber.CommentDispatches(comment, repo, tmdb, typeName, labels) != []
    requires var p := IssueCommentSubscriber.CommentDispatches(comment, repo, tmdb, typeName, labels)[0].payload;
      p.notifyUser.Some? && p.notifyUser.value in users
      && QualifiedAdmin(IssueComment, p, eligible, s.options.chatId, p.notifyUser.value)
    ensures var p := IssueCommentSubscriber.CommentDispatches(comment, repo, tmdb, typeName, labels)[0].payload;
      CountChat(Plan(IssueComment, p, s, users, eligible), p.notifyUser.value.settings.value.telegramChatId) >= 2
  {
    IssueCommentSubscriber.CommentPayloadTargets(comment, repo, tmdb, typeName, labels);
    var p := IssueCommentSubscriber.CommentDispatches(comment, repo, tmdb, typeName, labels)[0].payload;
    UserAndAdminNotDeduplicated(IssueComment, p, s, users, eligible);
  }
}
