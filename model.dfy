/**
 * The notification data model shared by the Telegram agent and the two issue
 * event producers: notification kinds, the domain records a payload refers to,
 * the channel-agnostic payload itself, and the manager boundary that producers
 * dispatch into.
 */
module Model {

  datatype Option<+T> = None | Some(value: T)

  /** A JavaScript optional string is truthy iff it is present and non-empty. */
  predicate Truthy(s: Option<string>) {
    s.Some? && s.value != ""
  }

  /** The members of the `Notification` enum that the core refers to. */
  datatype Kind =
    | MediaPending
    | MediaApproved
    | MediaAvailable
    | MediaFailed
    | MediaDeclined
    | MediaAutoApproved
    | MediaAutoRequested
    | IssueCreated
    | IssueComment
    | IssueResolved
    | IssueReopened

  datatype MediaType = Movie | Tv

  /** Only PENDING is ever compared against; every other status is kept by its code. */
  datatype MediaStatus = Pending | OtherStatus(code: int)

  /** Only OTHER is ever compared against; every other issue type is kept by its code. */
  datatype IssueType = Other | Typed(code: int)

  datatype IssueStatus = Open | Resolved

  /**
   * A user's Telegram preferences: the kinds they subscribed to on this channel
   * (the decoded preference mask), the chat id ("" when unset), the silent flag
   * and the thread id as `Number()` produced it (None for unset or NaN).
   */
  datatype UserSettings = UserSettings(
    telegramKinds: set<Kind>,
    telegramChatId: string,
    telegramSendSilently: bool,
    telegramMessageThreadId: Option<int>)

  /** `manageIssues` is the answer of `hasPermission(Permission.MANAGE_ISSUES)`. */
  datatype User = User(id: nat, displayName: string, manageIssues: bool, settings: Option<UserSettings>)

  datatype Media = Media(id: nat, mediaType: MediaType, tmdbId: nat, status: MediaStatus)

  datatype Comment = Comment(id: nat, user: User, message: string)

  datatype Issue = Issue(
    id: nat,
    issueType: IssueType,
    status: IssueStatus,
    problemSeason: int,
    problemEpisode: int,
    createdBy: User,
    modifiedBy: Option<User>,
    media: Media,
    comments: seq<Comment>)

  datatype Request = Request(requestedBy: User)

  datatype Extra = Extra(name: string, value: string)

  /**
   * One notification event. Several of request, comment and issue may be set at
   * once; the renderer decides which context block wins. An absent `extra` is
   * the empty sequence.
   */
  datatype Payload = Payload(
    event: Option<string>,
    subject: string,
    message: Option<string>,
    image: Option<string>,
    extra: seq<Extra>,
    request: Option<Request>,
    comment: Option<Comment>,
    issue: Option<Issue>,
    media: Option<Media>,
    notifySystem: bool,
    notifyUser: Option<User>,
    notifyAdmin: bool)

  datatype Dispatch = Dispatch(kind: Kind, payload: Payload)

  /** The producer side of the manager: every `sendNotification` call, in order. */
  class NotificationManager {
    var dispatched: seq<Dispatch>

    constructor ()
      ensures dispatched == []
    {
      dispatched := [];
    }

    method SendNotification(kind: Kind, payload: Payload)
      modifies this
      ensures dispatched == old(dispatched) + [Dispatch(kind, payload)]
    {
      dispatched := dispatched + [Dispatch(kind, payload)];
    }
  }
}
