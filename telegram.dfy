/**
 * The Telegram notification agent: its gate, its MarkdownV2 renderer, and the
 * recipient resolution of `send`, which delivers one rendered message to the
 * system chat, the directly affected user and every eligible admin.
 */
module Telegram {
  import opened Model
  import opened Markup

  /**
   * `chatId` and `botAPI` are "" when unset; `messageThreadId` is the value
   * `Number()` made of the configured thread id (None for unset or NaN).
   */
  datatype TelegramOptions = TelegramOptions(
    botAPI: string,
    chatId: string,
    sendSilently: bool,
    messageThreadId: Option<int>)

  /** `types` is the system subscription mask decoded to the kinds it contains; an absent mask is empty. */
  datatype TelegramSettings = TelegramSettings(enabled: bool, types: set<Kind>, options: TelegramOptions)

  /** `applicationUrl` is "" when unset. */
  datatype MainSettings = MainSettings(applicationUrl: string, applicationTitle: string)

  /** The process-wide settings the agent reads. */
  datatype Settings = Settings(main: MainSettings, telegram: TelegramSettings)

  /** An agent, optionally constructed with settings that replace the global ones (test notifications). */
  datatype TelegramAgent = TelegramAgent(override: Option<TelegramSettings>)

  // ---------------------------------------------------------------------------
  // Gate

  function GetSettings(agent: TelegramAgent, global: Settings): TelegramSettings {
    if agent.override.Some? then agent.override.value else global.telegram
  }

  /** The agent runs only when enabled and given a bot token. */
  function ShouldSend(agent: TelegramAgent, global: Settings): (r: bool)
    ensures !GetSettings(agent, global).enabled ==> !r
    ensures GetSettings(agent, global).options.botAPI == "" ==> !r
    ensures GetSettings(agent, global).enabled && GetSettings(agent, global).options.botAPI != "" ==> r
  {
    var s := GetSettings(agent, global);
    s.enabled && s.options.botAPI != ""
  }

  /** With an override, nothing in the global settings changes what the agent reads or whether it runs. */
  lemma OverrideTakesPrecedence(agent: TelegramAgent, g1: Settings, g2: Settings)
    requires agent.override.Some?
    ensures GetSettings(agent, g1) == GetSettings(agent, g2) == agent.override.value
    ensures ShouldSend(agent, g1) == ShouldSend(agent, g2)
  {
  }

  // ---------------------------------------------------------------------------
  // Rendering

  /** The kinds the request-status table has a line for. */
  predicate InStatusTable(kind: Kind) {
    kind in {MediaAutoRequested, MediaPending, MediaApproved, MediaAutoApproved, MediaAvailable, MediaDeclined, MediaFailed}
  }

  predicate MediaIsPending(media: Option<Media>) {
    media.Some? && media.value.status == Pending
  }

  /** The status shown under a request block; "" means no status line. */
  function RequestStatus(kind: Kind, media: Option<Media>): string {
    match kind
    case MediaAutoRequested => if MediaIsPending(media) then "Pending Approval" else "Processing"
    case MediaPending => "Pending Approval"
    case MediaApproved => "Processing"
    case MediaAutoApproved => "Processing"
    case MediaAvailable => "Available"
    case MediaDeclined => "Declined"
    case MediaFailed => "Failed"
    case _ => ""
  }

  /** The status table, read label by label. */
  lemma StatusTable(kind: Kind, media: Option<Media>)
    ensures RequestStatus(kind, media) == "" <==> !InStatusTable(kind)
    ensures RequestStatus(kind, media) == "Pending Approval" <==>
      kind == MediaPending || (kind == MediaAutoRequested && MediaIsPending(media))
    ensures RequestStatus(kind, media) == "Processing" <==>
      kind == MediaApproved || kind == MediaAutoApproved || (kind == MediaAutoRequested && !MediaIsPending(media))
    ensures RequestStatus(kind, media) == "Available" <==> kind == MediaAvailable
    ensures RequestStatus(kind, media) == "Declined" <==> kind == MediaDeclined
    ensures RequestStatus(kind, media) == "Failed" <==> kind == MediaFailed
  {
  }

  /** `event - subject`, or the bare subject when there is no event. */
  function Heading(p: Payload): string {
    if Truthy(p.event) then p.event.value + " - " + p.subject else p.subject
  }

  function SubjectLine(p: Payload): string {
    "*" + Escape(Heading(p)) + "*"
  }

  function MessageLine(p: Payload): string {
    if Truthy(p.message) then "\n" + Escape(p.message.value) else ""
  }

  function StatusLine(status: string): string {
    if status != "" then "\n*Request Status:* " + status else ""
  }

  /** The one context block: request, else comment, else issue. `typeName` is `IssueTypeName`. */
  function ContextBlock(kind: Kind, p: Payload, typeName: IssueType -> string): string {
    if p.request.Some? then
      "\n\n*Requested By:* " + Escape(p.request.value.requestedBy.displayName)
      + StatusLine(RequestStatus(kind, p.media))
    else if p.comment.Some? then
      "\n\n*Comment from " + Escape(p.comment.value.user.displayName) + ":* " + Escape(p.comment.value.message)
    else if p.issue.Some? then
      "\n\n*Reported By:* " + Escape(p.issue.value.createdBy.displayName)
      + "\n*Issue Type:* " + typeName(p.issue.value.issueType)
      + "\n*Issue Status:* " + (if p.issue.value.status == Open then "Open" else "Resolved")
    else ""
  }

  /** A request block hides any comment or issue; a comment block hides any issue. */
  lemma ContextPrecedence(kind: Kind, p: Payload, typeName: IssueType -> string)
    ensures p.request.Some? ==>
      ContextBlock(kind, p, typeName) == ContextBlock(kind, p.(comment := None, issue := None), typeName)
    ensures p.request.None? && p.comment.Some? ==>
      ContextBlock(kind, p, typeName) == ContextBlock(kind, p.(issue := None), typeName)
    ensures ContextBlock(kind, p, typeName) == "" <==> p.request.None? && p.comment.None? && p.issue.None?
  {
  }

  /** The status line appears exactly for a request payload whose kind is in the table. */
  lemma StatusLineOnlyForRequests(kind: Kind, p: Payload, typeName: IssueType -> string)
    requires p.request.Some?
    ensures var prefix := "\n\n*Requested By:* " + Escape(p.request.value.requestedBy.displayName);
      InStatusTable(kind) <==> ContextBlock(kind, p, typeName) != prefix
  {
    StatusTable(kind, p.media);
    var prefix := "\n\n*Requested By:* " + Escape(p.request.value.requestedBy.displayName);
    if InStatusTable(kind) {
      assert |ContextBlock(kind, p, typeName)| > |prefix|;
    }
  }

  function ExtraLine(e: Extra): string {
    "\n*" + e.name + ":* " + e.value
  }

  /** The extras, one line each; names and values go in unescaped. */
  function ExtrasText(extra: seq<Extra>): string {
    if extra == [] then "" else ExtraLine(extra[0]) + ExtrasText(extra[1..])
  }

  /** Extras keep their order: the lines of a concatenation are the concatenated lines. */
  lemma {:induction false} ExtrasInOrder(a: seq<Extra>, b: seq<Extra>)
    ensures ExtrasText(a + b) == ExtrasText(a) + ExtrasText(b)
  {
    if a == [] {
      assert a + b == b;
    } else {
      assert (a + b)[0] == a[0];
      assert (a + b)[1..] == a[1..] + b;
      ExtrasInOrder(a[1..], b);
    }
  }

  /** The path segment of a media type (the string value of `MediaType`). */
  function MediaTypeSlug(t: MediaType): string {
    match t
    case Movie => "movie"
    case Tv => "tv"
  }

  /** The deep link: the issue page when there is an issue, else the media page, else none. */
  function LinkUrl(main: MainSettings, p: Payload): Option<string> {
    if main.applicationUrl == "" then None
    else if p.issue.Some? then Some(main.applicationUrl + "/issues/" + Decimal(p.issue.value.id))
    else if p.media.Some? then
      Some(main.applicationUrl + "/" + MediaTypeSlug(p.media.value.mediaType) + "/" + Decimal(p.media.value.tmdbId))
    else None
  }

  /** Where the link points, and that its last path segment reads back as the id it was built from. */
  lemma LinkTarget(main: MainSettings, p: Payload)
    ensures LinkUrl(main, p).Some? <==> main.applicationUrl != "" && (p.issue.Some? || p.media.Some?)
    ensures LinkUrl(main, p).Some? && p.issue.Some? ==>
      var u := LinkUrl(main, p).value;
      var k := |main.applicationUrl| + 8;
      k <= |u| && u[..k] == main.applicationUrl + "/issues/" && IsDigits(u[k..]) && DecimalValue(u[k..]) == p.issue.value.id
    ensures LinkUrl(main, p).Some? && p.issue.None? ==>
      var u := LinkUrl(main, p).value;
      var d := Decimal(p.media.value.tmdbId);
      |d| <= |u| && u[..|u| - |d|] == main.applicationUrl + "/" + MediaTypeSlug(p.media.value.mediaType) + "/"
      && IsDigits(u[|u| - |d|..]) && DecimalValue(u[|u| - |d|..]) == p.media.value.tmdbId
  {
    if LinkUrl(main, p).Some? {
      var u := LinkUrl(main, p).value;
      if p.issue.Some? {
        var k := |main.applicationUrl| + 8;
        assert u[k..] == Decimal(p.issue.value.id);
        DecimalRoundTrip(p.issue.value.id);
      } else {
        var d := Decimal(p.media.value.tmdbId);
        assert u[|u| - |d|..] == d;
        DecimalRoundTrip(p.media.value.tmdbId);
      }
    }
  }

  function LinkLine(main: MainSettings, p: Payload): string {
    match LinkUrl(main, p)
    case None => ""
    case Some(url) =>
      "\n\n[View " + (if p.issue.Some? then "Issue" else "Media") + " in " + Escape(main.applicationTitle) + "](" + url + ")"
  }

  /** Everything after the subject line: message, context block, extras and link, in that order. */
  function MessageBody(kind: Kind, p: Payload, main: MainSettings, typeName: IssueType -> string): string {
    MessageLine(p) + ContextBlock(kind, p, typeName) + ExtrasText(p.extra) + LinkLine(main, p)
  }

  /** The whole MarkdownV2 message, before any caption truncation. */
  function MessageText(kind: Kind, p: Payload, main: MainSettings, typeName: IssueType -> string): string {
    SubjectLine(p) + MessageBody(kind, p, main, typeName)
  }

  /**
   * Telegram reads the subject back out of the rendered message: the message
   * opens with a bold span whose literal text is the heading, provided the
   * heading has no backslash or backtick.
   */
  lemma SubjectReadsBack(kind: Kind, p: Payload, main: MainSettings, typeName: IssueType -> string)
    requires Plain(Heading(p))
    ensures var r := ReadBold(MessageText(kind, p, main, typeName));
      r.Some? && r.value.0 == Heading(p)
  {
    BoldReadsBack(Heading(p), MessageBody(kind, p, main, typeName));
  }

  datatype Rendered = Photo(photo: string, caption: string) | Text(text: string)

  const ParseMode := "MarkdownV2"

  /** `getNotificationPayload`: a photo with a bounded caption when there is an image, else the full text. */
  function Render(kind: Kind, p: Payload, main: MainSettings, typeName: IssueType -> string): (r: Rendered)
    ensures r.Photo? <==> Truthy(p.image)
    ensures r.Photo? ==> r.photo == p.image.value && |r.caption| <= CaptionLimit
    ensures r.Photo? ==> r.caption == TruncateCaption(MessageText(kind, p, main, typeName))
    ensures r.Photo? && |MessageText(kind, p, main, typeName)| <= CaptionLimit ==> r.caption == MessageText(kind, p, main, typeName)
    ensures r.Text? ==> r.text == MessageText(kind, p, main, typeName)
  {
    var message := MessageText(kind, p, main, typeName);
    if Truthy(p.image) then Photo(p.image.value, TruncateCaption(message)) else Text(message)
  }

  /** A message over the caption bound goes out as its first 1021 characters and "...", exactly 1024 long. */
  lemma LongCaptionTruncated(kind: Kind, p: Payload, main: MainSettings, typeName: IssueType -> string)
    requires Truthy(p.image) && |MessageText(kind, p, main, typeName)| > CaptionLimit
    ensures var c, m := Render(kind, p, main, typeName).caption, MessageText(kind, p, main, typeName);
      |c| == CaptionLimit && c[..CaptionLimit - 3] == m[..CaptionLimit - 3] && c[CaptionLimit - 3..] == "..."
  {
  }

  const BaseUrl := "https://api.telegram.org/"

  /** The Bot API method matching the render mode. */
  function Operation(p: Payload): string {
    if Truthy(p.image) then "sendPhoto" else "sendMessage"
  }

  /** The bot's URL as the code spells it, ending in a literal '$' before the method name. */
  function BotUrl(botAPI: string): string {
    BaseUrl + "bot" + botAPI + "/$"
  }

  function Endpoint(botAPI: string, p: Payload): string {
    BotUrl(botAPI) + Operation(p)
  }

  /** The endpoint names the photo method exactly when the message renders as a photo. */
  lemma EndpointMatchesRender(kind: Kind, p: Payload, main: MainSettings, typeName: IssueType -> string, botAPI: string)
    ensures var e := Endpoint(botAPI, p);
      (e == BotUrl(botAPI) + "sendPhoto" <==> Render(kind, p, main, typeName).Photo?)
      && (e == BotUrl(botAPI) + "sendMessage" <==> Render(kind, p, main, typeName).Text?)
  {
    OperationsDiffer(BotUrl(botAPI));
  }

  lemma OperationsDiffer(pre: string)
    ensures pre + "sendMessage" != pre + "sendPhoto"
  {
    assert (pre + "sendMessage")[|pre| + 4] == 'M';
    assert (pre + "sendPhoto")[|pre| + 4] == 'P';
  }

  // ---------------------------------------------------------------------------
  // Recipients

  datatype Destination = Destination(chatId: string, silent: bool, threadId: Option<int>)

  /** `message_thread_id` is sent only for a truthy thread id. */
  function ThreadField(threadId: Option<int>): (r: Option<int>)
    ensures r.Some? <==> threadId.Some? && threadId.value != 0
    ensures r.Some? ==> r == threadId
  {
    if threadId.Some? && threadId.value != 0 then threadId else None
  }

  function SystemDestination(s: TelegramSettings): Destination {
    Destination(s.options.chatId, s.options.sendSilently, ThreadField(s.options.messageThreadId))
  }

  /** The user's Telegram preferences include this kind. */
  predicate WantsKind(u: User, kind: Kind) {
    u.settings.Some? && kind in u.settings.value.telegramKinds
  }

  /** The user has a chat of their own, distinct from the configured system chat. */
  predicate Reachable(u: User, systemChatId: string) {
    u.settings.Some? && u.settings.value.telegramChatId != "" && u.settings.value.telegramChatId != systemChatId
  }

  function UserDestination(u: User): Destination
    requires u.settings.Some?
  {
    Destination(u.settings.value.telegramChatId, u.settings.value.telegramSendSilently,
                ThreadField(u.settings.value.telegramMessageThreadId))
  }

  function SystemPlan(kind: Kind, p: Payload, s: TelegramSettings): seq<Destination> {
    if p.notifySystem && kind in s.types && s.options.chatId != "" then [SystemDestination(s)] else []
  }

  function UserPlan(kind: Kind, p: Payload, s: TelegramSettings): seq<Destination> {
    if p.notifyUser.Some? && WantsKind(p.notifyUser.value, kind) && Reachable(p.notifyUser.value, s.options.chatId)
    then [UserDestination(p.notifyUser.value)]
    else []
  }

  /** The `filter` step of the admin fan-out: preference and admin eligibility. */
  function AdminFilter(kind: Kind, p: Payload, users: seq<User>, eligible: (Kind, User, Payload) -> bool): seq<User> {
    if users == [] then []
    else (if WantsKind(users[0], kind) && eligible(kind, users[0], p) then [users[0]] else [])
         + AdminFilter(kind, p, users[1..], eligible)
  }

  /** The `map` step of the admin fan-out: a delivery per admin with a chat of their own. */
  function AdminPlan(admins: seq<User>, systemChatId: string): seq<Destination> {
    if admins == [] then []
    else (if Reachable(admins[0], systemChatId) then [UserDestination(admins[0])] else [])
         + AdminPlan(admins[1..], systemChatId)
  }

  /** Every delivery `send` attempts, in the order it attempts them. */
  function Plan(kind: Kind, p: Payload, s: TelegramSettings, users: seq<User>,
                eligible: (Kind, User, Payload) -> bool): seq<Destination>
  {
    SystemPlan(kind, p, s) + UserPlan(kind, p, s)
    + (if p.notifyAdmin then AdminPlan(AdminFilter(kind, p, users, eligible), s.options.chatId) else [])
  }

  /** Each admin's delivery depends on that admin alone. */
  lemma {:induction false} AdminPlanAppend(a: seq<User>, b: seq<User>, systemChatId: string)
    ensures AdminPlan(a + b, systemChatId) == AdminPlan(a, systemChatId) + AdminPlan(b, systemChatId)
  {
    if a == [] {
      assert a + b == b;
    } else {
      var head := if Reachable(a[0], systemChatId) then [UserDestination(a[0])] else [];
      assert (a + b)[0] == a[0];
      assert (a + b)[1..] == a[1..] + b;
      assert AdminPlan(a + b, systemChatId) == head + AdminPlan(a[1..] + b, systemChatId);
      AdminPlanAppend(a[1..], b, systemChatId);
      assert head + (AdminPlan(a[1..], systemChatId) + AdminPlan(b, systemChatId))
          == (head + AdminPlan(a[1..], systemChatId)) + AdminPlan(b, systemChatId);
    }
  }

  /** An admin who receives the event: wants the kind, is eligible, and has a chat of their own. */
  predicate QualifiedAdmin(kind: Kind, p: Payload, eligible: (Kind, User, Payload) -> bool, systemChatId: string, u: User) {
    WantsKind(u, kind) && eligible(kind, u, p) && Reachable(u, systemChatId)
  }

  /** The qualifying admins, in the snapshot's order. */
  function AdminRecipients(kind: Kind, p: Payload, users: seq<User>, eligible: (Kind, User, Payload) -> bool,
                           systemChatId: string): (r: seq<User>)
    ensures |r| <= |users|
    ensures forall u :: u in r ==> u in users && QualifiedAdmin(kind, p, eligible, systemChatId, u)
  {
    if users == [] then []
    else (if QualifiedAdmin(kind, p, eligible, systemChatId, users[0]) then [users[0]] else [])
         + AdminRecipients(kind, p, users[1..], eligible, systemChatId)
  }

  /** No qualifying admin of the snapshot is left out. */
  lemma {:induction false} AdminRecipientsComplete(kind: Kind, p: Payload, users: seq<User>,
                                                   eligible: (Kind, User, Payload) -> bool, systemChatId: string, u: User)
    requires u in users && QualifiedAdmin(kind, p, eligible, systemChatId, u)
    ensures u in AdminRecipients(kind, p, users, eligible, systemChatId)
  {
    if users[0] != u {
      AdminRecipientsComplete(kind, p, users[1..], eligible, systemChatId, u);
    }
  }

  function Destinations(us: seq<User>): (r: seq<Destination>)
    requires forall u :: u in us ==> u.settings.Some?
    ensures |r| == |us|
  {
    if us == [] then [] else [UserDestination(us[0])] + Destinations(us[1..])
  }

  lemma {:induction false} DestinationAt(us: seq<User>, i: nat)
    requires forall u :: u in us ==> u.settings.Some?
    requires i < |us|
    ensures Destinations(us)[i] == UserDestination(us[i])
  {
    if i > 0 {
      DestinationAt(us[1..], i - 1);
    }
  }

  /** The first admin of the snapshot contributes one delivery iff they qualify. */
  lemma AdminHeadPlan(kind: Kind, p: Payload, u: User, eligible: (Kind, User, Payload) -> bool, systemChatId: string)
    ensures var head := if WantsKind(u, kind) && eligible(kind, u, p) then [u] else [];
      AdminPlan(head, systemChatId)
        == if QualifiedAdmin(kind, p, eligible, systemChatId, u) then [UserDestination(u)] else []
  {
    var head := if WantsKind(u, kind) && eligible(kind, u, p) then [u] else [];
    if head != [] {
      assert head[1..] == [];
    }
  }

  /**
   * The fan-out (filter, then a delivery for each admin with a chat) attempts
   * exactly one delivery per qualifying admin, in order.
   */
  lemma {:induction false} AdminFanOut(kind: Kind, p: Payload, users: seq<User>,
                                       eligible: (Kind, User, Payload) -> bool, systemChatId: string)
    ensures AdminPlan(AdminFilter(kind, p, users, eligible), systemChatId)
         == Destinations(AdminRecipients(kind, p, users, eligible, systemChatId))
  {
    if users != [] {
      var u := users[0];
      var head := if WantsKind(u, kind) && eligible(kind, u, p) then [u] else [];
      var qualified := if QualifiedAdmin(kind, p, eligible, systemChatId, u) then [u] else [];
      var filtered := AdminFilter(kind, p, users[1..], eligible);
      var rest := AdminRecipients(kind, p, users[1..], eligible, systemChatId);
      assert AdminFilter(kind, p, users, eligible) == head + filtered;
      assert AdminRecipients(kind, p, users, eligible, systemChatId) == qualified + rest;
      AdminPlanAppend(head, filtered, systemChatId);
      AdminHeadPlan(kind, p, u, eligible, systemChatId);
      AdminFanOut(kind, p, users[1..], eligible, systemChatId);
      if qualified == [] {
        assert qualified + rest == rest;
      } else {
        assert (qualified + rest)[1..] == rest;
        assert Destinations(qualified + rest) == [UserDestination(u)] + Destinations(rest);
      }
    }
  }

  /** How many planned deliveries go to a chat. */
  function CountChat(ds: seq<Destination>, chatId: string): nat {
    if ds == [] then 0 else (if ds[0].chatId == chatId then 1 else 0) + CountChat(ds[1..], chatId)
  }

  lemma {:induction false} CountChatAppend(a: seq<Destination>, b: seq<Destination>, chatId: string)
    ensures CountChat(a + b, chatId) == CountChat(a, chatId) + CountChat(b, chatId)
  {
    if a == [] {
      assert a + b == b;
    } else {
      assert (a + b)[0] == a[0];
      assert (a + b)[1..] == a[1..] + b;
      CountChatAppend(a[1..], b, chatId);
    }
  }

  lemma {:induction false} CountChatMember(ds: seq<Destination>, d: Destination)
    requires d in ds
    ensures CountChat(ds, d.chatId) >= 1
  {
    if ds[0] != d {
      CountChatMember(ds[1..], d);
    }
  }

  lemma {:induction false} AdminPlanAvoidsSystemChat(admins: seq<User>, systemChatId: string)
    ensures CountChat(AdminPlan(admins, systemChatId), systemChatId) == 0
  {
    if admins != [] {
      var head := if Reachable(admins[0], systemChatId) then [UserDestination(admins[0])] else [];
      AdminPlanAvoidsSystemChat(admins[1..], systemChatId);
      CountChatAppend(head, AdminPlan(admins[1..], systemChatId), systemChatId);
    }
  }

  /**
   * Dedup by destination: the configured system chat receives at most one
   * delivery per event, and that only from the system branch.
   */
  lemma SystemChatAtMostOnce(kind: Kind, p: Payload, s: TelegramSettings, users: seq<User>,
                             eligible: (Kind, User, Payload) -> bool)
    ensures CountChat(Plan(kind, p, s, users, eligible), s.options.chatId) == |SystemPlan(kind, p, s)| <= 1
  {
    var chat := s.options.chatId;
    var admins := if p.notifyAdmin then AdminPlan(AdminFilter(kind, p, users, eligible), chat) else [];
    AdminPlanAvoidsSystemChat(AdminFilter(kind, p, users, eligible), chat);
    CountChatAppend(SystemPlan(kind, p, s), UserPlan(kind, p, s), chat);
    CountChatAppend(SystemPlan(kind, p, s) + UserPlan(kind, p, s), admins, chat);
  }

  /**
   * There is no dedup between the direct user and the admins: a notified user
   * who is also a qualifying admin gets two deliveries to the same chat.
   */
  lemma UserAndAdminNotDeduplicated(kind: Kind, p: Payload, s: TelegramSettings, users: seq<User>,
                                    eligible: (Kind, User, Payload) -> bool)
    requires p.notifyUser.Some? && p.notifyAdmin && p.notifyUser.value in users
    requires QualifiedAdmin(kind, p, eligible, s.options.chatId, p.notifyUser.value)
    ensures CountChat(Plan(kind, p, s, users, eligible), p.notifyUser.value.settings.value.telegramChatId) >= 2
  {
    var u := p.notifyUser.value;
    var chat := u.settings.value.telegramChatId;
    var admins := AdminPlan(AdminFilter(kind, p, users, eligible), s.options.chatId);
    AdminFanOut(kind, p, users, eligible, s.options.chatId);
    var recipients := AdminRecipients(kind, p, users, eligible, s.options.chatId);
    AdminRecipientsComplete(kind, p, users, eligible, s.options.chatId, u);
    var i :| 0 <= i < |recipients| && recipients[i] == u;
    DestinationAt(recipients, i);
    assert admins[i] == UserDestination(u);
    CountChatMember(admins, UserDestination(u));
    assert UserPlan(kind, p, s) == [UserDestination(u)];
    CountChatAppend(SystemPlan(kind, p, s), UserPlan(kind, p, s), chat);
    CountChatAppend(SystemPlan(kind, p, s) + UserPlan(kind, p, s), admins, chat);
  }

  // ---------------------------------------------------------------------------
  // Delivery

  /** One HTTP post to the Bot API: the endpoint, the rendered message and its destination. */
  datatype Attempt = Attempt(endpoint: string, body: Rendered, parseMode: string, destination: Destination)

  /** The posts for a list of destinations, all carrying the same endpoint and message. */
  function Stamp(endpoint: string, body: Rendered, ds: seq<Destination>): (r: seq<Attempt>)
    ensures |r| == |ds|
  {
    if ds == [] then [] else [Attempt(endpoint, body, ParseMode, ds[0])] + Stamp(endpoint, body, ds[1..])
  }

  lemma {:induction false} StampAppend(endpoint: string, body: Rendered, a: seq<Destination>, b: seq<Destination>)
    ensures Stamp(endpoint, body, a + b) == Stamp(endpoint, body, a) + Stamp(endpoint, body, b)
  {
    if a == [] {
      assert a + b == b;
    } else {
      assert (a + b)[0] == a[0];
      assert (a + b)[1..] == a[1..] + b;
      StampAppend(endpoint, body, a[1..], b);
    }
  }

  /**
   * The network as the agent sees it: every attempted post, in order, and
   * whether it succeeded. Success is not up to the agent.
   */
  class Outbox {
    var attempts: seq<Attempt>
    var outcomes: seq<bool>

    ghost predicate Valid()
      reads this
    {
      |outcomes| == |attempts|
    }

    constructor ()
      ensures Valid() && attempts == [] && outcomes == []
    {
      attempts := [];
      outcomes := [];
    }

    /** `axios.post`: records the attempt; it succeeds or fails independently of everything else. */
    method Post(a: Attempt) returns (ok: bool)
      requires Valid()
      modifies this
      ensures Valid()
      ensures attempts == old(attempts) + [a]
      ensures outcomes == old(outcomes) + [ok]
    {
      ok := *;
      attempts := attempts + [a];
      outcomes := outcomes + [ok];
    }
  }

  /** The `sendTelegram` closure: one post of the rendered message to one destination. */
  method SendTelegram(endpoint: string, body: Rendered, d: Destination, out: Outbox) returns (ok: bool)
    requires out.Valid()
    modifies out
    ensures out.Valid()
    ensures out.attempts == old(out.attempts) + Stamp(endpoint, body, [d])
    ensures out.outcomes == old(out.outcomes) + [ok]
  {
    ok := out.Post(Attempt(endpoint, body, ParseMode, d));
  }

  /** The admin `map` step: one post per admin with a chat of their own, each whatever the others returned. */
  method FanOut(endpoint: string, body: Rendered, admins: seq<User>, systemChatId: string, out: Outbox)
    requires out.Valid()
    modifies out
    ensures out.Valid()
    ensures out.attempts == old(out.attempts) + Stamp(endpoint, body, AdminPlan(admins, systemChatId))
    ensures out.outcomes[..|old(out.outcomes)|] == old(out.outcomes)
  {
    var i := 0;
    while i < |admins|
      invariant 0 <= i <= |admins|
      invariant out.Valid()
      invariant out.attempts == old(out.attempts) + Stamp(endpoint, body, AdminPlan(admins[..i], systemChatId))
      invariant |old(out.outcomes)| <= |out.outcomes| && out.outcomes[..|old(out.outcomes)|] == old(out.outcomes)
    {
      var u := admins[i];
      ghost var done := AdminPlan(admins[..i], systemChatId);
      ghost var one: seq<Destination> := if Reachable(u, systemChatId) then [UserDestination(u)] else [];
      assert AdminPlan(admins[..i + 1], systemChatId) == done + one by {
        assert admins[..i + 1] == admins[..i] + [u];
        AdminPlanAppend(admins[..i], [u], systemChatId);
        assert [u][0] == u && [u][1..] == [];
      }
      StampAppend(endpoint, body, done, one);
      if Reachable(u, systemChatId) {
        var ok := SendTelegram(endpoint, body, UserDestination(u), out);
      }
      i := i + 1;
    }
    assert admins[..|admins|] == admins;
  }

  /** The system branch of `send`. */
  method NotifySystem(endpoint: string, body: Rendered, kind: Kind, p: Payload, s: TelegramSettings, out: Outbox)
    requires out.Valid()
    modifies out
    ensures out.Valid()
    ensures out.attempts == old(out.attempts) + Stamp(endpoint, body, SystemPlan(kind, p, s))
    ensures out.outcomes[..|old(out.outcomes)|] == old(out.outcomes)
  {
    if p.notifySystem && kind in s.types && s.options.chatId != "" {
      var ok := SendTelegram(endpoint, body, SystemDestination(s), out);
    } else {
      assert Stamp(endpoint, body, []) == [];
      assert out.attempts == old(out.attempts) + [];
    }
  }

  /** The direct-user branch of `send`. */
  method NotifyUser(endpoint: string, body: Rendered, kind: Kind, p: Payload, s: TelegramSettings, out: Outbox)
    requires out.Valid()
    modifies out
    ensures out.Valid()
    ensures out.attempts == old(out.attempts) + Stamp(endpoint, body, UserPlan(kind, p, s))
    ensures out.outcomes[..|old(out.outcomes)|] == old(out.outcomes)
  {
    if p.notifyUser.Some? && WantsKind(p.notifyUser.value, kind) && Reachable(p.notifyUser.value, s.options.chatId) {
      var ok := SendTelegram(endpoint, body, UserDestination(p.notifyUser.value), out);
    } else {
      assert Stamp(endpoint, body, []) == [];
      assert out.attempts == old(out.attempts) + [];
    }
  }

  /** The admin branch of `send`. */
  method NotifyAdmins(endpoint: string, body: Rendered, kind: Kind, p: Payload, s: TelegramSettings,
                      users: seq<User>, eligible: (Kind, User, Payload) -> bool, out: Outbox)
    requires out.Valid()
    modifies out
    ensures out.Valid()
    ensures out.attempts == old(out.attempts)
      + Stamp(endpoint, body, if p.notifyAdmin then AdminPlan(AdminFilter(kind, p, users, eligible), s.options.chatId) else [])
    ensures out.outcomes[..|old(out.outcomes)|] == old(out.outcomes)
  {
    if p.notifyAdmin {
      FanOut(endpoint, body, AdminFilter(kind, p, users, eligible), s.options.chatId, out);
    } else {
      assert out.attempts == old(out.attempts) + [];
    }
  }

  /** The attempts of a whole plan are those of its three branches in order. */
  lemma StampPlan(endpoint: string, body: Rendered, kind: Kind, p: Payload, s: TelegramSettings,
                  users: seq<User>, eligible: (Kind, User, Payload) -> bool)
    ensures Stamp(endpoint, body, Plan(kind, p, s, users, eligible))
      == Stamp(endpoint, body, SystemPlan(kind, p, s)) + Stamp(endpoint, body, UserPlan(kind, p, s))
       + Stamp(endpoint, body, if p.notifyAdmin then AdminPlan(AdminFilter(kind, p, users, eligible), s.options.chatId) else [])
  {
    var system, direct := SystemPlan(kind, p, s), UserPlan(kind, p, s);
    var admins := if p.notifyAdmin then AdminPlan(AdminFilter(kind, p, users, eligible), s.options.chatId) else [];
    assert Plan(kind, p, s, users, eligible) == system + direct + admins;
    StampAppend(endpoint, body, system, direct);
    StampAppend(endpoint, body, system + direct, admins);
  }

  lemma Regroup<T>(a: seq<T>, b: seq<T>, c: seq<T>, d: seq<T>)
    ensures a + b + c + d == a + (b + c + d)
  {
  }

  /** Attempts every delivery of the plan, in plan order, with one endpoint and body. */
  method Deliver(endpoint: string, body: Rendered, kind: Kind, p: Payload, s: TelegramSettings,
                 users: seq<User>, eligible: (Kind, User, Payload) -> bool, out: Outbox)
    requires out.Valid()
    modifies out
    ensures out.Valid()
    ensures out.attempts == old(out.attempts) + Stamp(endpoint, body, Plan(kind, p, s, users, eligible))
    ensures out.outcomes[..|old(out.outcomes)|] == old(out.outcomes)
  {
    ghost var start := out.attempts;
    ghost var system := Stamp(endpoint, body, SystemPlan(kind, p, s));
    ghost var direct := Stamp(endpoint, body, UserPlan(kind, p, s));
    ghost var admins := Stamp(endpoint, body,
      if p.notifyAdmin then AdminPlan(AdminFilter(kind, p, users, eligible), s.options.chatId) else []);
    NotifySystem(endpoint, body, kind, p, s, out);
    NotifyUser(endpoint, body, kind, p, s, out);
    NotifyAdmins(endpoint, body, kind, p, s, users, eligible, out);
    assert out.attempts == start + system + direct + admins;
    StampPlan(endpoint, body, kind, p, s, users, eligible);
    Regroup(start, system, direct, admins);
  }

  /**
   * `send`: renders once, then attempts the system, direct-user and admin
   * deliveries in that order over a snapshot of the users. Every planned
   * delivery is attempted whatever the earlier ones returned, and the result
   * is always true.
   */
  method Send(agent: TelegramAgent, global: Settings, kind: Kind, p: Payload, users: seq<User>,
              eligible: (Kind, User, Payload) -> bool, typeName: IssueType -> string, out: Outbox)
    returns (result: bool)
    requires out.Valid()
    modifies out
    ensures out.Valid()
    ensures out.attempts == old(out.attempts)
      + Stamp(Endpoint(GetSettings(agent, global).options.botAPI, p), Render(kind, p, global.main, typeName),
              Plan(kind, p, GetSettings(agent, global), users, eligible))
    ensures result
    ensures out.outcomes[..|old(out.outcomes)|] == old(out.outcomes)
  {
    var settings := GetSettings(agent, global);
    var endpoint := Endpoint(settings.options.botAPI, p);
    var body := Render(kind, p, global.main, typeName);
    Deliver(endpoint, body, kind, p, settings, users, eligible, out);
    result := true;
  }
}
