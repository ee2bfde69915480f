# Telegram notifications for issues, modelled in Dafny

This project models two parts of the media server's notification pipeline:

- **The Telegram notification agent.** It is on or off through its settings, which come from the global configuration or from an override given at construction. It renders a notification payload as Telegram MarkdownV2 text:
  - a bold subject line;
  - the message;
  - at most one context block (request, comment or issue) with the request-status table;
  - the extras;
  - a deep link into the application.

  The rendered result is either a photo with a caption of at most 1024 characters or a text message. The agent then delivers it to the system chat, to the directly affected user and to every eligible admin. A user or admin is skipped when their chat is the system chat.
- **The two issue event producers.** They decide which notification an issue insert, an issue status change or a new issue comment raises, and build the payload the agent receives.

The modules are:

- `Model` (model.dfy): the notification kinds and the entities (user and their Telegram preferences, media, issue, comment, request). It also holds the channel-agnostic `Payload` and a `NotificationManager` log that the producers dispatch into.
- `Markup` (markup.dfy): the agent's MarkdownV2 escape, the caption bound and the decimal rendering of ids. It also gives a reader for MarkdownV2 text, following the Bot API's "MarkdownV2 style" rules, so that the model can state what escaping achieves.
- `Telegram` (telegram.dfy): the settings gate, the renderer, the recipient plan and `send`. `send` is an imperative method that appends one attempt per delivery to an `Outbox` log. Each attempt's success is nondeterministic.
- `IssueCommon` (issue_common.dfy): what both producers share. That is the TMDB title and poster, the issue-type prefix and the first comment in id order.
- `IssueSubscriber` (issue_subscriber.dfy) and `IssueCommentSubscriber` (issue_comment_subscriber.dfy): the producers, as methods that dispatch into a `NotificationManager`. Each method is specified by a function that gives the dispatches it makes.
- `EndToEnd` (end_to_end.dfy): what the agent renders and plans for the producers' payloads.

Some behaviour is taken as input rather than computed:

- The repository and TMDB lookups are functions passed in. A `None` result stands for a lookup that throws.
- The translated labels are a `Labels` record.
- `IssueTypeName` is a function `typeName`.
- The admin eligibility test (`shouldSendAdminNotification`) is a function `eligible`.
- A user's permission to manage issues is a boolean field.
- A Telegram preference mask is the set of kinds it contains.

## Model

| member | source | states |
|---|---|---|
| `Telegram.ShouldSend` | server/lib/notifications/agents/telegram.ts:50-54 | the agent runs iff its settings are enabled and carry a bot token |
| `Telegram.OverrideTakesPrecedence` | server/lib/notifications/agents/telegram.ts:40-48 | with override settings, the global settings change neither the settings read nor whether the agent runs |
| `Markup.Escape` | server/lib/notifications/agents/telegram.ts:56-58 | the escaped text is the input's length plus one per reserved character; text with no reserved character is unchanged |
| `Markup.EscapeText` | server/lib/notifications/agents/telegram.ts:56-58 | undefined or empty input gives "", other input a non-empty result with one extra character per reserved one |
| `Markup.EscapedReservedArePreceded` | server/lib/notifications/agents/telegram.ts:56-58 | every reserved character of the output is directly preceded by a backslash |
| `Markup.EscapeAppend` | server/lib/notifications/agents/telegram.ts:56-58 | escaping acts character by character: it distributes over concatenation |
| `Markup.ReadEscaped` | server/lib/notifications/agents/telegram.ts:56-58 | for text without backslash or backtick, a MarkdownV2 reader reads the escaped text back as the original |
| `Markup.BoldReadsBack` | server/lib/notifications/agents/telegram.ts:72-74 | such text wrapped in `*…*` reads back as one bold span with that text, whatever follows |
| `Markup.BacktickBreaksBold` | server/lib/notifications/agents/telegram.ts:56-58 | a backtick is not escaped, so a subject "a`" makes the bold span unreadable |
| `Markup.BackslashIsSwallowed` | server/lib/notifications/agents/telegram.ts:56-58 | a backslash is not escaped, so a subject "a\b" reads back as "ab" |
| `Markup.TrailingBackslashUnclosesBold` | server/lib/notifications/agents/telegram.ts:56-58 | a subject ending in a backslash escapes the closing '*', so the bold span never closes |
| `Markup.TruncateCaption` | server/lib/notifications/agents/telegram.ts:60-64 | a caption within the bound is unchanged; a longer one keeps its first bound−3 characters and ends in "...", exactly the bound long (JavaScript clamping below 3) |
| `Markup.Decimal` | server/lib/notifications/agents/telegram.ts:132-138 | an id renders as a non-empty digit string with no leading zero |
| `Markup.DecimalRoundTrip` | server/lib/notifications/agents/telegram.ts:132-138 | the digits of an id read back as that id |
| `Markup.DecimalInjective` | server/lib/notifications/agents/telegram.ts:132-138 | distinct ids render to distinct digit strings |
| `Telegram.StatusTable` | server/lib/notifications/agents/telegram.ts:85-113 | each status label, in both directions: which kinds (and media status, for auto-requested) give it, and that exactly the kinds outside the table give no status line |
| `Telegram.StatusLineOnlyForRequests` | server/lib/notifications/agents/telegram.ts:80-113 | a request block has a status line iff its kind is in the status table |
| `Telegram.ContextPrecedence` | server/lib/notifications/agents/telegram.ts:80-126 | a request hides comment and issue, a comment hides the issue, and there is no block iff none of the three is present |
| `Telegram.ExtrasInOrder` | server/lib/notifications/agents/telegram.ts:128-130 | the extras' lines follow the sequence order: the lines of a concatenation are the concatenated lines |
| `Telegram.LinkTarget` | server/lib/notifications/agents/telegram.ts:132-144 | a link exists iff the application URL is set and there is an issue or media; it ends in the issue id, or in the media type and TMDB id, read back exactly |
| `Telegram.SubjectReadsBack` | server/lib/notifications/agents/telegram.ts:72-78 | the rendered message opens with a bold span whose text is "event - subject", or the subject alone |
| `Telegram.Render` | server/lib/notifications/agents/telegram.ts:146-155 | photo iff the image is truthy, carrying that image; the caption is `truncateCaption` of the message: at most 1024 characters and the whole message when that fits; a text result is the whole message, untruncated |
| `Telegram.LongCaptionTruncated` | server/lib/notifications/agents/telegram.ts:146-149 | a photo message over 1024 characters goes out as its first 1021 characters and "...", exactly 1024 long |
| `Telegram.EndpointMatchesRender` | server/lib/notifications/agents/telegram.ts:163-165 | the endpoint is the bot URL (ending in the literal "/$") followed by "sendPhoto" iff the message renders as a photo, else by "sendMessage" |
| `Telegram.ThreadField` | server/lib/notifications/agents/telegram.ts:168-177 | a thread id is attached iff it is present and non-zero, and then unchanged |
| `Telegram.AdminRecipients` | server/lib/notifications/agents/telegram.ts:218-245 | every admin recipient is a user of the snapshot who wants the kind, passes the admin test and has a chat other than the system chat |
| `Telegram.AdminRecipientsComplete` | server/lib/notifications/agents/telegram.ts:218-245 | no such user of the snapshot is left out |
| `Telegram.AdminFanOut` | server/lib/notifications/agents/telegram.ts:218-245 | filtering and then mapping gives exactly one delivery per qualifying admin, in snapshot order |
| `Telegram.AdminPlanAppend` | server/lib/notifications/agents/telegram.ts:231-243 | each admin's delivery depends on that admin alone |
| `Telegram.AdminPlanAvoidsSystemChat` | server/lib/notifications/agents/telegram.ts:231-234 | no admin delivery goes to the configured system chat, whether or not the system branch fired |
| `Telegram.SystemChatAtMostOnce` | server/lib/notifications/agents/telegram.ts:189-245 | the system chat receives at most one delivery per event, the system branch's |
| `Telegram.UserAndAdminNotDeduplicated` | server/lib/notifications/agents/telegram.ts:201-245 | a notified user who is also a qualifying admin receives two deliveries in the same chat |
| `Telegram.Stamp` | server/lib/notifications/agents/telegram.ts:168-177 | one post per destination |
| `Telegram.StampAppend` | server/lib/notifications/agents/telegram.ts:168-177 | the posts of a concatenation of destinations are the concatenated posts |
| `Telegram.Outbox.Post` | server/lib/notifications/agents/telegram.ts:170-177 | a post appends its attempt and an arbitrary outcome to the log |
| `Telegram.SendTelegram` | server/lib/notifications/agents/telegram.ts:168-187 | exactly one attempt, to the given destination with the shared endpoint, message and parse mode; its outcome is recorded and returned |
| `Telegram.NotifySystem` | server/lib/notifications/agents/telegram.ts:189-199 | the system chat gets a post iff notifySystem, the kind is subscribed and a chat id is set; earlier outcomes are kept |
| `Telegram.NotifyUser` | server/lib/notifications/agents/telegram.ts:201-216 | the notified user gets a post iff they want the kind and have a chat other than the system chat; earlier outcomes are kept |
| `Telegram.FanOut` | server/lib/notifications/agents/telegram.ts:227-244 | the admin loop posts to each filtered admin with a chat other than the system chat, in order, whatever each post returned; earlier outcomes are kept |
| `Telegram.NotifyAdmins` | server/lib/notifications/agents/telegram.ts:218-245 | with notifyAdmin, the fan-out over the filtered snapshot; otherwise nothing; earlier outcomes are kept |
| `Telegram.StampPlan` | server/lib/notifications/agents/telegram.ts:189-245 | the posts of the whole plan are the system, user and admin posts in that order |
| `Telegram.Deliver` | server/lib/notifications/agents/telegram.ts:189-245 | the log grows by exactly the posts of the plan, in plan order; earlier outcomes are kept |
| `Telegram.Send` | server/lib/notifications/agents/telegram.ts:158-248 | one endpoint and one rendered message for every planned delivery, all attempted in plan order; the result is true; earlier outcomes are kept |
| `IssueCommon.Year` | server/subscriber/IssueSubscriber.ts:64-66 | `slice(0, 4)`: the first four characters of the date, or all of a shorter one |
| `IssueCommon.Title` | server/subscriber/IssueSubscriber.ts:64-73 | the bare name without a date, else name + " (" + year + ")" |
| `IssueCommon.TitleShape` | server/subscriber/IssueCommentSubscriber.ts:82-92 | the title starts with the name, equals it iff there is no date, and otherwise ends in ")" |
| `IssueCommon.TypePrefix` | server/subscriber/IssueSubscriber.ts:97-101 | the prefix is empty iff the type is OTHER, else the type name and a space |
| `IssueCommon.FirstIndex` | server/subscriber/IssueSubscriber.ts:77 | the position `sortBy(comments, 'id')` puts first: a lowest id, no earlier comment with that id |
| `IssueCommon.FirstComment` | server/subscriber/IssueCommentSubscriber.ts:95 | no first comment iff there are no comments, else the comment at that position |
| `IssueCommon.FirstCommentIsMinimum` | server/subscriber/IssueCommentSubscriber.ts:95-97 | with distinct ids, a comment is the first iff its id is the lowest |
| `IssueCommon.PositiveString` | server/subscriber/IssueSubscriber.ts:80-90 | `toString()` of a positive season or episode gives digits, without a leading zero, that read back as it |
| `IssueSubscriber.UpdateKind` | server/subscriber/IssueSubscriber.ts:151-167 | RESOLVED iff the issue became resolved, REOPENED iff it became open |
| `IssueSubscriber.UpdateKindOnChange` | server/subscriber/IssueSubscriber.ts:146-168 | an update raises a kind iff the status changed, and never ISSUE_CREATED |
| `IssueSubscriber.IssueEventShape` | server/subscriber/IssueSubscriber.ts:95-112 | the event ends with the kind's label, equals it iff the type is OTHER, and is otherwise type name + " " + label |
| `IssueSubscriber.AffectedExtrasContents` | server/subscriber/IssueSubscriber.ts:78-92 | no extras unless TV with a season; then the season entry first, and the episode entry second iff there is an episode, each the digits of its number without a leading zero |
| `IssueSubscriber.IssueNotifyUser` | server/subscriber/IssueSubscriber.ts:121-127 | only the reporter can be notified directly |
| `IssueSubscriber.IssueNotifyUserRule` | server/subscriber/IssueSubscriber.ts:121-127 | the reporter is notified iff they lack MANAGE_ISSUES, did not make the change and the kind is RESOLVED or REOPENED; never on creation |
| `IssueSubscriber.IssueDispatches` | server/subscriber/IssueSubscriber.ts:55-136 | at most one dispatch, of the given kind, made iff the TMDB lookup succeeds and the issue has a comment to quote |
| `IssueSubscriber.IssuePayloadTargets` | server/subscriber/IssueSubscriber.ts:77-120 | a dispatched payload targets admins and the system chat, carries the issue and its media, quotes a lowest-id comment, has the TMDB title as subject and the TMDB poster as image, and carries the event label, the affected extras and the reporter rule's recipient |
| `IssueSubscriber.InsertDispatches` | server/subscriber/IssueSubscriber.ts:138-144 | no entity, no dispatch; otherwise only ISSUE_CREATED |
| `IssueSubscriber.UpdateDispatches` | server/subscriber/IssueSubscriber.ts:146-168 | at most one dispatch per update, none without a status change, and of the kind the new status calls for |
| `IssueSubscriber.SendIssueNotification` | server/subscriber/IssueSubscriber.ts:55-136 | the manager's log grows by exactly the issue's dispatches |
| `IssueSubscriber.AfterInsert` | server/subscriber/IssueSubscriber.ts:138-144 | the log grows by exactly the insert's dispatches |
| `IssueSubscriber.BeforeUpdate` | server/subscriber/IssueSubscriber.ts:146-168 | the log grows by the update's dispatches; the call throws iff there is an entity but no stored one |
| `IssueCommentSubscriber.CommentEventShape` | server/subscriber/IssueCommentSubscriber.ts:100-104 | "New Comment on" + " " opens the event and "Issue" closes it; the type name sits between them iff the type is not OTHER |
| `IssueCommentSubscriber.CommentNotifyUser` | server/subscriber/IssueCommentSubscriber.ts:113-117 | the reporter is notified iff they lack MANAGE_ISSUES and did not write the comment |
| `IssueCommentSubscriber.CommentDispatches` | server/subscriber/IssueCommentSubscriber.ts:58-130 | at most one dispatch, always ISSUE_COMMENT, made iff the issue, user, media and TMDB lookups all succeed, the issue has comments and this comment is not its first |
| `IssueCommentSubscriber.FirstCommentSkipped` | server/subscriber/IssueCommentSubscriber.ts:95-97 | with every lookup succeeding and distinct ids, a comment dispatches nothing iff it has the issue's lowest id |
| `IssueCommentSubscriber.CommentPayloadTargets` | server/subscriber/IssueCommentSubscriber.ts:97-118 | a dispatched payload carries the comment, its issue and the looked-up media and targets admins and the system chat; it quotes the first comment, which is not this one, uses the reporter rule, and has the TMDB title and poster |
| `IssueCommentSubscriber.SendIssueCommentNotification` | server/subscriber/IssueCommentSubscriber.ts:58-130 | the manager's log grows by exactly the comment's dispatches |
| `IssueCommentSubscriber.AfterInsert` | server/subscriber/IssueCommentSubscriber.ts:132-138 | no entity, no dispatch; otherwise the comment's dispatches |
| `EndToEnd.CommentRendersCommentBlockAndIssueLink` | server/lib/notifications/agents/telegram.ts:114-138 | a comment notification renders the comment block, not the issue block, and links to /issues/{issue id} |
| `EndToEnd.IssueRendersIssueBlockAndLink` | server/lib/notifications/agents/telegram.ts:118-134 | an issue notification renders the reporter, type and Open/Resolved status and links to the issue |
| `EndToEnd.ProducerPayloadsArePhotos` | server/lib/notifications/agents/telegram.ts:146-165 | a payload with the TMDB poster renders as a photo with a caption of at most 1024 characters, sent to the photo endpoint |
| `EndToEnd.IssueNotificationIsPhoto` | server/subscriber/IssueSubscriber.ts:117 | issue notifications always go out as photos with bounded captions |
| `EndToEnd.CommentNotificationIsPhoto` | server/subscriber/IssueCommentSubscriber.ts:110 | comment notifications always go out as photos with bounded captions |
| `EndToEnd.CommentReporterAlsoAdminGetsTwo` | server/subscriber/IssueCommentSubscriber.ts:111-117 | a reporter who is also a qualifying admin gets the comment notification twice in their chat |

## Left out

- HTTP delivery (`axios.post`) is a log append whose success is arbitrary. Error logging, the `Promise.all` concurrency and the un-awaited producer calls are not modelled: the admin fan-out is a sequential loop over a fixed snapshot of users.
- Settings loading and the user repository's `find` are parameters: a `Settings` record and a `users` sequence.
- `hasNotificationType` and the user's Telegram preference check are membership in a set of kinds. `shouldSendAdminNotification` is a parameter `eligible`. `hasPermission(MANAGE_ISSUES)` is a boolean field of the user. `IssueTypeName` is a parameter `typeName`. None of these four is part of this model.
- The configured thread ids are taken as the numbers `Number()` made of them (None for unset or NaN). String-to-number conversion is not modelled.
- Lengths are counted in `seq<char>` elements. JavaScript counts UTF-16 code units, so truncation can split a surrogate pair there and not here.
- The TMDB lookups (`getMovie`/`getTvShow`) and the repository lookups (`findOneOrFail`) are parameters; a failed lookup is `None` and stands for the thrown error. The poster path is a string, and an absent one is not modelled (JavaScript would render it as "undefined").
- The translated labels are a `Labels` record. In server/subscriber/IssueSubscriber.ts the label call at line 107 has a mismatched bracket, so the file does not parse. Its callers at lines 143, 157 and 165 omit the `intl` argument, so at run time every label call would throw and no issue notification would be dispatched. The model follows the evident intent: labels are available.
- `IssueCommentSubscriber.AfterInsert`: server/subscriber/IssueCommentSubscriber.ts:132 declares `afterInsert(intl, event)`, but the subscriber interface passes the event as the only argument. As written, `event` is undefined, the guard at line 133 throws, and no comment notification is ever built. The model takes the event's entity as its argument, following the evident intent.
- `IssueSubscriber.BeforeUpdate`: the entity of an update event is taken to be a complete issue. A missing stored entity makes the call throw (`thrown`); what TypeORM then does with the update is not modelled.
- The issue's media and comments are taken as loaded with the issue, as the relations the code reads require.
- `Telegram.SubjectReadsBack`: assumes the heading has no backslash or backtick, because the code's escape set leaves those two characters bare. `Markup.BacktickBreaksBold`, `Markup.BackslashIsSwallowed` and `Markup.TrailingBackslashUnclosesBold` show what happens otherwise. The rest of the model keeps the code's set.
- `Markup.ReadEscaped`: covers text without backslash or backtick, for the same reason.
- The Telegram response body, the `logger` calls and the TypeORM subscriber wiring (`listenTo`, decorators) are not modelled.
