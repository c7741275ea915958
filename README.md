# Recipient resolution for list and todo push notifications

This project models the core of the notification fan-out layer of a shared
to-do / shopping list app: the Firebase trigger handlers that react to a
todo (or shopping item) being created, completed or purchased, or deleted,
to members joining or leaving a list, and to chat messages. Each handler
decides which list members get a push notification. It validates the event,
reads the list's members, walks them skipping the acting user, if there is one, collects the
`fcmToken` of every member who has one, and makes a single
`sendEachForMulticast` call unless nothing was collected.

Two revisions of the same code are modelled:

- `legacy.dfy` (module `Legacy`) is `functions/src/index.ts`. Every handler
  inlines the token loop; the list field is `members`.
- `notifications.dfy` (module `Notifications`) is `functions/lib/index.js`.
  The loop is factored into `getMemberTokens` / `getFilteredMemberTokens`,
  which also apply per-user, per-type notification preferences that fail
  open. A todo with an assignee notifies only the assignee. The list field
  is `allUserIds`.
- `documents.dfy` (module `Documents`) models the document store and the
  provider. The store is immutable maps: a missing key is a document that
  does not exist. Fields are optional strings, and JavaScript truthiness and
  `||` are stated explicitly. The provider call is the `Multicast` outcome
  of a handler; every early return is a `Skipped` outcome with its reason.
- `sequences.dfy` (module `Sequences`) holds the order-preserving `Filter`
  that every loop and every `filter(... includes ...)` is an instance of.
  It also holds the facts about it: membership, order, multiplicity.
- `revisions.dfy` (module `Revisions`) relates the two revisions.

The token loops are methods with loop invariants. Each one is proved equal
to `TokensOf(users, Filter(members, test))`. The handlers are methods that
change nothing. Each returns its `Dispatch` and, as a ghost value, the
member ids whose tokens it collected. Their contracts state every early
exit, the exact recipients, and the no-self-notification and delta rules.

The code has no set semantics for recipients, no provider-sized batches, no
chunked multi-get lookups and no per-token delivery report. The model
follows the code. Member
lists are sequences, so a member listed twice contributes their token twice
(`Legacy.ContributorsInMemberOrder`). Every member is looked up on its own,
and all tokens go into one multicast call.

## Model

| member | source | states |
|---|---|---|
| `Legacy.CollectTokens` | functions/src/index.ts:36-49 | The token loop (the same loop is at 121-134, 205-216, 282-291, 357-366, 579-590, 668-679, 753-764 and 835-846). It returns exactly the tokens of the members that are not the actor and have a user document with a truthy token, in member order. |
| `Legacy.ContributorsExactly` | functions/src/index.ts:38-46 | A member contributes if and only if they are listed, are not the acting user, and their user document exists with a truthy `fcmToken`. |
| `Legacy.ContributorsInMemberOrder` | functions/src/index.ts:38-49 | Contributors keep member order: the contributors of a concatenation are the contributors of its parts. Multiplicity is kept too: a contributing member occurs as often as listed. |
| `Legacy.CollectedTokensTruthy` | functions/src/index.ts:44-46 | No collected token is empty. |
| `Legacy.ChatBody` | functions/src/index.ts:615 | The chat body is the message when it has at most 50 characters. Otherwise it is the first 50 characters followed by `...`. It never exceeds 53 characters. |
| `Legacy.OnItemCreated` | functions/src/index.ts:13-57 | Created todo or shopping item (the second copy is at 643-687). A missing item, creator or list id is invalid, and a missing list is a no-op. Otherwise the recipients are the list members other than the creator. The multicast happens exactly when some recipient has a token. |
| `Legacy.OnItemDone` | functions/src/index.ts:94-142 | Completed todo or purchased item (the second copy is at 724-772). It fires only on a false-to-true edge of the flag. The actor is `completedBy` (or `purchasedBy`), falling back to `createdBy`, and the actor is never a recipient. A falsy list id aborts, and so does a missing list. |
| `Legacy.OnItemDeleted` | functions/src/index.ts:180-224 | Deleted todo or shopping item (the second copy is at 810-854). The actor is `deletedBy` falling back to `createdBy`. It must be truthy, as must the list id. The actor is never a recipient. |
| `Legacy.OnListMemberAdded` | functions/src/index.ts:261-299 | It does nothing unless the `after` members not in `before` are non-empty. Tokens come only from `before` members, so no newly added member is notified. |
| `Legacy.OnListMemberRemoved` | functions/src/index.ts:336-374 | It does nothing unless the `before` members not in `after` are non-empty. Tokens come only from `after` members, so no removed member is notified. |
| `Legacy.OnChatMessageCreated` | functions/src/index.ts:527-611 | The sender is `userId` or else `senderId`. Missing fields abort before any lookup, and so do a missing todo, a todo without list id or title, and a missing list. The sender is never a recipient, and the body is the 53-character-bounded preview. |
| `Documents.Or` | functions/src/index.ts:106 | JavaScript `a || b` on optional ids gives `a` when it is truthy and `b` otherwise. The result is truthy if and only if one of them is. |
| `Documents.Send` | functions/src/index.ts:51-57 | The empty guard: a multicast is made if and only if the token list is non-empty, and it carries exactly those tokens. |
| `Documents.TokensOf` | functions/src/index.ts:43-45 | The tokens of a list of members, position by position. |
| `Sequences.Without` | functions/src/index.ts:274 | `xs.filter(m => !ys.includes(m))` holds exactly the elements of `xs` that are not in `ys`. |
| `Sequences.WithoutEmpty` | functions/src/index.ts:276 | The delta is empty if and only if every element of `xs` occurs in `ys`. |
| `Notifications.GetMemberTokens` | functions/lib/index.js:11-22 | It returns exactly the tokens of the members that are not excluded and have a truthy token, in member order. |
| `Notifications.GetListMembers` | functions/lib/index.js:24-28 | The result is `null` if and only if the list document does not exist. Otherwise it is `allUserIds`, or `[]` when that field is absent. |
| `Notifications.GetUserNotificationSettings` | functions/lib/index.js:31-66 | A stored value is kept, an explicit `false` included, and a value that is not stored is `true`. A failed read enables all five settings. So a type is off if and only if the user stored `false` for it. |
| `Notifications.SettingFor` | functions/lib/index.js:82-100 | The five `switch` cases: a recognised type maps to the setting whose tag it is. An unrecognised type matches no setting. |
| `Notifications.ShouldSend` | functions/lib/index.js:80-100 | The `switch` takes the matching setting, and any type it does not know is allowed. |
| `Notifications.GetFilteredMemberTokens` | functions/lib/index.js:69-110 | The loop returns exactly the tokens of the `Recipients`, in member order. |
| `Notifications.RecipientsExactly` | functions/lib/index.js:71-103 | A member's token is returned if and only if they are listed, not excluded, have a truthy token, and have the type enabled. |
| `Notifications.UnknownTypeAlwaysAllowed` | functions/lib/index.js:98-99 | For an unrecognised type, preferences are ignored and the result equals `getMemberTokens`. |
| `Notifications.UnreadableSettingsFailOpen` | functions/lib/index.js:55-65 | A listed, non-excluded member with a token whose settings read fails is still notified. |
| `Notifications.PreferencesOnlyNarrow` | functions/lib/index.js:69-110 | The filtered members are the `getMemberTokens` members filtered once more by the preference switch, so they are a subsequence of them. |
| `Notifications.DefaultsMatchMemberTokens` | functions/lib/index.js:37-54 | When no listed member stored `false` for the type, the filtered result equals `getMemberTokens`. |
| `Notifications.SendNotification` | functions/lib/index.js:116-123 | It sends if and only if some recipient remains after filtering, and then sends exactly their tokens. Every recipient is a target that is not excluded. |
| `Notifications.CreatedAudience` | functions/lib/index.js:145-155 | With a truthy assignee, the targets are exactly `[assignee]` and the exclude list is empty. Otherwise the targets are the list members and the exclude list is `[userId]`. |
| `Notifications.OnTodoCreated` | functions/lib/index.js:134-160 | A missing todo, `userId` or `listId` is invalid, and a missing list is a no-op even when there is an assignee. With an assignee, the assignee is the only possible recipient, and any send goes to exactly the assignee, also when they created the todo. Without one, the creator is never a recipient. |
| `Notifications.OnTodoCompleted` | functions/lib/index.js:165-180 | It fires only on the `isCompleted` false-to-true edge and excludes `completedByUserId || userId`. A falsy list id aborts, and so does a missing list. |
| `Notifications.OnTodoDeleted` | functions/lib/index.js:185-197 | It excludes `deletedByUserId || userId`. A falsy list id aborts, and so does a missing list. |
| `Notifications.OnListMemberAdded` | functions/lib/index.js:202-212 | The targets are the `before` ids and the new ids are excluded. It does nothing on an empty delta, and recipients never include a new member. |
| `Notifications.OnListMemberRemoved` | functions/lib/index.js:217-227 | The targets are the `after` ids and the removed ids are excluded. It does nothing on an empty delta, and recipients never include a removed member. |
| `Notifications.DeltaExclusionIsRedundant` | functions/lib/index.js:206-224 | The delta and the targeted snapshot are disjoint, so excluding the delta selects the same recipients as excluding nobody. |
| `Revisions.InlineLoopIsMemberTokens` | functions/lib/index.js:11-22 | The older inline loop that skips the actor selects the same members as `getMemberTokens` with exclude list `[actor]`. |
| `Revisions.MemberAddedAgrees` | functions/lib/index.js:206-209 | With no preference switched off, the newer member-added recipients equal the older ones on the same member snapshot. |

## Left out

- Trigger registration and plumbing are not modelled: `onDocumentCreated/Updated/Deleted`, `onCall`, regions and `maxInstances`. An event with no snapshot is the `None` input of a handler.
- Notification titles, fixed body wording, the data payload, the android/apns sound and priority hints, `Date.now()` timestamps and all console logging are not modelled. The chat preview is the one body that is modelled.
- The provider's response is not modelled: `successCount`, per-token results, and the logging loop at functions/lib/index.js:126-129. A send is the `Multicast` outcome with its tokens.
- `sendTestNotification`, `sendTestChatNotification` and functions/testNotification.js are not modelled. They send to one caller-supplied token, and their only rule is to throw when it is missing.
- The `async`/`await` ordering of store reads is not modelled, and neither is concurrency between invocations.
- Read failures of the list, todo and user documents are not modelled. Only a failed settings read is (`Notifications.Store.unreadableSettings`). A failure elsewhere throws, and the handler then sends nothing.
- Member ids are assumed to be valid document paths. Firestore's `doc()` throws on an empty or malformed id. The model does represent that for a falsy list id (`BadDocumentPath`), since the handlers pass one through unchecked.
- Field values are modelled as optional strings, and `completed`/`purchased`/`isCompleted` as their truthiness. A stored preference is a boolean, so a non-boolean stored value is represented by its truthiness. An `undefined` entry in an exclude list matches no member, so it is modelled as an empty exclude list (`Notifications.ExcludeOf`).
- `sendNotification`'s default type `'general'` is not modelled: every handler passes its type explicitly.
- Legacy.ChatBody: the length test and `substring(0, 50)` count UTF-16 code units in JavaScript. The model counts characters, so the two differ for text outside the Basic Multilingual Plane.
