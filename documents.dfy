/**
 * The document store and the push provider as the handlers see them.
 *
 * Firestore is a set of immutable maps for the length of one invocation: a
 * missing key is a document that does not exist.  Document fields are
 * loosely typed JavaScript values; the ones the handlers test are optional
 * strings, and a string field is "truthy" when it is present and non-empty.
 * The provider call `sendEachForMulticast` becomes the `Multicast` outcome of
 * a handler; every other way a handler can end is a `Skipped` outcome.
 */
module Documents {

  datatype Option<T> = None | Some(value: T) {
    /** `x || default` for array fields: the array when present, otherwise the default. */
    function GetOr(default: T): T {
      match this
      case Some(v) => v
      case None => default
    }
  }

  type UserId = string
  type Token = string

  /** JavaScript truthiness of an optional string field. */
  predicate Truthy(f: Option<string>) {
    f.Some? && f.value != ""
  }

  /** JavaScript `a || b` on optional strings: `a` when it is truthy, otherwise `b`, whatever `b` is. */
  function Or(a: Option<string>, b: Option<string>): (r: Option<string>)
    ensures Truthy(r) <==> Truthy(a) || Truthy(b)
    ensures Truthy(a) ==> r == a
    ensures !Truthy(a) ==> r == b
  {
    if Truthy(a) then a else b
  }

  /** The five per-type switches a user document may carry under `notificationSettings`. */
  datatype Setting = TodoCreated | TodoCompleted | TodoDeleted | MemberAdded | MemberRemoved

  /**
   * A document of the `users` collection.  A key missing from
   * `notificationSettings` stands for a value that is `undefined` or `null`.
   */
  datatype UserDoc = UserDoc(fcmToken: Option<string>, notificationSettings: Option<map<Setting, bool>>)

  /** A document of the `lists` collection: the older revision reads `members`, the newer `allUserIds`. */
  datatype ListDoc = ListDoc(members: Option<seq<UserId>>, allUserIds: Option<seq<UserId>>)

  /** The member's user document exists and carries a truthy `fcmToken`. */
  predicate Reachable(users: map<UserId, UserDoc>, m: UserId) {
    m in users && Truthy(users[m].fcmToken)
  }

  /** The `fcmToken` read for a member (empty when there is none). */
  function TokenOf(users: map<UserId, UserDoc>, m: UserId): Token {
    if m in users && users[m].fcmToken.Some? then users[m].fcmToken.value else ""
  }

  /** The tokens of `ids`, position by position. */
  function TokensOf(users: map<UserId, UserDoc>, ids: seq<UserId>): (r: seq<Token>)
    ensures |r| == |ids|
    ensures forall k :: 0 <= k < |ids| ==> r[k] == TokenOf(users, ids[k])
  {
    if ids == [] then []
    else TokensOf(users, ids[..|ids| - 1]) + [TokenOf(users, ids[|ids| - 1])]
  }

  /** Appending an id appends its token. */
  lemma TokensOfSnoc(users: map<UserId, UserDoc>, ids: seq<UserId>, m: UserId)
    ensures TokensOf(users, ids + [m]) == TokensOf(users, ids) + [TokenOf(users, m)]
  {
  }

  /** Reachable ids yield tokens that are all truthy: no empty token is ever handed to the provider. */
  lemma {:induction false} ReachableTokens(users: map<UserId, UserDoc>, ids: seq<UserId>)
    requires forall k :: 0 <= k < |ids| ==> Reachable(users, ids[k])
    ensures forall k :: 0 <= k < |ids| ==> TokensOf(users, ids)[k] != ""
  {
  }

  /** Why a handler ended without calling the provider. */
  datatype Reason =
    | InvalidData       // a required event field is missing or falsy
    | BadDocumentPath   // a falsy id was passed to `doc(...)`, which throws
    | ListNotFound      // the list document does not exist
    | TodoNotFound      // the todo a chat message refers to does not exist
    | IncompleteTodo    // that todo has no truthy `listId` or `title`
    | NoTransition      // the update is not a false-to-true edge of the flag
    | EmptyDelta        // the membership update added (or removed) nobody
    | NoTokens          // no member contributed a token

  /**
   * The outcome of one handler invocation.  `Multicast` is the single
   * `sendEachForMulticast` call; `body` is the computed notification text
   * where it is modelled (chat messages) and `None` where it is fixed wording.
   */
  datatype Dispatch =
    | Skipped(reason: Reason)
    | Multicast(notificationType: string, tokens: seq<Token>, body: Option<string>)

  /** The guard in front of every provider call: an empty token list ends the handler without a send. */
  function Send(notificationType: string, tokens: seq<Token>, body: Option<string>): (d: Dispatch)
    ensures d.Multicast? <==> tokens != []
    ensures d.Skipped? ==> d.reason == NoTokens
    ensures d.Multicast? ==> d == Multicast(notificationType, tokens, body)
  {
    if |tokens| == 0 then Skipped(NoTokens) else Multicast(notificationType, tokens, body)
  }
}
