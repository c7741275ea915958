/**
 * The trigger handlers of the newer revision (functions/lib/index.js).
 *
 * The token loop is factored into `getFilteredMemberTokens`, which also
 * consults each member's notification preferences, and the handlers only
 * choose who is asked (`targets`) and who is skipped (`exclude`).  A failed
 * preference read is part of the store: `unreadableSettings` names the users
 * whose settings read throws.
 */
module Notifications {
  import opened Sequences
  import opened Documents

  /** The settings object `getUserNotificationSettings` returns. */
  datatype Settings = Settings(
    todoCreated: bool,
    todoCompleted: bool,
    todoDeleted: bool,
    memberAdded: bool,
    memberRemoved: bool)
  {
    function Get(k: Setting): bool {
      match k
      case TodoCreated => todoCreated
      case TodoCompleted => todoCompleted
      case TodoDeleted => todoDeleted
      case MemberAdded => memberAdded
      case MemberRemoved => memberRemoved
    }
  }

  /** The defaults, which are also the answer when the read fails: everything enabled. */
  const AllEnabled := Settings(true, true, true, true, true)

  /** The outcome of the settings read: the user document (absent when it does not exist), or a thrown error. */
  datatype SettingsRead = Read(doc: Option<UserDoc>) | ReadFailed

  /** A todo document as these handlers read it. */
  datatype TodoDoc = TodoDoc(
    listId: Option<string>,
    title: Option<string>,
    userId: Option<string>,
    assignedToUserId: Option<string>,
    isCompleted: bool,
    completedByUserId: Option<string>,
    deletedByUserId: Option<string>)

  datatype Store = Store(lists: map<string, ListDoc>, users: map<UserId, UserDoc>, unreadableSettings: set<UserId>)

  /** The value stored for `k`; `None` when it is `undefined` or `null`, or when there is nothing to read. */
  function Stored(read: SettingsRead, k: Setting): Option<bool> {
    if read.Read? && read.doc.Some? && read.doc.value.notificationSettings.Some?
       && k in read.doc.value.notificationSettings.value
    then Some(read.doc.value.notificationSettings.value[k])
    else None
  }

  /** JavaScript `v ?? default`. */
  function Coalesce(v: Option<bool>, default: bool): bool {
    if v.Some? then v.value else default
  }

  /**
   * `getUserNotificationSettings`: each setting is the stored value when
   * there is one, `false` included, and the default `true` otherwise; a
   * failed read enables everything.  So a notification type is switched off
   * exactly when the user stored an explicit `false` for it.
   */
  function GetUserNotificationSettings(read: SettingsRead): (s: Settings)
    ensures read.ReadFailed? ==> s == AllEnabled
    ensures forall k :: Stored(read, k).Some? ==> s.Get(k) == Stored(read, k).value
    ensures forall k :: !s.Get(k) <==> Stored(read, k) == Some(false)
  {
    match read
    case ReadFailed => AllEnabled
    case Read(_) =>
      Settings(
        Coalesce(Stored(read, TodoCreated), AllEnabled.todoCreated),
        Coalesce(Stored(read, TodoCompleted), AllEnabled.todoCompleted),
        Coalesce(Stored(read, TodoDeleted), AllEnabled.todoDeleted),
        Coalesce(Stored(read, MemberAdded), AllEnabled.memberAdded),
        Coalesce(Stored(read, MemberRemoved), AllEnabled.memberRemoved))
  }

  /** The `type` tag of each preference-controlled notification. */
  function TypeTag(k: Setting): string {
    match k
    case TodoCreated => "todo_created"
    case TodoCompleted => "todo_completed"
    case TodoDeleted => "todo_deleted"
    case MemberAdded => "member_added"
    case MemberRemoved => "member_removed"
  }

  /** The setting a notification type is switched by, if any: the cases of the `switch`. */
  function SettingFor(notificationType: string): (k: Option<Setting>)
    ensures k.Some? ==> TypeTag(k.value) == notificationType
    ensures k.None? ==> forall s :: TypeTag(s) != notificationType
  {
    if notificationType == "todo_created" then Some(TodoCreated)
    else if notificationType == "todo_completed" then Some(TodoCompleted)
    else if notificationType == "todo_deleted" then Some(TodoDeleted)
    else if notificationType == "member_added" then Some(MemberAdded)
    else if notificationType == "member_removed" then Some(MemberRemoved)
    else None
  }

  /** `shouldSend`: the matching setting, or `true` for any type the `switch` does not know. */
  function ShouldSend(settings: Settings, notificationType: string): (r: bool)
    ensures SettingFor(notificationType).None? ==> r
    ensures forall k :: TypeTag(k) == notificationType ==> r == settings.Get(k)
  {
    match SettingFor(notificationType)
    case Some(k) => settings.Get(k)
    case None => true
  }

  /** The settings read of one member, failing when the store says so. */
  function SettingsReadOf(store: Store, m: UserId): SettingsRead {
    if m in store.unreadableSettings then ReadFailed
    else Read(if m in store.users then Some(store.users[m]) else None)
  }

  /** Whether member `m` has notifications of this type enabled, as the loop decides it. */
  predicate Enabled(store: Store, notificationType: string, m: UserId) {
    ShouldSend(GetUserNotificationSettings(SettingsReadOf(store, m)), notificationType)
  }

  /** The test of `getMemberTokens`: not excluded, user document present, truthy token. */
  function Unexcluded(users: map<UserId, UserDoc>, exclude: seq<UserId>): UserId -> bool
  {
    m => m !in exclude && Reachable(users, m)
  }

  /** The test of `getFilteredMemberTokens`: that of `getMemberTokens`, and the preference switch on. */
  function Wanted(store: Store, exclude: seq<UserId>, notificationType: string): UserId -> bool
  {
    m => m !in exclude && Reachable(store.users, m) && Enabled(store, notificationType, m)
  }

  /** The members whose tokens `getFilteredMemberTokens` returns, in member order. */
  function Recipients(store: Store, members: seq<UserId>, exclude: seq<UserId>, notificationType: string): seq<UserId>
  {
    Filter(members, Wanted(store, exclude, notificationType))
  }

  /** `getMemberTokens`: the token loop without preferences. */
  method GetMemberTokens(users: map<UserId, UserDoc>, members: seq<UserId>, exclude: seq<UserId>)
    returns (tokens: seq<Token>)
    ensures tokens == TokensOf(users, Filter(members, Unexcluded(users, exclude)))
  {
    tokens := [];
    for i := 0 to |members|
      invariant tokens == TokensOf(users, Filter(members[..i], Unexcluded(users, exclude)))
    {
      var memberId := members[i];
      assert members[..i + 1] == members[..i] + [memberId];
      FilterSnoc(members[..i], memberId, Unexcluded(users, exclude));
      if memberId in exclude {
        continue;
      }
      var fcmToken := if memberId in users then users[memberId].fcmToken else None;
      if Truthy(fcmToken) {
        TokensOfSnoc(users, Filter(members[..i], Unexcluded(users, exclude)), memberId);
        tokens := tokens + [fcmToken.value];
      }
    }
    assert members[..|members|] == members;
  }

  /** `getFilteredMemberTokens`: the token loop, reading each token holder's settings. */
  method GetFilteredMemberTokens(store: Store, members: seq<UserId>, exclude: seq<UserId>, notificationType: string)
    returns (tokens: seq<Token>)
    ensures tokens == TokensOf(store.users, Recipients(store, members, exclude, notificationType))
  {
    tokens := [];
    for i := 0 to |members|
      invariant tokens == TokensOf(store.users, Recipients(store, members[..i], exclude, notificationType))
    {
      var memberId := members[i];
      assert members[..i + 1] == members[..i] + [memberId];
      FilterSnoc(members[..i], memberId, Wanted(store, exclude, notificationType));
      if memberId in exclude {
        continue;
      }
      var fcmToken := if memberId in store.users then store.users[memberId].fcmToken else None;
      if Truthy(fcmToken) {
        var settings := GetUserNotificationSettings(SettingsReadOf(store, memberId));
        var shouldSend := ShouldSend(settings, notificationType);
        if shouldSend {
          TokensOfSnoc(store.users, Recipients(store, members[..i], exclude, notificationType), memberId);
          tokens := tokens + [fcmToken.value];
        }
      }
    }
    assert members[..|members|] == members;
  }

  /**
   * A member's token is returned exactly when they are listed, not
   * excluded, have a truthy token, and have this type enabled.
   */
  lemma {:induction false} RecipientsExactly(store: Store, members: seq<UserId>, exclude: seq<UserId>, notificationType: string, m: UserId)
    ensures m in Recipients(store, members, exclude, notificationType)
        <==> m in members && m !in exclude && Reachable(store.users, m) && Enabled(store, notificationType, m)
  {
    FilterMembership(members, Wanted(store, exclude, notificationType), m);
  }

  /** A type the `switch` does not know ignores preferences: the result is that of `getMemberTokens`. */
  lemma {:induction false} UnknownTypeAlwaysAllowed(store: Store, members: seq<UserId>, exclude: seq<UserId>, notificationType: string)
    requires SettingFor(notificationType).None?
    ensures Recipients(store, members, exclude, notificationType) == Filter(members, Unexcluded(store.users, exclude))
  {
    FilterAgree(members, Wanted(store, exclude, notificationType), Unexcluded(store.users, exclude));
  }

  /**
   * A member whose settings cannot be read is still notified when they have
   * a token and are not excluded: the read fails open.
   */
  lemma {:induction false} UnreadableSettingsFailOpen(store: Store, members: seq<UserId>, exclude: seq<UserId>, notificationType: string, m: UserId)
    requires m in members && m !in exclude && Reachable(store.users, m)
    requires m in store.unreadableSettings
    ensures m in Recipients(store, members, exclude, notificationType)
  {
    RecipientsExactly(store, members, exclude, notificationType, m);
  }

  /** The preference switch alone, as a predicate on members. */
  function EnabledFor(store: Store, notificationType: string): UserId -> bool
  {
    m => Enabled(store, notificationType, m)
  }

  /**
   * Preferences only narrow the result: the filtered members are the members
   * `getMemberTokens` would use, filtered once more by the preference switch.
   */
  lemma {:induction false} PreferencesOnlyNarrow(store: Store, members: seq<UserId>, exclude: seq<UserId>, notificationType: string)
    ensures Recipients(store, members, exclude, notificationType)
         == Filter(Filter(members, Unexcluded(store.users, exclude)), EnabledFor(store, notificationType))
  {
    var p, q := Unexcluded(store.users, exclude), EnabledFor(store, notificationType);
    FilterFilter(members, p, q);
    FilterAgree(members, Wanted(store, exclude, notificationType), Both(p, q));
  }

  /** When no member stored an explicit `false` for the type, preferences change nothing. */
  lemma {:induction false} DefaultsMatchMemberTokens(store: Store, members: seq<UserId>, exclude: seq<UserId>, notificationType: string)
    requires forall j, k :: 0 <= j < |members| && TypeTag(k) == notificationType ==>
               Stored(SettingsReadOf(store, members[j]), k) != Some(false)
    ensures Recipients(store, members, exclude, notificationType) == Filter(members, Unexcluded(store.users, exclude))
  {
    FilterAgree(members, Wanted(store, exclude, notificationType), Unexcluded(store.users, exclude));
  }

  /** `getListMembers`: `null` exactly when the list document does not exist, otherwise `allUserIds || []`. */
  function GetListMembers(lists: map<string, ListDoc>, listId: string): (r: Option<seq<UserId>>)
    ensures r.None? <==> listId !in lists
    ensures r.Some? ==> r.value == lists[listId].allUserIds.GetOr([])
  {
    if listId !in lists then None else Some(lists[listId].allUserIds.GetOr([]))
  }

  /**
   * `sendNotification`: resolve the tokens and make the multicast call
   * unless there are none.
   */
  method SendNotification(store: Store, members: seq<UserId>, exclude: seq<UserId>, notificationType: string)
    returns (d: Dispatch, ghost recipients: seq<UserId>)
    ensures d == Send(notificationType, TokensOf(store.users, Recipients(store, members, exclude, notificationType)), None)
    ensures d.Multicast? <==> Recipients(store, members, exclude, notificationType) != []
    ensures recipients == Recipients(store, members, exclude, notificationType)
    ensures forall m :: m in recipients ==> m in members && m !in exclude
  {
    var tokens := GetFilteredMemberTokens(store, members, exclude, notificationType);
    recipients := Recipients(store, members, exclude, notificationType);
    forall m | m in recipients ensures m in members && m !in exclude {
      RecipientsExactly(store, members, exclude, notificationType, m);
    }
    if |tokens| == 0 {
      return Skipped(NoTokens), recipients;
    }
    d := Multicast(notificationType, tokens, None);
  }

  /** Who is asked and who is skipped. */
  datatype Audience = Audience(targets: seq<UserId>, exclude: seq<UserId>)

  /**
   * The choice in `onTodoCreated`: an assignee is the only target and
   * nobody is excluded; otherwise all members except the creator.
   */
  function CreatedAudience(userId: UserId, assignedToUserId: Option<string>, members: seq<UserId>): (a: Audience)
    ensures Truthy(assignedToUserId) ==> a.targets == [assignedToUserId.value] && a.exclude == []
    ensures !Truthy(assignedToUserId) ==> a.targets == members && a.exclude == [userId]
  {
    if Truthy(assignedToUserId) then Audience([assignedToUserId.value], [])
    else Audience(members, [userId])
  }

  /** A one-element exclude list, `[a || b]`; an `undefined` entry matches no member id, so it is left out. */
  function ExcludeOf(actor: Option<string>): seq<UserId> {
    if actor.Some? then [actor.value] else []
  }

  /**
   * `onTodoCreated`.  With an assignee, exactly the assignee is notified
   * when they can be, even when they created the todo themselves; without
   * one, every member but the creator who can be.
   */
  method OnTodoCreated(store: Store, todo: Option<TodoDoc>)
    returns (d: Dispatch, ghost recipients: seq<UserId>)
    ensures !(todo.Some? && Truthy(todo.value.userId) && Truthy(todo.value.listId)) ==> d == Skipped(InvalidData)
    ensures todo.Some? && Truthy(todo.value.userId) && Truthy(todo.value.listId) ==>
      var listId := todo.value.listId.value;
      (listId !in store.lists ==> d == Skipped(ListNotFound)) &&
      (listId in store.lists ==>
        var a := CreatedAudience(todo.value.userId.value, todo.value.assignedToUserId, store.lists[listId].allUserIds.GetOr([]));
        recipients == Recipients(store, a.targets, a.exclude, "todo_created") &&
        d == Send("todo_created", TokensOf(store.users, recipients), None))
    ensures d.Multicast? ==> d.tokens == TokensOf(store.users, recipients)
    ensures todo.Some? && Truthy(todo.value.assignedToUserId) ==>
      var assignee := todo.value.assignedToUserId.value;
      (forall m :: m in recipients ==> m == assignee) &&
      (d.Multicast? ==> recipients == [assignee])
    ensures todo.Some? && !Truthy(todo.value.assignedToUserId) && todo.value.userId.Some? ==>
      todo.value.userId.value !in recipients
  {
    recipients := [];
    if todo.None? || !Truthy(todo.value.userId) || !Truthy(todo.value.listId) {
      return Skipped(InvalidData), recipients;
    }
    var userId, listId := todo.value.userId.value, todo.value.listId.value;
    var members := GetListMembers(store.lists, listId);
    if members.None? {
      return Skipped(ListNotFound), recipients;
    }
    var a := CreatedAudience(userId, todo.value.assignedToUserId, members.value);
    d, recipients := SendNotification(store, a.targets, a.exclude, "todo_created");
    if Truthy(todo.value.assignedToUserId) && d.Multicast? {
      var assignee := todo.value.assignedToUserId.value;
      assert recipients == Filter([assignee], Wanted(store, [], "todo_created"));
      assert [assignee] == [] + [assignee];
      FilterSnoc([], assignee, Wanted(store, [], "todo_created"));
    }
  }

  /**
   * `onTodoCompleted`: only on a false-to-true edge of `isCompleted`; the
   * completer (`completedByUserId || userId`) is excluded.
   */
  method OnTodoCompleted(store: Store, before: Option<TodoDoc>, after: Option<TodoDoc>)
    returns (d: Dispatch, ghost recipients: seq<UserId>)
    ensures before.None? || after.None? ==> d == Skipped(InvalidData)
    ensures before.Some? && after.Some? && !(!before.value.isCompleted && after.value.isCompleted) ==>
      d == Skipped(NoTransition)
    ensures before.Some? && after.Some? && !before.value.isCompleted && after.value.isCompleted ==>
      var listId := after.value.listId;
      var exclude := ExcludeOf(Or(after.value.completedByUserId, after.value.userId));
      (!Truthy(listId) ==> d == Skipped(BadDocumentPath)) &&
      (Truthy(listId) && listId.value !in store.lists ==> d == Skipped(ListNotFound)) &&
      (Truthy(listId) && listId.value in store.lists ==>
        recipients == Recipients(store, store.lists[listId.value].allUserIds.GetOr([]), exclude, "todo_completed") &&
        d == Send("todo_completed", TokensOf(store.users, recipients), None))
    ensures d.Multicast? ==> before.Some? && after.Some? && !before.value.isCompleted && after.value.isCompleted
    ensures d.Multicast? ==> d.tokens == TokensOf(store.users, recipients)
    ensures after.Some? ==> forall m :: m in recipients ==> Some(m) != Or(after.value.completedByUserId, after.value.userId)
  {
    recipients := [];
    if before.None? || after.None? {
      return Skipped(InvalidData), recipients;
    }
    if !(!before.value.isCompleted && after.value.isCompleted) {
      return Skipped(NoTransition), recipients;
    }
    var listId := after.value.listId;
    if !Truthy(listId) {
      return Skipped(BadDocumentPath), recipients;
    }
    var members := GetListMembers(store.lists, listId.value);
    if members.None? {
      return Skipped(ListNotFound), recipients;
    }
    var exclude := ExcludeOf(Or(after.value.completedByUserId, after.value.userId));
    d, recipients := SendNotification(store, members.value, exclude, "todo_completed");
  }

  /** `onTodoDeleted`: the deleter (`deletedByUserId || userId`) is excluded. */
  method OnTodoDeleted(store: Store, todo: Option<TodoDoc>)
    returns (d: Dispatch, ghost recipients: seq<UserId>)
    ensures todo.None? ==> d == Skipped(InvalidData)
    ensures todo.Some? ==>
      var listId := todo.value.listId;
      var exclude := ExcludeOf(Or(todo.value.deletedByUserId, todo.value.userId));
      (!Truthy(listId) ==> d == Skipped(BadDocumentPath)) &&
      (Truthy(listId) && listId.value !in store.lists ==> d == Skipped(ListNotFound)) &&
      (Truthy(listId) && listId.value in store.lists ==>
        recipients == Recipients(store, store.lists[listId.value].allUserIds.GetOr([]), exclude, "todo_deleted") &&
        d == Send("todo_deleted", TokensOf(store.users, recipients), None))
    ensures d.Multicast? ==> d.tokens == TokensOf(store.users, recipients)
    ensures todo.Some? ==> forall m :: m in recipients ==> Some(m) != Or(todo.value.deletedByUserId, todo.value.userId)
  {
    recipients := [];
    if todo.None? {
      return Skipped(InvalidData), recipients;
    }
    var listId := todo.value.listId;
    if !Truthy(listId) {
      return Skipped(BadDocumentPath), recipients;
    }
    var members := GetListMembers(store.lists, listId.value);
    if members.None? {
      return Skipped(ListNotFound), recipients;
    }
    var exclude := ExcludeOf(Or(todo.value.deletedByUserId, todo.value.userId));
    d, recipients := SendNotification(store, members.value, exclude, "todo_deleted");
  }

  /** `allUserIds || []` of a list snapshot. */
  function UserIdsOf(list: ListDoc): seq<UserId> {
    list.allUserIds.GetOr([])
  }

  /**
   * `onListMemberAdded`: when the update adds members, ask the members from
   * before and exclude the new ones, who therefore are never notified.
   */
  method OnListMemberAdded(store: Store, before: Option<ListDoc>, after: Option<ListDoc>)
    returns (d: Dispatch, ghost recipients: seq<UserId>)
    ensures before.None? || after.None? ==> d == Skipped(InvalidData)
    ensures before.Some? && after.Some? ==>
      var newMembers := Without(UserIdsOf(after.value), UserIdsOf(before.value));
      (newMembers == [] ==> d == Skipped(EmptyDelta)) &&
      (newMembers != [] ==>
        recipients == Recipients(store, UserIdsOf(before.value), newMembers, "member_added") &&
        d == Send("member_added", TokensOf(store.users, recipients), None)) &&
      (forall m :: m in recipients ==> m in UserIdsOf(before.value) && m !in newMembers)
    ensures d.Multicast? ==> d.tokens == TokensOf(store.users, recipients)
  {
    recipients := [];
    if before.None? || after.None? {
      return Skipped(InvalidData), recipients;
    }
    var newMembers := Without(UserIdsOf(after.value), UserIdsOf(before.value));
    if |newMembers| == 0 {
      return Skipped(EmptyDelta), recipients;
    }
    d, recipients := SendNotification(store, UserIdsOf(before.value), newMembers, "member_added");
  }

  /**
   * `onListMemberRemoved`: when the update removes members, ask the members
   * that remain and exclude the removed ones, who therefore are never notified.
   */
  method OnListMemberRemoved(store: Store, before: Option<ListDoc>, after: Option<ListDoc>)
    returns (d: Dispatch, ghost recipients: seq<UserId>)
    ensures before.None? || after.None? ==> d == Skipped(InvalidData)
    ensures before.Some? && after.Some? ==>
      var removedMembers := Without(UserIdsOf(before.value), UserIdsOf(after.value));
      (removedMembers == [] ==> d == Skipped(EmptyDelta)) &&
      (removedMembers != [] ==>
        recipients == Recipients(store, UserIdsOf(after.value), removedMembers, "member_removed") &&
        d == Send("member_removed", TokensOf(store.users, recipients), None)) &&
      (forall m :: m in recipients ==> m in UserIdsOf(after.value) && m !in removedMembers)
    ensures d.Multicast? ==> d.tokens == TokensOf(store.users, recipients)
  {
    recipients := [];
    if before.None? || after.None? {
      return Skipped(InvalidData), recipients;
    }
    var removedMembers := Without(UserIdsOf(before.value), UserIdsOf(after.value));
    if |removedMembers| == 0 {
      return Skipped(EmptyDelta), recipients;
    }
    d, recipients := SendNotification(store, UserIdsOf(after.value), removedMembers, "member_removed");
  }

  /**
   * The exclude lists of the membership handlers change nothing: the delta
   * and the asked snapshot are disjoint, so excluding the delta gives the
   * same recipients as excluding nobody.
   */
  lemma {:induction false} DeltaExclusionIsRedundant(store: Store, before: seq<UserId>, after: seq<UserId>, notificationType: string)
    ensures Recipients(store, before, Without(after, before), notificationType) == Recipients(store, before, [], notificationType)
    ensures Recipients(store, after, Without(before, after), notificationType) == Recipients(store, after, [], notificationType)
  {
    FilterAgree(before, Wanted(store, Without(after, before), notificationType), Wanted(store, [], notificationType));
    FilterAgree(after, Wanted(store, Without(before, after), notificationType), Wanted(store, [], notificationType));
  }
}
