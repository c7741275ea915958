/**
 * The trigger handlers of the older revision (functions/src/index.ts).
 *
 * Each handler validates its event, reads the list's `members` array, walks
 * it skipping the acting user, collects the `fcmToken` of every member whose
 * user document has one, and sends one multicast unless nothing was
 * collected.  Todos and shopping items have handlers that differ only in
 * field names and type tags, so one method per handler shape serves both.
 * Every handler also returns, as a ghost value, the member ids whose tokens
 * it collected: the properties below are stated about them.
 */
module Legacy {
  import opened Sequences
  import opened Documents

  /**
   * A todo or a shopping item as these handlers read it: `done` is
   * `completed` (todos) or `purchased` (items), `doneBy` is `completedBy`
   * or `purchasedBy`.  A missing flag reads as false.
   */
  datatype Item = Item(
    listId: Option<string>,
    title: Option<string>,
    createdBy: Option<string>,
    done: bool,
    doneBy: Option<string>,
    deletedBy: Option<string>)

  datatype ItemKind = Todo | ShoppingItem

  /** A chat message document; both field spellings the clients write are accepted. */
  datatype ChatMessage = ChatMessage(
    todoId: Option<string>,
    userId: Option<string>,
    senderId: Option<string>,
    userName: Option<string>,
    senderName: Option<string>,
    message: Option<string>)

  datatype Store = Store(lists: map<string, ListDoc>, users: map<UserId, UserDoc>, todos: map<string, Item>)

  function CreatedTag(kind: ItemKind): string {
    match kind
    case Todo => "todo_created"
    case ShoppingItem => "shopping_item_created"
  }

  function DoneTag(kind: ItemKind): string {
    match kind
    case Todo => "todo_completed"
    case ShoppingItem => "shopping_item_purchased"
  }

  function DeletedTag(kind: ItemKind): string {
    match kind
    case Todo => "todo_deleted"
    case ShoppingItem => "shopping_item_deleted"
  }

  /** `listData?.members || []`. */
  function MembersOf(list: ListDoc): seq<UserId> {
    list.members.GetOr([])
  }

  /**
   * The test the token loops apply to a member: not the acting user (when
   * there is one), user document present, truthy token.
   */
  function Contributes(users: map<UserId, UserDoc>, actor: Option<UserId>): UserId -> bool
  {
    m => Some(m) != actor && Reachable(users, m)
  }

  /** The members whose tokens a loop collects, in member order. */
  function Contributors(users: map<UserId, UserDoc>, members: seq<UserId>, actor: Option<UserId>): seq<UserId>
  {
    Filter(members, Contributes(users, actor))
  }

  /** The per-handler token loop: skip the actor, read the user, push a truthy token. */
  method CollectTokens(users: map<UserId, UserDoc>, members: seq<UserId>, actor: Option<UserId>)
    returns (memberTokens: seq<Token>)
    ensures memberTokens == TokensOf(users, Contributors(users, members, actor))
  {
    memberTokens := [];
    for i := 0 to |members|
      invariant memberTokens == TokensOf(users, Contributors(users, members[..i], actor))
    {
      var memberId := members[i];
      assert members[..i + 1] == members[..i] + [memberId];
      FilterSnoc(members[..i], memberId, Contributes(users, actor));
      if Some(memberId) != actor {
        if memberId in users {
          var fcmToken := users[memberId].fcmToken;
          if Truthy(fcmToken) {
            TokensOfSnoc(users, Contributors(users, members[..i], actor), memberId);
            memberTokens := memberTokens + [fcmToken.value];
          }
        }
      }
    }
    assert members[..|members|] == members;
  }

  /**
   * A member contributes exactly when they are listed, are not the acting
   * user, and have a user document with a truthy token.
   */
  lemma {:induction false} ContributorsExactly(users: map<UserId, UserDoc>, members: seq<UserId>, actor: Option<UserId>, m: UserId)
    ensures m in Contributors(users, members, actor) <==> m in members && Some(m) != actor && Reachable(users, m)
  {
    FilterMembership(members, Contributes(users, actor), m);
  }

  /**
   * Collected tokens keep the member order and the member multiplicity: a
   * member listed twice contributes twice, and the contributors of a split
   * member list are the contributors of its halves.
   */
  lemma {:induction false} ContributorsInMemberOrder(users: map<UserId, UserDoc>, xs: seq<UserId>, ys: seq<UserId>, actor: Option<UserId>, m: UserId)
    ensures Contributors(users, xs + ys, actor) == Contributors(users, xs, actor) + Contributors(users, ys, actor)
    ensures multiset(Contributors(users, xs + ys, actor))[m]
         == if Some(m) != actor && Reachable(users, m) then multiset(xs + ys)[m] else 0
  {
    FilterConcat(xs, ys, Contributes(users, actor));
    FilterCount(xs + ys, Contributes(users, actor), m);
  }

  /** Every collected token is truthy: each comes from a contributor, and contributors are reachable. */
  lemma {:induction false} CollectedTokensTruthy(users: map<UserId, UserDoc>, members: seq<UserId>, actor: Option<UserId>)
    ensures forall t :: t in TokensOf(users, Contributors(users, members, actor)) ==> t != ""
  {
    var c := Contributors(users, members, actor);
    FilterAllPass(members, Contributes(users, actor));
    ReachableTokens(users, c);
  }

  /**
   * The chat preview: the message itself up to 50 characters, otherwise its
   * first 50 characters followed by an ellipsis of three dots.
   */
  function ChatBody(message: string): (body: string)
    ensures |body| <= 53
    ensures |message| <= 50 ==> body == message
    ensures |message| > 50 ==> |body| == 53 && body[..50] == message[..50] && body[50..] == "..."
  {
    if |message| > 50 then message[..50] + "..." else message
  }

  /**
   * `onTodoCreated` / `onShoppingItemCreated`: notify the list members
   * except the creator.
   */
  method OnItemCreated(store: Store, kind: ItemKind, item: Option<Item>)
    returns (d: Dispatch, ghost recipients: seq<UserId>)
    ensures !(item.Some? && Truthy(item.value.createdBy) && Truthy(item.value.listId)) ==> d == Skipped(InvalidData)
    ensures item.Some? && Truthy(item.value.createdBy) && Truthy(item.value.listId) ==>
      var listId := item.value.listId.value;
      (listId !in store.lists ==> d == Skipped(ListNotFound)) &&
      (listId in store.lists ==>
        recipients == Contributors(store.users, MembersOf(store.lists[listId]), item.value.createdBy) &&
        d == Send(CreatedTag(kind), TokensOf(store.users, recipients), None))
    ensures d.Multicast? ==> d.tokens == TokensOf(store.users, recipients)
    ensures item.Some? ==> forall m :: m in recipients ==> Some(m) != item.value.createdBy
  {
    recipients := [];
    if item.None? || !Truthy(item.value.createdBy) || !Truthy(item.value.listId) {
      return Skipped(InvalidData), recipients;
    }
    var createdBy, listId := item.value.createdBy, item.value.listId.value;
    if listId !in store.lists {
      return Skipped(ListNotFound), recipients;
    }
    var members := MembersOf(store.lists[listId]);
    var memberTokens := CollectTokens(store.users, members, createdBy);
    recipients := Contributors(store.users, members, createdBy);
    forall m | m in recipients ensures Some(m) != createdBy {
      ContributorsExactly(store.users, members, createdBy, m);
    }
    d := Send(CreatedTag(kind), memberTokens, None);
  }

  /**
   * `onTodoCompleted` / `onShoppingItemPurchased`: fire only when the flag
   * goes from false to true, and skip the user who set it, falling back to
   * the creator when no such user is recorded.
   */
  method OnItemDone(store: Store, kind: ItemKind, before: Option<Item>, after: Option<Item>)
    returns (d: Dispatch, ghost recipients: seq<UserId>)
    ensures before.None? || after.None? ==> d == Skipped(InvalidData)
    ensures before.Some? && after.Some? && !(!before.value.done && after.value.done) ==> d == Skipped(NoTransition)
    ensures before.Some? && after.Some? && !before.value.done && after.value.done ==>
      var actor := Or(after.value.doneBy, after.value.createdBy);
      var listId := after.value.listId;
      (!Truthy(listId) ==> d == Skipped(BadDocumentPath)) &&
      (Truthy(listId) && listId.value !in store.lists ==> d == Skipped(ListNotFound)) &&
      (Truthy(listId) && listId.value in store.lists ==>
        recipients == Contributors(store.users, MembersOf(store.lists[listId.value]), actor) &&
        d == Send(DoneTag(kind), TokensOf(store.users, recipients), None))
    ensures d.Multicast? ==> before.Some? && after.Some? && !before.value.done && after.value.done
    ensures d.Multicast? ==> d.tokens == TokensOf(store.users, recipients)
    ensures after.Some? ==> forall m :: m in recipients ==> Some(m) != Or(after.value.doneBy, after.value.createdBy)
  {
    recipients := [];
    if before.None? || after.None? {
      return Skipped(InvalidData), recipients;
    }
    if !(!before.value.done && after.value.done) {
      return Skipped(NoTransition), recipients;
    }
    var listId := after.value.listId;
    var doneBy := Or(after.value.doneBy, after.value.createdBy);
    if !Truthy(listId) {
      return Skipped(BadDocumentPath), recipients;
    }
    if listId.value !in store.lists {
      return Skipped(ListNotFound), recipients;
    }
    var members := MembersOf(store.lists[listId.value]);
    var memberTokens := CollectTokens(store.users, members, doneBy);
    recipients := Contributors(store.users, members, doneBy);
    forall m | m in recipients ensures Some(m) != doneBy {
      ContributorsExactly(store.users, members, doneBy, m);
    }
    d := Send(DoneTag(kind), memberTokens, None);
  }

  /**
   * `onTodoDeleted` / `onShoppingItemDeleted`: skip `deletedBy`, falling
   * back to `createdBy`; a deletion with neither is invalid.
   */
  method OnItemDeleted(store: Store, kind: ItemKind, item: Option<Item>)
    returns (d: Dispatch, ghost recipients: seq<UserId>)
    ensures !(item.Some? && Truthy(Or(item.value.deletedBy, item.value.createdBy)) && Truthy(item.value.listId)) ==>
      d == Skipped(InvalidData)
    ensures item.Some? && Truthy(Or(item.value.deletedBy, item.value.createdBy)) && Truthy(item.value.listId) ==>
      var listId := item.value.listId.value;
      (listId !in store.lists ==> d == Skipped(ListNotFound)) &&
      (listId in store.lists ==>
        recipients == Contributors(store.users, MembersOf(store.lists[listId]), Or(item.value.deletedBy, item.value.createdBy)) &&
        d == Send(DeletedTag(kind), TokensOf(store.users, recipients), None))
    ensures d.Multicast? ==> d.tokens == TokensOf(store.users, recipients)
    ensures item.Some? ==> forall m :: m in recipients ==> Some(m) != Or(item.value.deletedBy, item.value.createdBy)
  {
    recipients := [];
    if item.None? {
      return Skipped(InvalidData), recipients;
    }
    var deletedBy := Or(item.value.deletedBy, item.value.createdBy);
    if !Truthy(deletedBy) || !Truthy(item.value.listId) {
      return Skipped(InvalidData), recipients;
    }
    var listId := item.value.listId.value;
    if listId !in store.lists {
      return Skipped(ListNotFound), recipients;
    }
    var members := MembersOf(store.lists[listId]);
    var memberTokens := CollectTokens(store.users, members, deletedBy);
    recipients := Contributors(store.users, members, deletedBy);
    forall m | m in recipients ensures Some(m) != deletedBy {
      ContributorsExactly(store.users, members, deletedBy, m);
    }
    d := Send(DeletedTag(kind), memberTokens, None);
  }

  /**
   * `onListMemberAdded`: when the update adds members, notify the members
   * the list had before it; the tokens come from `before`, so no newly added
   * member is notified.
   */
  method OnListMemberAdded(store: Store, before: Option<ListDoc>, after: Option<ListDoc>)
    returns (d: Dispatch, ghost recipients: seq<UserId>)
    ensures before.None? || after.None? ==> d == Skipped(InvalidData)
    ensures before.Some? && after.Some? ==>
      var newMembers := Without(MembersOf(after.value), MembersOf(before.value));
      (newMembers == [] ==> d == Skipped(EmptyDelta)) &&
      (newMembers != [] ==>
        recipients == Contributors(store.users, MembersOf(before.value), None) &&
        d == Send("member_added", TokensOf(store.users, recipients), None)) &&
      (forall m :: m in recipients ==> m in MembersOf(before.value) && m !in newMembers)
    ensures d.Multicast? ==> d.tokens == TokensOf(store.users, recipients)
  {
    recipients := [];
    if before.None? || after.None? {
      return Skipped(InvalidData), recipients;
    }
    var beforeMembers, afterMembers := MembersOf(before.value), MembersOf(after.value);
    var newMembers := Without(afterMembers, beforeMembers);
    if |newMembers| == 0 {
      return Skipped(EmptyDelta), recipients;
    }
    var memberTokens := CollectTokens(store.users, beforeMembers, None);
    recipients := Contributors(store.users, beforeMembers, None);
    forall m | m in recipients ensures m in beforeMembers && m !in newMembers {
      ContributorsExactly(store.users, beforeMembers, None, m);
    }
    d := Send("member_added", memberTokens, None);
  }

  /**
   * `onListMemberRemoved`: when the update removes members, notify the
   * members the list still has; the tokens come from `after`, so no removed
   * member is notified.
   */
  method OnListMemberRemoved(store: Store, before: Option<ListDoc>, after: Option<ListDoc>)
    returns (d: Dispatch, ghost recipients: seq<UserId>)
    ensures before.None? || after.None? ==> d == Skipped(InvalidData)
    ensures before.Some? && after.Some? ==>
      var removedMembers := Without(MembersOf(before.value), MembersOf(after.value));
      (removedMembers == [] ==> d == Skipped(EmptyDelta)) &&
      (removedMembers != [] ==>
        recipients == Contributors(store.users, MembersOf(after.value), None) &&
        d == Send("member_removed", TokensOf(store.users, recipients), None)) &&
      (forall m :: m in recipients ==> m in MembersOf(after.value) && m !in removedMembers)
    ensures d.Multicast? ==> d.tokens == TokensOf(store.users, recipients)
  {
    recipients := [];
    if before.None? || after.None? {
      return Skipped(InvalidData), recipients;
    }
    var beforeMembers, afterMembers := MembersOf(before.value), MembersOf(after.value);
    var removedMembers := Without(beforeMembers, afterMembers);
    if |removedMembers| == 0 {
      return Skipped(EmptyDelta), recipients;
    }
    var memberTokens := CollectTokens(store.users, afterMembers, None);
    recipients := Contributors(store.users, afterMembers, None);
    forall m | m in recipients ensures m in afterMembers && m !in removedMembers {
      ContributorsExactly(store.users, afterMembers, None, m);
    }
    d := Send("member_removed", memberTokens, None);
  }

  /** The sender of a chat message: `userId || senderId`. */
  function Sender(msg: ChatMessage): Option<string> {
    Or(msg.userId, msg.senderId)
  }

  /** Every field the chat handler needs is truthy. */
  predicate ValidChat(msg: ChatMessage) {
    Truthy(msg.todoId) && Truthy(Sender(msg)) && Truthy(Or(msg.userName, msg.senderName)) && Truthy(msg.message)
  }

  /**
   * `onChatMessageCreated`: find the todo, then its list, and notify the
   * list members except the sender, with the message as a preview.
   */
  method OnChatMessageCreated(store: Store, msg: Option<ChatMessage>)
    returns (d: Dispatch, ghost recipients: seq<UserId>)
    ensures !(msg.Some? && ValidChat(msg.value)) ==> d == Skipped(InvalidData)
    ensures msg.Some? && ValidChat(msg.value) ==>
      var todoId := msg.value.todoId.value;
      (todoId !in store.todos ==> d == Skipped(TodoNotFound)) &&
      (todoId in store.todos && !(Truthy(store.todos[todoId].listId) && Truthy(store.todos[todoId].title)) ==>
        d == Skipped(IncompleteTodo)) &&
      (todoId in store.todos && Truthy(store.todos[todoId].listId) && Truthy(store.todos[todoId].title) ==>
        var listId := store.todos[todoId].listId.value;
        (listId !in store.lists ==> d == Skipped(ListNotFound)) &&
        (listId in store.lists ==>
          recipients == Contributors(store.users, MembersOf(store.lists[listId]), Sender(msg.value)) &&
          d == Send("chat_message", TokensOf(store.users, recipients), Some(ChatBody(msg.value.message.value)))))
    ensures d.Multicast? ==> d.tokens == TokensOf(store.users, recipients) && d.body.Some? && |d.body.value| <= 53
    ensures msg.Some? ==> forall m :: m in recipients ==> Some(m) != Sender(msg.value)
  {
    recipients := [];
    if msg.None? || !ValidChat(msg.value) {
      return Skipped(InvalidData), recipients;
    }
    var todoId, userId, message := msg.value.todoId.value, Sender(msg.value), msg.value.message.value;
    if todoId !in store.todos {
      return Skipped(TodoNotFound), recipients;
    }
    var todo := store.todos[todoId];
    if !Truthy(todo.listId) || !Truthy(todo.title) {
      return Skipped(IncompleteTodo), recipients;
    }
    var listId := todo.listId.value;
    if listId !in store.lists {
      return Skipped(ListNotFound), recipients;
    }
    var members := MembersOf(store.lists[listId]);
    var memberTokens := CollectTokens(store.users, members, userId);
    recipients := Contributors(store.users, members, userId);
    forall m | m in recipients ensures Some(m) != userId {
      ContributorsExactly(store.users, members, userId, m);
    }
    d := Send("chat_message", memberTokens, Some(ChatBody(message)));
  }
}
