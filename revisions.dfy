/**
 * How the two revisions relate.  The older handlers' inline loop is the
 * newer `getMemberTokens` with a one-element exclude list, and the newer
 * preference-aware loop reduces to it when nobody switched the type off.
 */
module Revisions {
  import opened Sequences
  import opened Documents
  import Legacy
  import Notifications

  /** Skipping the acting user inline selects the same members as excluding `[actor]`. */
  lemma {:induction false} InlineLoopIsMemberTokens(users: map<UserId, UserDoc>, members: seq<UserId>, actor: Option<UserId>)
    ensures Legacy.Contributors(users, members, actor)
         == Filter(members, Notifications.Unexcluded(users, Notifications.ExcludeOf(actor)))
  {
    FilterAgree(members, Legacy.Contributes(users, actor), Notifications.Unexcluded(users, Notifications.ExcludeOf(actor)));
  }

  /**
   * On a list whose `members` and `allUserIds` agree, and with no member
   * having switched the type off, both revisions notify the same members
   * about a new member; the newer revision's exclude list changes nothing.
   */
  lemma {:induction false} MemberAddedAgrees(store: Notifications.Store, before: seq<UserId>, after: seq<UserId>)
    requires forall j, k :: 0 <= j < |before| && Notifications.TypeTag(k) == "member_added" ==>
               Notifications.Stored(Notifications.SettingsReadOf(store, before[j]), k) != Some(false)
    ensures Notifications.Recipients(store, before, Without(after, before), "member_added")
         == Legacy.Contributors(store.users, before, None)
  {
    Notifications.DeltaExclusionIsRedundant(store, before, after, "member_added");
    Notifications.DefaultsMatchMemberTokens(store, before, [], "member_added");
    InlineLoopIsMemberTokens(store.users, before, None);
  }
}
