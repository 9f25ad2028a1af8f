/** The records the client and the server exchange (`UserProfile`, `Message` and
    `Conversation` of the backend), and the conversation-list updater that both
    dashboards use when a conversation is started. */
module Domain {
  import opened Wrappers

  type Id = string

  /** A user as the client sees one: `avatar_url` may be missing. */
  datatype Profile = Profile(id: Id, username: string, displayName: string, avatarUrl: Option<string>)

  /** A chat message; `timestamp` stands for the server's `datetime`, ordered as numbers. */
  datatype Message = Message(id: Id, conversationId: Id, senderId: Id, senderName: string,
                             senderAvatar: Option<string>, content: string, timestamp: int)

  /** A direct conversation or a group; `group_name` may be missing. */
  datatype Conversation = Conversation(id: Id, participants: seq<Profile>, isGroup: bool,
                                       groupName: Option<string>)

  predicate HasConversation(list: seq<Conversation>, id: Id) {
    exists i :: 0 <= i < |list| && list[i].id == id
  }

  predicate DistinctIds(list: seq<Conversation>) {
    forall i, j :: 0 <= i < j < |list| ==> list[i].id != list[j].id
  }

  /** The updater `handleStartConversation` passes to `setConversations`: the started
      conversation is listed afterwards, exactly once more than before if it was missing
      and not at all more if its id was already there, so a list without repeated ids
      keeps that property; applying it twice is the same as once, since its result
      already lists the id. */
  function PrependIfAbsent(list: seq<Conversation>, c: Conversation): (r: seq<Conversation>)
    ensures HasConversation(r, c.id)
    ensures HasConversation(list, c.id) ==> r == list
    ensures !HasConversation(list, c.id) ==> r == [c] + list
    ensures DistinctIds(list) ==> DistinctIds(r)
  {
    if HasConversation(list, c.id) then list
    else
      assert ([c] + list)[0].id == c.id;
      assert forall i :: 1 <= i < |list| + 1 ==> ([c] + list)[i] == list[i - 1];
      [c] + list
  }
}
