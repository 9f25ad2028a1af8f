/** The phone sidebar's search over conversations and users, and the title it shows for a
    conversation. */
module MobileSidebar {
  import opened Wrappers
  import opened Text
  import opened Domain
  import opened Seqs

  /** `participants.find(p => p.id !== user.id)`. */
  function OtherParticipant(participants: seq<Profile>, me: Id): (r: Option<Profile>)
    ensures r.Some? ==> r.value in participants && r.value.id != me
    ensures r.None? <==> forall i :: 0 <= i < |participants| ==> participants[i].id == me
    ensures forall i :: (0 <= i < |participants| && participants[i].id != me
                         && forall j :: 0 <= j < i ==> participants[j].id == me)
                        ==> r == Some(participants[i])
  {
    if participants == [] then None
    else if participants[0].id != me then Some(participants[0])
    else
      var rest := OtherParticipant(participants[1..], me);
      assert forall i :: 1 <= i < |participants| ==> participants[i] == participants[1..][i - 1];
      rest
  }

  /** `text.toLowerCase().includes(query.toLowerCase())`. */
  predicate Mentions(text: string, query: string) {
    Includes(ToLower(text), ToLower(query))
  }

  /** The `filteredConversations` callback: with a query, a group needs a name that
      mentions it, a direct conversation an other participant whose display name or
      user name mentions it. */
  predicate ConversationMatches(c: Conversation, me: Id, query: string) {
    if query == [] then true
    else if c.isGroup then c.groupName.Some? && Mentions(c.groupName.value, query)
    else
      var other := OtherParticipant(c.participants, me);
      other.Some? && (Mentions(other.value.displayName, query) || Mentions(other.value.username, query))
  }

  predicate UserMatches(u: Profile, query: string) {
    query == [] || Mentions(u.displayName, query) || Mentions(u.username, query)
  }

  function FilteredConversations(conversations: seq<Conversation>, me: Id, query: string): (r: seq<Conversation>)
    ensures Subsequence(r, conversations)
    ensures forall c :: c in r <==> c in conversations && ConversationMatches(c, me, query)
    ensures query == [] ==> r == conversations
    ensures forall c :: multiset(r)[c] == if ConversationMatches(c, me, query) then multiset(conversations)[c] else 0
  {
    Filter(conversations, c => ConversationMatches(c, me, query))
  }

  function FilteredUsers(users: seq<Profile>, query: string): (r: seq<Profile>)
    ensures Subsequence(r, users)
    ensures forall u :: u in r <==> u in users && UserMatches(u, query)
    ensures query == [] ==> r == users
    ensures forall u :: multiset(r)[u] == if UserMatches(u, query) then multiset(users)[u] else 0
  {
    Filter(users, u => UserMatches(u, query))
  }

  /** The matching ignores ASCII case on both sides. */
  lemma {:induction false} MentionsIgnoresCase(text: string, query: string)
    ensures Mentions(ToLower(text), query) == Mentions(text, query)
    ensures Mentions(text, ToLower(query)) == Mentions(text, query)
  {
    ToLowerIdempotent(text);
    ToLowerIdempotent(query);
  }

  lemma ToLowerIdempotent(s: string)
    ensures ToLower(ToLower(s)) == ToLower(s)
  {
    forall i | 0 <= i < |s|
      ensures LowerChar(LowerChar(s[i])) == LowerChar(s[i])
    {
    }
  }

  /** A search for a name picks exactly the direct conversations whose other person
      carries it, whatever the case of the query. */
  lemma DirectMatchIgnoresCase(c: Conversation, me: Id, query: string)
    requires !c.isGroup && query != []
    ensures ConversationMatches(c, me, ToLower(query)) == ConversationMatches(c, me, query)
  {
    ToLowerIdempotent(query);
    assert ToLower(query) != [];
  }

  const UnknownUser := "Неизвестный пользователь"

  /** `getConversationTitle`: a group's name, which may be missing; otherwise the other
      participant's display name, or the unknown-user text when there is no other
      participant or their display name is empty. */
  function ConversationTitle(c: Conversation, me: Id): (r: Option<string>)
    ensures c.isGroup ==> r == c.groupName
    ensures !c.isGroup ==> r.Some? && r.value != []
    ensures !c.isGroup && r != Some(UnknownUser)
            ==> exists p :: p in c.participants && p.id != me && p.displayName == r.value
    ensures !c.isGroup ==>
      forall i :: (0 <= i < |c.participants| && c.participants[i].id != me
                   && forall j :: 0 <= j < i ==> c.participants[j].id == me)
                  ==> r == Some(if c.participants[i].displayName != [] then c.participants[i].displayName else UnknownUser)
    ensures !c.isGroup && (forall i :: 0 <= i < |c.participants| ==> c.participants[i].id == me)
            ==> r == Some(UnknownUser)
  {
    if c.isGroup then c.groupName
    else
      var other := OtherParticipant(c.participants, me);
      if other.Some? && other.value.displayName != [] then Some(other.value.displayName)
      else Some(UnknownUser)
  }
}
