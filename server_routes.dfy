/** The decisions of the backend's message and conversation routes, with the database's
    query results as inputs: the conversations collection and the users and messages
    collections as sequences in their natural order, and the fresh id, the clock reading
    and the inserted document's `_id` as parameters. */
module ServerRoutes {
  import opened Wrappers
  import opened Domain
  import opened PyJson
  import opened ConnectionManager
  import opened Seqs

  datatype HttpError = HttpError(status: int, detail: string)

  /** `MessageCreate.content`'s `max_length`, checked before the handler runs. */
  const MaxContentLength := 1000

  const NotFound := HttpError(404, "Conversation not found")
  const Forbidden := HttpError(403, "Not a participant in this conversation")
  const Invalid := HttpError(422, "String should have at most 1000 characters")
  /** What an exception escaping a handler becomes. */
  const ServerError := HttpError(500, "Internal Server Error")

  /** `find_one({"id": ...})`: the first conversation in the collection with that id. */
  function FindConversation(db: seq<Conversation>, id: Id): (r: Option<Conversation>)
    ensures r.None? <==> !HasConversation(db, id)
    ensures r.Some? ==> r.value in db && r.value.id == id
    ensures forall i :: (0 <= i < |db| && db[i].id == id && forall j :: 0 <= j < i ==> db[j].id != id)
                        ==> r == Some(db[i])
  {
    if db == [] then None
    else if db[0].id == id then Some(db[0])
    else
      var rest := FindConversation(db[1..], id);
      assert forall i :: 1 <= i < |db| ==> db[i] == db[1..][i - 1];
      assert HasConversation(db[1..], id) ==> HasConversation(db, id);
      rest
  }

  function ParticipantIds(c: Conversation): (r: seq<Id>)
    ensures |r| == |c.participants|
    ensures forall i :: 0 <= i < |r| ==> r[i] == c.participants[i].id
  {
    seq(|c.participants|, i requires 0 <= i < |c.participants| => c.participants[i].id)
  }

  /** The check `send_message` and `get_messages` share: 404 when the conversation is
      missing, 403 when the caller is not among its participants, the conversation
      otherwise. */
  function Authorize(db: seq<Conversation>, conversationId: Id, me: Id): (r: Result<Conversation, HttpError>)
    ensures r == Err(NotFound) <==> !HasConversation(db, conversationId)
    ensures r == Err(Forbidden) <==> HasConversation(db, conversationId)
                                     && me !in ParticipantIds(FindConversation(db, conversationId).value)
    ensures r.Ok? ==> r.value in db && r.value.id == conversationId && me in ParticipantIds(r.value)
    ensures r.Err? ==> r.error == NotFound || r.error == Forbidden
  {
    match FindConversation(db, conversationId)
    case None => Err(NotFound)
    case Some(c) => if me in ParticipantIds(c) then Ok(c) else Err(Forbidden)
  }

  // ---------------------------------------------------------------- send_message

  datatype MessageCreate = MessageCreate(content: string, conversationId: Id)

  /** What `send_message` decides before it writes: the new message and the ids it is
      pushed to, which are the conversation's participants in their stored order. */
  datatype Accepted = Accepted(message: Message, recipients: seq<Id>)

  function Accept(db: seq<Conversation>, req: MessageCreate, me: Profile, freshId: Id, now: int)
    : (r: Result<Accepted, HttpError>)
    ensures |req.content| > MaxContentLength ==> r == Err(Invalid)
    ensures |req.content| <= MaxContentLength && Authorize(db, req.conversationId, me.id).Err?
            ==> r == Err(Authorize(db, req.conversationId, me.id).error)
    ensures r.Ok? <==> |req.content| <= MaxContentLength && Authorize(db, req.conversationId, me.id).Ok?
    ensures r.Ok? ==> r.value.message == Message(freshId, req.conversationId, me.id, me.displayName,
                                                 me.avatarUrl, req.content, now)
    ensures r.Ok? ==> r.value.recipients == ParticipantIds(Authorize(db, req.conversationId, me.id).value)
                      && me.id in r.value.recipients
  {
    if |req.content| > MaxContentLength then Err(Invalid)
    else
      match Authorize(db, req.conversationId, me.id)
      case Err(e) => Err(e)
      case Ok(c) =>
        Ok(Accepted(Message(freshId, req.conversationId, me.id, me.displayName, me.avatarUrl,
                            req.content, now), ParticipantIds(c)))
  }

  function OptionalText(s: Option<string>): Json {
    if s.Some? then JStr(s.value) else JNull
  }

  /** The fields of a message document that are plain JSON, in the order of the
      handler's dictionary; the timestamp comes separately. */
  function PlainFields(m: Message): seq<Member> {
    [Member("id", JStr(m.id)), Member("sender_id", JStr(m.senderId)),
     Member("sender_name", JStr(m.senderName)), Member("sender_avatar", OptionalText(m.senderAvatar)),
     Member("content", JStr(m.content)), Member("conversation_id", JStr(m.conversationId))]
  }

  /** The dictionary the handler builds, after `insert_one` has added its `_id`: the
      timestamp is still a `datetime` and `_id` an `ObjectId`. */
  function InsertedDocument(m: Message, objectId: string): Json {
    JObject(PlainFields(m) + [Member("timestamp", JDateTime(m.timestamp)),
                              Member("message_type", JStr("text")),
                              Member("_id", JObjectId(objectId))])
  }

  /** The same message as plain JSON, its timestamp given as text. */
  function MessageJson(m: Message, stamp: string): Json {
    JObject(PlainFields(m) + [Member("timestamp", JStr(stamp)), Member("message_type", JStr("text"))])
  }

  function NewMessageFrame(message: Json): Json {
    JObject([Member("type", JStr("new_message")), Member("message", message)])
  }

  /** The frame the handler pushes cannot be serialised: whatever the message, the
      `datetime` in it makes `json.dumps` raise. */
  lemma InsertedDocumentRejected(m: Message, objectId: string)
    ensures !Serializable(NewMessageFrame(InsertedDocument(m, objectId)))
  {
    var document := InsertedDocument(m, objectId);
    assert document.fields[6].value == JDateTime(m.timestamp);
    assert !Serializable(document);
    assert NewMessageFrame(document).fields[1].value == document;
  }

  /** The frame built from the message as plain JSON always serialises. */
  lemma MessageJsonAccepted(m: Message, stamp: string)
    ensures Serializable(NewMessageFrame(MessageJson(m, stamp)))
  {
    var fields := MessageJson(m, stamp).fields;
    forall i | 0 <= i < |fields|
      ensures Serializable(fields[i].value)
    {
      if i == 3 {
        assert fields[3].value == OptionalText(m.senderAvatar);
      }
    }
  }

  /** `send_message` as written: past the checks the message is stored, then
      `send_to_group` raises on the frame, so the caller gets a 500 and nobody gets a
      push. */
  function SendAsWritten(reg: Registry, db: seq<Conversation>, req: MessageCreate, me: Profile,
                         freshId: Id, now: int, objectId: string)
    : (r: (Result<Message, HttpError>, Option<Message>, seq<Delivery>))
    ensures Accept(db, req, me, freshId, now).Err? ==> r == (Err(Accept(db, req, me, freshId, now).error), None, [])
    ensures Accept(db, req, me, freshId, now).Ok?
            ==> r == (Err(ServerError), Some(Accept(db, req, me, freshId, now).value.message), [])
  {
    match Accept(db, req, me, freshId, now)
    case Err(e) => (Err(e), None, [])
    case Ok(a) =>
      InsertedDocumentRejected(a.message, objectId);
      match GroupSend(reg, a.recipients, NewMessageFrame(InsertedDocument(a.message, objectId)))
      case Err(_) => (Err(ServerError), Some(a.message), [])
      case Ok(pushed) => (Ok(a.message), Some(a.message), pushed)
  }

  /** The text of the corrected frame. */
  function FrameText(m: Message, stamp: string): (r: string)
    ensures Dumps(NewMessageFrame(MessageJson(m, stamp))) == Ok(r)
    ensures PrintableAscii(r)
  {
    MessageJsonAccepted(m, stamp);
    Dumps(NewMessageFrame(MessageJson(m, stamp))).value
  }

  /** A concrete request that shows it: a participant posting "hi" to their own
      conversation, with nobody connected, still gets a 500. */
  lemma SendAsWrittenFails()
    ensures SendAsWritten(Registry(map[], map[]),
                          [Conversation("c", [Profile("u", "ann", "Ann", None)], false, None)],
                          MessageCreate("hi", "c"), Profile("u", "ann", "Ann", None), "m", 0, "oid").0
            == Err(ServerError)
  {
    var db := [Conversation("c", [Profile("u", "ann", "Ann", None)], false, None)];
    assert ParticipantIds(db[0]) == ["u"];
    assert Accept(db, MessageCreate("hi", "c"), Profile("u", "ann", "Ann", None), "m", 0).Ok?;
  }

  /** `send_message` with the frame built from the message as plain JSON: the message is
      stored and returned, and the frame is written to the participants' connections. */
  function Send(reg: Registry, db: seq<Conversation>, req: MessageCreate, me: Profile,
                freshId: Id, now: int, stamp: string)
    : (r: (Result<Message, HttpError>, Option<Message>, seq<Delivery>))
    ensures Accept(db, req, me, freshId, now).Err? ==> r == (Err(Accept(db, req, me, freshId, now).error), None, [])
    ensures Accept(db, req, me, freshId, now).Ok?
            ==> var a := Accept(db, req, me, freshId, now).value;
                r == (Ok(a.message), Some(a.message),
                      GroupWrites(reg, a.recipients, FrameText(a.message, stamp)))
  {
    match Accept(db, req, me, freshId, now)
    case Err(e) => (Err(e), None, [])
    case Ok(a) =>
      MessageJsonAccepted(a.message, stamp);
      var push := GroupSend(reg, a.recipients, NewMessageFrame(MessageJson(a.message, stamp)));
      (Ok(a.message), Some(a.message), push.value)
  }

  /** Every registered connection of every participant, the sender's own included, gets
      the new-message frame. */
  lemma SendReachesParticipants(reg: Registry, db: seq<Conversation>, req: MessageCreate, me: Profile,
                                freshId: Id, now: int, stamp: string, p: Id, c: ConnId)
    requires Accept(db, req, me, freshId, now).Ok?
    requires p in Accept(db, req, me, freshId, now).value.recipients
    requires c in ConnectionsOf(reg.users, p) && c in reg.active
    ensures var a := Accept(db, req, me, freshId, now).value;
            Delivery(reg.active[c], FrameText(a.message, stamp))
              in Send(reg, db, req, me, freshId, now, stamp).2
  {
    var a := Accept(db, req, me, freshId, now).value;
    GroupReaches(reg, a.recipients, p, c, FrameText(a.message, stamp));
  }

  /** The route as written, over the live registry. */
  method SendMessageAsWritten(manager: Manager, db: seq<Conversation>, req: MessageCreate, me: Profile,
                              freshId: Id, now: int, objectId: string)
    returns (response: Result<Message, HttpError>, stored: Option<Message>, pushed: seq<Delivery>)
    ensures (response, stored, pushed) == SendAsWritten(manager.State(), db, req, me, freshId, now, objectId)
  {
    var accepted := Accept(db, req, me, freshId, now);
    if accepted.Err? {
      return Err(accepted.error), None, [];
    }
    var message := accepted.value.message;
    stored := Some(message);
    var document := InsertedDocument(message, objectId);
    var push := manager.SendToGroup(NewMessageFrame(document), accepted.value.recipients);
    if push.Err? {
      return Err(ServerError), stored, [];
    }
    response, pushed := Ok(message), push.value;
  }

  /** The route with the corrected frame, over the live registry. */
  method SendMessage(manager: Manager, db: seq<Conversation>, req: MessageCreate, me: Profile,
                     freshId: Id, now: int, stamp: string)
    returns (response: Result<Message, HttpError>, stored: Option<Message>, pushed: seq<Delivery>)
    ensures (response, stored, pushed) == Send(manager.State(), db, req, me, freshId, now, stamp)
  {
    var accepted := Accept(db, req, me, freshId, now);
    if accepted.Err? {
      return Err(accepted.error), None, [];
    }
    var message := accepted.value.message;
    stored := Some(message);
    MessageJsonAccepted(message, stamp);
    var push := manager.SendToGroup(NewMessageFrame(MessageJson(message, stamp)), accepted.value.recipients);
    response, pushed := Ok(message), push.value;
  }

  // ---------------------------------------------------------------- get_messages

  /** `find({"conversation_id": ...})`: the conversation's messages in storage order. */
  function InConversation(stored: seq<Message>, conversationId: Id): (r: seq<Message>)
    ensures forall i :: 0 <= i < |r| ==> r[i].conversationId == conversationId
    ensures forall m :: m in stored && m.conversationId == conversationId <==> m in r
    ensures forall m :: m in r ==> m.conversationId == conversationId
    ensures |r| <= |stored|
  {
    if stored == [] then []
    else
      var rest := InConversation(stored[1..], conversationId);
      assert forall m :: m in stored <==> m == stored[0] || m in stored[1..];
      if stored[0].conversationId == conversationId then [stored[0]] + rest else rest
  }

  predicate NewestFirst(s: seq<Message>) {
    forall i, j :: 0 <= i < j < |s| ==> s[i].timestamp >= s[j].timestamp
  }

  predicate OldestFirst(s: seq<Message>) {
    forall i, j :: 0 <= i < j < |s| ==> s[i].timestamp <= s[j].timestamp
  }

  /** One step of `sort("timestamp", -1)`: a message goes in front of the first one that
      is not newer than it. */
  function InsertNewest(m: Message, s: seq<Message>): (r: seq<Message>)
    requires NewestFirst(s)
    ensures NewestFirst(r)
    ensures |r| == |s| + 1
    ensures forall x :: x in r <==> x == m || x in s
  {
    if s == [] || m.timestamp >= s[0].timestamp then [m] + s
    else
      var rest := InsertNewest(m, s[1..]);
      assert forall x :: x in s <==> x == s[0] || x in s[1..];
      assert forall j :: 0 < j < |s| ==> s[0].timestamp >= s[j].timestamp;
      assert forall x :: x in s[1..] ==> s[0].timestamp >= x.timestamp;
      assert forall x :: x in rest ==> s[0].timestamp >= x.timestamp;
      assert forall j :: 0 < j < |rest| + 1 ==> ([s[0]] + rest)[j] == rest[j - 1] && rest[j - 1] in rest;
      [s[0]] + rest
  }

  lemma {:induction false} InsertNewestKeeps(m: Message, s: seq<Message>)
    requires NewestFirst(s)
    ensures multiset(InsertNewest(m, s)) == multiset(s) + multiset{m}
  {
    if s != [] && m.timestamp < s[0].timestamp {
      InsertNewestKeeps(m, s[1..]);
      assert s == [s[0]] + s[1..];
    }
  }

  /** `sort("timestamp", -1)`: newest first, equal timestamps kept in storage order. */
  function SortNewest(s: seq<Message>): (r: seq<Message>)
    ensures NewestFirst(r)
    ensures |r| == |s|
    ensures forall x :: x in r <==> x in s
    ensures multiset(r) == multiset(s)
  {
    if s == [] then []
    else
      assert s == [s[0]] + s[1..];
      InsertNewestKeeps(s[0], SortNewest(s[1..]));
      InsertNewest(s[0], SortNewest(s[1..]))
  }

  function Reverse(s: seq<Message>): (r: seq<Message>)
    ensures |r| == |s|
    ensures forall i :: 0 <= i < |s| ==> r[i] == s[|s| - 1 - i]
  {
    if s == [] then [] else Reverse(s[1..]) + [s[0]]
  }

  function Min(a: int, b: int): int {
    if a <= b then a else b
  }

  /** `sort("timestamp", -1).limit(limit)`, then `reverse()`. */
  function LatestOldestFirst(all: seq<Message>, limit: int): seq<Message>
    requires limit > 0
  {
    var newest := SortNewest(all);
    Reverse(newest[..Min(limit, |newest|)])
  }

  /** `get_messages`: after the 404/403 check, the `limit` newest messages of the
      conversation, sorted newest first, cut at `limit` and then reversed. */
  function GetMessages(db: seq<Conversation>, conversationId: Id, me: Id, stored: seq<Message>, limit: int)
    : (r: Result<seq<Message>, HttpError>)
    requires limit > 0
    ensures r.Err? <==> Authorize(db, conversationId, me).Err?
    ensures r.Err? ==> r.error == Authorize(db, conversationId, me).error
    ensures r.Ok? ==> r.value == LatestOldestFirst(InConversation(stored, conversationId), limit)
  {
    match Authorize(db, conversationId, me)
    case Err(e) => Err(e)
    case Ok(_) => Ok(LatestOldestFirst(InConversation(stored, conversationId), limit))
  }

  /** The answer is oldest first, with `limit` messages or all of them when there are
      fewer. */
  lemma LatestInOrder(all: seq<Message>, limit: int)
    requires limit > 0
    ensures OldestFirst(LatestOldestFirst(all, limit))
    ensures |LatestOldestFirst(all, limit)| == Min(limit, |all|)
  {
    var newest := SortNewest(all);
    var kept := newest[..Min(limit, |newest|)];
    var r := Reverse(kept);
    forall i, j | 0 <= i < j < |r|
      ensures r[i].timestamp <= r[j].timestamp
    {
      assert r[i] == newest[|kept| - 1 - i] && r[j] == newest[|kept| - 1 - j];
    }
  }

  /** The messages `limit` cuts off. */
  function Omitted(all: seq<Message>, limit: int): seq<Message>
    requires limit > 0
  {
    var newest := SortNewest(all);
    newest[Min(limit, |newest|)..]
  }

  /** The answer and the messages it leaves out make up all of them. */
  lemma LatestAndOmittedAreAll(all: seq<Message>, limit: int)
    requires limit > 0
    ensures multiset(LatestOldestFirst(all, limit)) + multiset(Omitted(all, limit)) == multiset(all)
  {
    var newest := SortNewest(all);
    var k := Min(limit, |newest|);
    ReverseKeepsMultiset(newest[..k]);
    assert newest == newest[..k] + newest[k..];
  }

  /** None of the messages left out is newer than one returned. */
  lemma OmittedAreOlder(all: seq<Message>, limit: int)
    requires limit > 0
    ensures var r := LatestOldestFirst(all, limit);
            var omitted := Omitted(all, limit);
            forall i, j :: 0 <= i < |r| && 0 <= j < |omitted| ==> omitted[j].timestamp <= r[i].timestamp
  {
    var newest := SortNewest(all);
    var k := Min(limit, |newest|);
    var r := LatestOldestFirst(all, limit);
    var omitted := Omitted(all, limit);
    forall i, j | 0 <= i < |r| && 0 <= j < |omitted|
      ensures omitted[j].timestamp <= r[i].timestamp
    {
      assert r[i] == newest[k - 1 - i];
      assert omitted[j] == newest[k + j];
    }
  }

  /** What `get_messages` hands back belongs to the asked conversation. */
  lemma LatestOfConversation(stored: seq<Message>, conversationId: Id, limit: int)
    requires limit > 0
    ensures var r := LatestOldestFirst(InConversation(stored, conversationId), limit);
            forall i :: 0 <= i < |r| ==> r[i].conversationId == conversationId
  {
    var all := InConversation(stored, conversationId);
    var newest := SortNewest(all);
    var k := Min(limit, |newest|);
    var r := LatestOldestFirst(all, limit);
    forall i | 0 <= i < |r|
      ensures r[i].conversationId == conversationId
    {
      assert r[i] == newest[k - 1 - i];
      assert r[i] in newest;
    }
  }

  lemma {:induction false} ReverseKeepsMultiset(s: seq<Message>)
    ensures multiset(Reverse(s)) == multiset(s)
  {
    if s != [] {
      ReverseKeepsMultiset(s[1..]);
      assert s == [s[0]] + s[1..];
    }
  }

  // ---------------------------------------------------------------- create_conversation

  datatype ConversationCreate = ConversationCreate(participantIds: seq<Id>, isGroup: bool, groupName: Option<string>)

  /** `set(participant_ids + [current_user.id])`: the requested ids and the caller, each once. */
  function ParticipantSet(req: ConversationCreate, me: Id): (r: set<Id>)
    ensures me in r
    ensures forall id :: id in r <==> id == me || id in req.participantIds
  {
    set id | id in req.participantIds + [me]
  }

  /** The `$all` lookup: a stored direct conversation whose participant ids include every
      wanted id. */
  predicate CoversDirect(c: Conversation, wanted: set<Id>) {
    !c.isGroup && forall id :: id in wanted ==> id in ParticipantIds(c)
  }

  /** `find_one` with that filter: the first such conversation in the collection. */
  function FindDirect(db: seq<Conversation>, wanted: set<Id>): (r: Option<Conversation>)
    ensures r.Some? ==> r.value in db && CoversDirect(r.value, wanted)
    ensures r.None? ==> forall i :: 0 <= i < |db| ==> !CoversDirect(db[i], wanted)
    ensures forall i :: (0 <= i < |db| && CoversDirect(db[i], wanted)
                         && forall j :: 0 <= j < i ==> !CoversDirect(db[j], wanted))
                        ==> r == Some(db[i])
  {
    if db == [] then None
    else if CoversDirect(db[0], wanted) then Some(db[0])
    else
      var rest := FindDirect(db[1..], wanted);
      assert forall i :: 1 <= i < |db| ==> db[i] == db[1..][i - 1];
      rest
  }

  /** `users.find({"id": {"$in": ...}})`: the matching users in collection order, each
      stored user at most once. */
  function UsersIn(users: seq<Profile>, wanted: set<Id>): (r: seq<Profile>)
    ensures Subsequence(r, users)
    ensures forall p :: p in r <==> p in users && p.id in wanted
    ensures forall i :: 0 <= i < |r| ==> r[i].id in wanted && r[i] in users
    ensures |r| <= |users|
    ensures forall p :: multiset(r)[p] == if p.id in wanted then multiset(users)[p] else 0
  {
    var r := Filter(users, (p: Profile) => p.id in wanted);
    SubsequenceLength(r, users);
    r
  }

  /** `to_list(100)`. */
  const MaxListed := 100

  /** `create_conversation`: the conversation returned, and whether it is a new one the
      route stores. A direct request for two people returns the first stored direct
      conversation that has both of them; anything else creates a conversation with the
      users whose ids were asked for, at most 100 of them. */
  function CreateConversation(db: seq<Conversation>, users: seq<Profile>, req: ConversationCreate,
                              me: Id, freshId: Id): (r: (Conversation, bool))
    ensures !r.1 ==> !req.isGroup && |ParticipantSet(req, me)| == 2 && r.0 in db
                     && CoversDirect(r.0, ParticipantSet(req, me))
    ensures !r.1 ==> FindDirect(db, ParticipantSet(req, me)) == Some(r.0)
    ensures r.1 ==> r.0.id == freshId && r.0.isGroup == req.isGroup && r.0.groupName == req.groupName
    ensures r.1 ==> |r.0.participants| <= MaxListed
                    && forall i :: 0 <= i < |r.0.participants| ==> r.0.participants[i].id in ParticipantSet(req, me)
                                                                   && r.0.participants[i] in users
    ensures r.1 <==> req.isGroup || |ParticipantSet(req, me)| != 2 || FindDirect(db, ParticipantSet(req, me)).None?
  {
    var wanted := ParticipantSet(req, me);
    var existing := if !req.isGroup && |wanted| == 2 then FindDirect(db, wanted) else None;
    if existing.Some? then (existing.value, false)
    else
      var found := UsersIn(users, wanted);
      var listed := if |found| <= MaxListed then found else found[..MaxListed];
      (Conversation(freshId, listed, req.isGroup, req.groupName), true)
  }

  /** When every requested user exists once and there are at most 100 of them, a new
      conversation has exactly the requested people and the caller. */
  lemma NewConversationHasEveryone(db: seq<Conversation>, users: seq<Profile>, req: ConversationCreate,
                                   me: Id, freshId: Id, id: Id)
    requires CreateConversation(db, users, req, me, freshId).1
    requires |UsersIn(users, ParticipantSet(req, me))| <= MaxListed
    requires exists p :: p in users && p.id == id
    ensures id in ParticipantIds(CreateConversation(db, users, req, me, freshId).0)
            <==> id in ParticipantSet(req, me)
  {
    var wanted := ParticipantSet(req, me);
    var c := CreateConversation(db, users, req, me, freshId).0;
    assert c.participants == UsersIn(users, wanted);
    if id in wanted {
      var p :| p in users && p.id == id;
      var k :| 0 <= k < |c.participants| && c.participants[k] == p;
      assert ParticipantIds(c)[k] == id;
    }
  }

  /** The `$all` lookup also matches a direct conversation with more people in it: asking
      to talk to "b" returns a stored three-person direct conversation of "a", "b" and
      "c". */
  lemma LookupMatchesLargerConversation()
    ensures var a := Profile("a", "a", "A", None);
            var b := Profile("b", "b", "B", None);
            var x := Profile("c", "c", "C", None);
            var stored := Conversation("k", [a, b, x], false, None);
            CreateConversation([stored], [a, b, x], ConversationCreate(["b"], false, None), "a", "new")
              == (stored, false)
  {
    var a := Profile("a", "a", "A", None);
    var b := Profile("b", "b", "B", None);
    var x := Profile("c", "c", "C", None);
    var stored := Conversation("k", [a, b, x], false, None);
    var wanted := ParticipantSet(ConversationCreate(["b"], false, None), "a");
    assert wanted == {"a", "b"};
    assert ParticipantIds(stored) == ["a", "b", "c"];
    assert CoversDirect(stored, wanted);
    assert FindDirect([stored], wanted) == Some(stored);
    ReturnsFoundDirect([stored], [a, b, x], ConversationCreate(["b"], false, None), "a", "new", stored);
  }

  /** A direct request for two people returns the conversation the lookup found. */
  lemma ReturnsFoundDirect(db: seq<Conversation>, users: seq<Profile>, req: ConversationCreate,
                           me: Id, freshId: Id, c: Conversation)
    requires !req.isGroup && |ParticipantSet(req, me)| == 2
    requires FindDirect(db, ParticipantSet(req, me)) == Some(c)
    ensures CreateConversation(db, users, req, me, freshId) == (c, false)
  {
  }
}
