/** The open conversation's message list on the phone layout: REST history replaces it
    wholesale, each change of the push buffer may append the buffer's last frame, and a
    successful send empties the push buffer. */
module MobileChatWindow {
  import opened Wrappers
  import opened Text
  import opened Domain
  import WebSocketContext

  predicate HasMessage(list: seq<Message>, id: Id) {
    exists i :: 0 <= i < |list| && list[i].id == id
  }

  predicate DistinctMessageIds(list: seq<Message>) {
    forall i, j :: 0 <= i < j < |list| ==> list[i].id != list[j].id
  }

  /** The updater given to `setMessages` for a pushed message: a message whose id is
      already listed changes nothing, any other goes to the tail, so ids never repeat and
      earlier entries are never touched. */
  function MergePushed(prev: seq<Message>, m: Message): (r: seq<Message>)
    ensures HasMessage(r, m.id)
    ensures HasMessage(prev, m.id) ==> r == prev
    ensures !HasMessage(prev, m.id) ==> |r| == |prev| + 1 && r[..|prev|] == prev && r[|prev|] == m
    ensures DistinctMessageIds(prev) ==> DistinctMessageIds(r)
  {
    if HasMessage(prev, m.id) then prev
    else
      assert (prev + [m])[|prev|] == m;
      prev + [m]
  }

  /** The effect run on every change of the push buffer: only the buffer's last frame is
      looked at, and only when it belongs to the open conversation; then it is merged and
      the conversation list is asked to refresh (the boolean). */
  function PushEffect(buffer: seq<Message>, conversation: Option<Conversation>, messages: seq<Message>)
    : (r: (seq<Message>, bool))
    ensures buffer == [] || conversation.None? || buffer[|buffer| - 1].conversationId != conversation.value.id
            ==> r == (messages, false)
    ensures buffer != [] && conversation.Some? && buffer[|buffer| - 1].conversationId == conversation.value.id
            ==> r == (MergePushed(messages, buffer[|buffer| - 1]), true)
  {
    if |buffer| > 0 then
      var last := buffer[|buffer| - 1];
      if conversation.Some? && last.conversationId == conversation.value.id then
        (MergePushed(messages, last), true)
      else (messages, false)
    else (messages, false)
  }

  /** Frames buffered before the last one play no part: two buffers with the same last
      frame have the same effect. */
  lemma OnlyLastFrameCounts(earlier1: seq<Message>, earlier2: seq<Message>, last: Message,
                            conversation: Option<Conversation>, messages: seq<Message>)
    ensures PushEffect(earlier1 + [last], conversation, messages)
         == PushEffect(earlier2 + [last], conversation, messages)
  {
    assert (earlier1 + [last])[|earlier1|] == last;
    assert (earlier2 + [last])[|earlier2|] == last;
  }

  /** The list after frames `pushed` arrive one render at a time, starting from `messages`. */
  function ApplyPushes(messages: seq<Message>, conversation: Option<Conversation>, pushed: seq<Message>)
    : seq<Message>
    decreases |pushed|
  {
    if pushed == [] then messages
    else ApplyPushes(PushEffect([pushed[0]], conversation, messages).0, conversation, pushed[1..])
  }

  predicate ForConversation(m: Message, conversation: Option<Conversation>) {
    conversation.Some? && m.conversationId == conversation.value.id
  }

  /** Whatever arrives, the list only grows at its tail, never lists an id twice if it
      did not before, lists every id pushed for the open conversation, and gains only
      messages of that conversation. */
  lemma {:induction false} PushesKeepLog(messages: seq<Message>, conversation: Option<Conversation>,
                                         pushed: seq<Message>)
    ensures messages <= ApplyPushes(messages, conversation, pushed)
    ensures DistinctMessageIds(messages) ==> DistinctMessageIds(ApplyPushes(messages, conversation, pushed))
    ensures forall i :: 0 <= i < |pushed| && ForConversation(pushed[i], conversation)
              ==> HasMessage(ApplyPushes(messages, conversation, pushed), pushed[i].id)
    ensures forall i :: |messages| <= i < |ApplyPushes(messages, conversation, pushed)|
              ==> ForConversation(ApplyPushes(messages, conversation, pushed)[i], conversation)
    decreases |pushed|
  {
    if pushed != [] {
      var next := PushEffect([pushed[0]], conversation, messages).0;
      PushesKeepLog(next, conversation, pushed[1..]);
      var r := ApplyPushes(messages, conversation, pushed);
      assert r == ApplyPushes(next, conversation, pushed[1..]);
      assert messages <= next;
      if ForConversation(pushed[0], conversation) {
        var k :| 0 <= k < |next| && next[k].id == pushed[0].id;
        assert r[k] == next[k];
      }
      forall i | |messages| <= i < |r| ensures ForConversation(r[i], conversation) {
        if i < |next| { assert r[i] == next[i]; }
      }
    }
  }

  /** Redelivery changes nothing: replaying the same frames a second time leaves the list
      as the first pass left it. */
  lemma {:induction false} RedeliveryIsIgnored(messages: seq<Message>, conversation: Option<Conversation>,
                                               seen: seq<Message>, pushed: seq<Message>)
    requires forall i :: 0 <= i < |pushed| && ForConversation(pushed[i], conversation) ==> HasMessage(seen, pushed[i].id)
    ensures ApplyPushes(seen, conversation, pushed) == seen
    decreases |pushed|
  {
    if pushed != [] {
      RedeliveryIsIgnored(messages, conversation, seen, pushed[1..]);
    }
  }

  /** After a history load, frames with new and distinct ids of the open conversation
      each add exactly one entry. */
  lemma {:induction false} UnseenPushesGrowLog(loaded: seq<Message>, conversation: Option<Conversation>,
                                               pushed: seq<Message>)
    requires forall i :: 0 <= i < |pushed| ==> ForConversation(pushed[i], conversation) && !HasMessage(loaded, pushed[i].id)
    requires DistinctMessageIds(pushed)
    ensures |ApplyPushes(loaded, conversation, pushed)| == |loaded| + |pushed|
    decreases |pushed|
  {
    if pushed != [] {
      var next := PushEffect([pushed[0]], conversation, loaded).0;
      assert next == loaded + [pushed[0]];
      forall i | 0 <= i < |pushed[1..]| ensures !HasMessage(next, pushed[1..][i].id) {
        assert pushed[1..][i] == pushed[i + 1];
      }
      UnseenPushesGrowLog(next, conversation, pushed[1..]);
    }
  }

  /** What `sendMessage` posts, when its guard lets it through: the trimmed draft, for the
      open conversation. */
  datatype PostMessage = PostMessage(content: string, conversationId: Id)

  /** The guard of `sendMessage`: nothing is sent when the trimmed draft is empty, no
      conversation is open or a send is in flight; otherwise the trimmed draft is posted. */
  function SendRequest(draft: string, conversation: Option<Conversation>, sending: bool): (r: Option<PostMessage>)
    ensures r.None? <==> AllSpace(draft) || conversation.None? || sending
    ensures r.Some? ==> r.value.content == Trim(draft) && r.value.content != []
                        && r.value.conversationId == conversation.value.id
  {
    if Trim(draft) == [] || conversation.None? || sending then None
    else Some(PostMessage(Trim(draft), conversation.value.id))
  }

  class ChatWindow {
    var conversation: Option<Conversation>
    var messages: seq<Message>
    var newMessage: string
    var loading: bool
    var sending: bool
    /** The trimmed text of the send that is awaiting the server, if any. */
    var inFlight: Option<string>

    constructor (conversation: Option<Conversation>)
      ensures this.conversation == conversation && messages == [] && newMessage == []
      ensures !loading && !sending && inFlight.None?
    {
      this.conversation := conversation;
      messages := [];
      newMessage := [];
      loading := false;
      sending := false;
      inFlight := None;
    }

    /** `loadMessages` with the fetched history (`None` when the request failed): the
        history replaces the list, a failure keeps it, and `loading` ends false. */
    method LoadMessages(fetched: Option<seq<Message>>)
      modifies this
      ensures conversation.Some? && fetched.Some? ==> messages == fetched.value
      ensures conversation.None? || fetched.None? ==> messages == old(messages)
      ensures conversation.Some? ==> !loading
      ensures conversation.None? ==> loading == old(loading)
      ensures conversation == old(conversation) && newMessage == old(newMessage)
      ensures sending == old(sending) && inFlight == old(inFlight)
    {
      if conversation.None? {
        return;
      }
      loading := true;
      if fetched.Some? {
        messages := fetched.value;
      }
      loading := false;
    }

    /** The effect on the push buffer of `ws`; `refresh` tells whether
        `onConversationUpdate` was called. */
    method OnPushBufferChanged(ws: WebSocketContext.WebSocketProvider) returns (refresh: bool)
      modifies this`messages
      ensures (messages, refresh) == PushEffect(ws.messages, conversation, old(messages))
    {
      refresh := false;
      if |ws.messages| > 0 {
        var lastMessage := ws.messages[|ws.messages| - 1];
        if conversation.Some? && lastMessage.conversationId == conversation.value.id {
          messages := MergePushed(messages, lastMessage);
          refresh := true;
        }
      }
    }

    /** The draft's `onChange`. */
    method TypeDraft(text: string)
      modifies this`newMessage
      ensures newMessage == text
    {
      newMessage := text;
    }

    /** `sendMessage` up to the request: behind the guard, `sending` is set, the draft is
        cleared and the trimmed text is posted. */
    method SubmitDraft() returns (request: Option<PostMessage>)
      modifies this`sending, this`newMessage, this`inFlight
      ensures request == SendRequest(old(newMessage), conversation, old(sending))
      ensures request.None? ==> sending == old(sending) && newMessage == old(newMessage) && inFlight == old(inFlight)
      ensures request.Some? ==> sending && newMessage == [] && inFlight == Some(request.value.content)
    {
      if Trim(newMessage) == [] || conversation.None? || sending {
        return None;
      }
      sending := true;
      var messageText := Trim(newMessage);
      newMessage := [];
      inFlight := Some(messageText);
      request := Some(PostMessage(messageText, conversation.value.id));
    }

    /** The rest of `sendMessage` once the post settles: success empties the whole push
        buffer of `ws`, failure puts the trimmed text back as the draft; either way
        `sending` ends false. */
    method SendSettled(ok: bool, ws: WebSocketContext.WebSocketProvider)
      requires inFlight.Some?
      modifies this`sending, this`newMessage, this`inFlight, ws`messages
      ensures !sending && inFlight.None?
      ensures ok ==> ws.messages == [] && newMessage == old(newMessage)
      ensures !ok ==> ws.messages == old(ws.messages) && newMessage == old(inFlight.value)
    {
      var messageText := inFlight.value;
      if ok {
        ws.SetMessages([]);
      } else {
        newMessage := messageText;
      }
      sending := false;
      inFlight := None;
    }
  }
}
