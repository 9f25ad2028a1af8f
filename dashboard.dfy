/** The desktop dashboard: the conversation list always beside a main pane that shows the
    chat or the settings. Request outcomes are inputs: `None` for a request that failed. */
module Dashboard {
  import opened Wrappers
  import opened Domain

  /** `activeView`: `'chat'` or `'settings'`. */
  datatype View = ChatView | SettingsView

  datatype Panes = Panes(activeView: View, selected: Option<Conversation>,
                         conversations: seq<Conversation>, users: seq<Profile>, loading: bool)

  /** The first render: the chat pane with nothing open, empty lists, and the spinner. */
  const Initial := Panes(ChatView, None, [], [], true)

  /** The initial load: both lists when both requests succeed, neither otherwise; the
      spinner goes either way. */
  function Loaded(s: Panes, result: Option<(seq<Conversation>, seq<Profile>)>): (r: Panes)
    ensures !r.loading
    ensures result.Some? ==> r.conversations == result.value.0 && r.users == result.value.1
    ensures result.None? ==> r.conversations == s.conversations && r.users == s.users
    ensures r.activeView == s.activeView && r.selected == s.selected
  {
    if result.Some? then s.(conversations := result.value.0, users := result.value.1, loading := false)
    else s.(loading := false)
  }

  /** `handleStartConversation`: listed once, in front only when its id is new, opened in
      the chat pane; a failed request changes nothing. */
  function Started(s: Panes, response: Option<Conversation>): (r: Panes)
    ensures response.None? ==> r == s
    ensures response.Some? ==> r.conversations == PrependIfAbsent(s.conversations, response.value)
                               && r.selected == response && r.activeView == ChatView
                               && r.users == s.users && r.loading == s.loading
    ensures response.Some? && DistinctIds(s.conversations) ==> DistinctIds(r.conversations)
  {
    if response.None? then s
    else s.(conversations := PrependIfAbsent(s.conversations, response.value),
            selected := response, activeView := ChatView)
  }

  /** `handleCreateGroup`: the group goes in front with no id check and is opened. */
  function GroupCreated(s: Panes, response: Option<Conversation>): (r: Panes)
    ensures response.None? ==> r == s
    ensures response.Some? ==> r.conversations == [response.value] + s.conversations
                               && r.selected == response && r.activeView == ChatView
                               && r.users == s.users && r.loading == s.loading
  {
    if response.None? then s
    else s.(conversations := [response.value] + s.conversations, selected := response, activeView := ChatView)
  }

  function Refreshed(s: Panes, response: Option<seq<Conversation>>): (r: Panes)
    ensures response.Some? ==> r == s.(conversations := response.value)
    ensures response.None? ==> r == s
  {
    if response.Some? then s.(conversations := response.value) else s
  }

  /** `onSelectConversation` is `setSelectedConversation` itself: the pane is left as it
      is, so a conversation picked while the settings are shown stays behind them. */
  function Selected(s: Panes, c: Conversation): (r: Panes)
    ensures r.selected == Some(c) && r.activeView == s.activeView
    ensures r.conversations == s.conversations && r.users == s.users && r.loading == s.loading
  {
    s.(selected := Some(c))
  }

  function SettingsOpened(s: Panes): (r: Panes)
    ensures r.activeView == SettingsView && r.selected == s.selected
    ensures r.conversations == s.conversations && r.users == s.users && r.loading == s.loading
  {
    s.(activeView := SettingsView)
  }

  /** The settings' `onClose`: back to the chat pane. */
  function SettingsClosed(s: Panes): (r: Panes)
    ensures r.activeView == ChatView && r.selected == s.selected
    ensures r.conversations == s.conversations && r.users == s.users && r.loading == s.loading
  {
    s.(activeView := ChatView)
  }

  datatype Action =
    | LoadSettled(result: Option<(seq<Conversation>, seq<Profile>)>)
    | StartConversation(response: Option<Conversation>)
    | CreateGroup(response: Option<Conversation>)
    | Refresh(listed: Option<seq<Conversation>>)
    | SelectConversation(c: Conversation)
    | OpenSettings
    | CloseSettings

  function Step(s: Panes, a: Action): Panes {
    match a
    case LoadSettled(result) => Loaded(s, result)
    case StartConversation(response) => Started(s, response)
    case CreateGroup(response) => GroupCreated(s, response)
    case Refresh(listed) => Refreshed(s, listed)
    case SelectConversation(c) => Selected(s, c)
    case OpenSettings => SettingsOpened(s)
    case CloseSettings => SettingsClosed(s)
  }

  function Run(s: Panes, actions: seq<Action>): Panes
    decreases |actions|
  {
    if actions == [] then s else Run(Step(s, actions[0]), actions[1..])
  }

  /** Only the initial load ends the spinner, and nothing turns it back on. */
  lemma {:induction false} LoadingUntilSettled(s: Panes, actions: seq<Action>)
    ensures !s.loading ==> !Run(s, actions).loading
    ensures (forall i :: 0 <= i < |actions| ==> !actions[i].LoadSettled?) ==> Run(s, actions).loading == s.loading
    decreases |actions|
  {
    if actions != [] {
      LoadingUntilSettled(Step(s, actions[0]), actions[1..]);
      assert forall i :: 1 <= i < |actions| ==> actions[1..][i - 1] == actions[i];
    }
  }

  /** When the first load fails, both lists stay empty. */
  lemma FailedLoadLeavesListsEmpty()
    ensures Loaded(Initial, None) == Panes(ChatView, None, [], [], false)
  {
  }

  class DashboardView {
    var activeView: View
    var selectedConversation: Option<Conversation>
    var conversations: seq<Conversation>
    var users: seq<Profile>
    var loading: bool

    function State(): Panes
      reads this
    {
      Panes(activeView, selectedConversation, conversations, users, loading)
    }

    constructor ()
      ensures State() == Initial
    {
      activeView := ChatView;
      selectedConversation := None;
      conversations := [];
      users := [];
      loading := true;
    }

    method LoadData(result: Option<(seq<Conversation>, seq<Profile>)>)
      modifies this
      ensures State() == Loaded(old(State()), result)
    {
      if result.Some? {
        conversations := result.value.0;
        users := result.value.1;
      }
      loading := false;
    }

    method HandleStartConversation(response: Option<Conversation>)
      modifies this
      ensures State() == Started(old(State()), response)
    {
      if response.None? {
        return;
      }
      var newConversation := response.value;
      conversations := PrependIfAbsent(conversations, newConversation);
      selectedConversation := Some(newConversation);
      activeView := ChatView;
    }

    method HandleCreateGroup(response: Option<Conversation>)
      modifies this
      ensures State() == GroupCreated(old(State()), response)
    {
      if response.None? {
        return;
      }
      var newGroup := response.value;
      conversations := [newGroup] + conversations;
      selectedConversation := Some(newGroup);
      activeView := ChatView;
    }

    method RefreshConversations(response: Option<seq<Conversation>>)
      modifies this
      ensures State() == Refreshed(old(State()), response)
    {
      if response.Some? {
        conversations := response.value;
      }
    }

    method SetSelectedConversation(conversation: Conversation)
      modifies this
      ensures State() == Selected(old(State()), conversation)
    {
      selectedConversation := Some(conversation);
    }

    method OpenSettings()
      modifies this
      ensures State() == SettingsOpened(old(State()))
    {
      activeView := SettingsView;
    }

    method CloseSettings()
      modifies this
      ensures State() == SettingsClosed(old(State()))
    {
      activeView := ChatView;
    }
  }
}
