/** The phone layout's dashboard: which of the three screens is shown, whether the
    conversation list is slid in, the open conversation, and the conversation and user
    lists. Request outcomes are inputs: `None` for a request that failed. */
module MobileDashboard {
  import opened Wrappers
  import opened Domain
  import CreateGroupModal

  /** `activeView`: `'conversations'`, `'chat'` or `'settings'`, and nothing else. */
  datatype View = ConversationsView | ChatView | SettingsView

  datatype Screen = Screen(activeView: View, selected: Option<Conversation>,
                           conversations: seq<Conversation>, users: seq<Profile>,
                           loading: bool, sidebarOpen: bool)

  const Initial := Screen(ConversationsView, None, [], [], true, true)

  /** The chat screen always has a conversation to show. */
  predicate ChatHasConversation(s: Screen) {
    s.activeView == ChatView ==> s.selected.Some?
  }

  /** The phone navigation stays coherent: the list is slid in exactly on the list screen,
      and the chat screen always has a conversation to show. */
  predicate Coherent(s: Screen) {
    (s.sidebarOpen <==> s.activeView == ConversationsView) && ChatHasConversation(s)
  }

  /** The initial load: both lists when both requests succeed, neither otherwise; the
      spinner goes either way. */
  function Loaded(s: Screen, result: Option<(seq<Conversation>, seq<Profile>)>): (r: Screen)
    ensures !r.loading
    ensures result.Some? ==> r.conversations == result.value.0 && r.users == result.value.1
    ensures result.None? ==> r.conversations == s.conversations && r.users == s.users
    ensures r.activeView == s.activeView && r.selected == s.selected && r.sidebarOpen == s.sidebarOpen
  {
    if result.Some? then s.(conversations := result.value.0, users := result.value.1, loading := false)
    else s.(loading := false)
  }

  /** The tail of `handleStartConversation` and `handleCreateGroup` once the server has
      answered: the conversation is opened on the chat screen with the list slid away. */
  function Open(s: Screen, list: seq<Conversation>, c: Conversation): (r: Screen)
    ensures r.selected == Some(c) && r.activeView == ChatView && !r.sidebarOpen
    ensures r.conversations == list && r.users == s.users && r.loading == s.loading
  {
    s.(conversations := list, selected := Some(c), activeView := ChatView, sidebarOpen := false)
  }

  /** `handleStartConversation`: the conversation the server returns is listed once, put
      in front only when its id is not listed yet, and opened. A failed request changes
      nothing. */
  function Started(s: Screen, response: Option<Conversation>): (r: Screen)
    ensures response.None? ==> r == s
    ensures response.Some? ==> r == Open(s, PrependIfAbsent(s.conversations, response.value), response.value)
    ensures response.Some? ==> HasConversation(r.conversations, response.value.id)
    ensures response.Some? && DistinctIds(s.conversations) ==> DistinctIds(r.conversations)
  {
    if response.None? then s
    else Open(s, PrependIfAbsent(s.conversations, response.value), response.value)
  }

  /** `handleCreateGroup`: the new group goes in front without any id check, and is
      opened. */
  function GroupCreated(s: Screen, response: Option<Conversation>): (r: Screen)
    ensures response.None? ==> r == s
    ensures response.Some? ==> r.conversations == [response.value] + s.conversations
                               && |r.conversations| == |s.conversations| + 1
    ensures response.Some? ==> r.selected == response && r.activeView == ChatView && !r.sidebarOpen
    ensures r.users == s.users && r.loading == s.loading
  {
    if response.None? then s else Open(s, [response.value] + s.conversations, response.value)
  }

  /** `refreshConversations`: the fetched list replaces the old one; a failure keeps it. */
  function Refreshed(s: Screen, response: Option<seq<Conversation>>): (r: Screen)
    ensures response.Some? ==> r == s.(conversations := response.value)
    ensures response.None? ==> r == s
  {
    if response.Some? then s.(conversations := response.value) else s
  }

  /** `handleSelectConversation`. */
  function Selected(s: Screen, c: Conversation): (r: Screen)
    ensures r == Open(s, s.conversations, c)
  {
    s.(selected := Some(c), activeView := ChatView, sidebarOpen := false)
  }

  /** `handleBackToList`: the list screen with nothing open. */
  function BackToList(s: Screen): (r: Screen)
    ensures r.activeView == ConversationsView && r.sidebarOpen && r.selected.None?
    ensures r.conversations == s.conversations && r.users == s.users && r.loading == s.loading
  {
    s.(activeView := ConversationsView, sidebarOpen := true, selected := None)
  }

  /** `handleOpenSettings`: the settings screen, the list slid away, the open conversation
      kept. */
  function SettingsOpened(s: Screen): (r: Screen)
    ensures r.activeView == SettingsView && !r.sidebarOpen
    ensures r.selected == s.selected && r.conversations == s.conversations && r.users == s.users
    ensures r.loading == s.loading
  {
    s.(activeView := SettingsView, sidebarOpen := false)
  }

  /** `handleCloseSettings`: back to the list, the open conversation kept. */
  function SettingsClosed(s: Screen): (r: Screen)
    ensures r.activeView == ConversationsView && r.sidebarOpen
    ensures r.selected == s.selected && r.conversations == s.conversations && r.users == s.users
    ensures r.loading == s.loading
  {
    s.(activeView := ConversationsView, sidebarOpen := true)
  }

  /** The desktop pane's own settings close, `() => setActiveView('conversations')`: the
      list view, with the sidebar flag and the open conversation left as they were. */
  function DesktopSettingsClosed(s: Screen): (r: Screen)
    ensures r.activeView == ConversationsView && r.sidebarOpen == s.sidebarOpen
    ensures r.selected == s.selected && r.conversations == s.conversations && r.users == s.users
    ensures r.loading == s.loading
  {
    s.(activeView := ConversationsView)
  }

  /** What the desktop main pane renders once the initial load has settled (while
      `loading` holds the component shows only the spinner). */
  datatype DesktopMain = DesktopChat | DesktopSettings | DesktopPlaceholder | DesktopNothing

  /** The desktop main pane: the chat or the settings by view, the "choose a chat"
      placeholder on the list view with nothing open, and nothing at all on the list view
      while a conversation is still open. */
  function DesktopPane(s: Screen): (r: DesktopMain)
    ensures r == DesktopNothing <==> s.activeView == ConversationsView && s.selected.Some?
    ensures r == DesktopChat <==> s.activeView == ChatView
    ensures r == DesktopSettings <==> s.activeView == SettingsView
  {
    match s.activeView
    case ChatView => DesktopChat
    case SettingsView => DesktopSettings
    case ConversationsView => if s.selected.None? then DesktopPlaceholder else DesktopNothing
  }

  datatype Action =
    | LoadSettled(result: Option<(seq<Conversation>, seq<Profile>)>)
    | StartConversation(response: Option<Conversation>)
    | CreateGroup(response: Option<Conversation>)
    | Refresh(listed: Option<seq<Conversation>>)
    | SelectConversation(c: Conversation)
    | BackToListPressed
    | OpenSettings
    | CloseSettings
    | DesktopCloseSettings

  /** The handlers the phone layout wires up; the desktop pane's settings close is the
      one action left out. */
  predicate PhoneAction(a: Action) {
    !a.DesktopCloseSettings?
  }

  function Step(s: Screen, a: Action): Screen {
    match a
    case LoadSettled(result) => Loaded(s, result)
    case StartConversation(response) => Started(s, response)
    case CreateGroup(response) => GroupCreated(s, response)
    case Refresh(listed) => Refreshed(s, listed)
    case SelectConversation(c) => Selected(s, c)
    case BackToListPressed => BackToList(s)
    case OpenSettings => SettingsOpened(s)
    case CloseSettings => SettingsClosed(s)
    case DesktopCloseSettings => DesktopSettingsClosed(s)
  }

  function Run(s: Screen, actions: seq<Action>): Screen
    decreases |actions|
  {
    if actions == [] then s else Run(Step(s, actions[0]), actions[1..])
  }

  lemma StepKeepsCoherent(s: Screen, a: Action)
    requires Coherent(s) && PhoneAction(a)
    ensures Coherent(Step(s, a))
  {
  }

  /** Whatever the user does through the phone handlers, in whatever order, and however
      the requests end, the navigation stays coherent from the first render on. */
  lemma {:induction false} RunKeepsCoherent(s: Screen, actions: seq<Action>)
    requires Coherent(s)
    requires forall i :: 0 <= i < |actions| ==> PhoneAction(actions[i])
    ensures Coherent(Run(s, actions))
    decreases |actions|
  {
    if actions != [] {
      StepKeepsCoherent(s, actions[0]);
      assert forall i :: 0 <= i < |actions| - 1 ==> actions[1..][i] == actions[i + 1];
      RunKeepsCoherent(Step(s, actions[0]), actions[1..]);
    }
  }

  /** Including the desktop close, the chat view never comes up without a conversation. */
  lemma {:induction false} RunKeepsChatHasConversation(s: Screen, actions: seq<Action>)
    requires ChatHasConversation(s)
    ensures ChatHasConversation(Run(s, actions))
    decreases |actions|
  {
    if actions != [] {
      RunKeepsChatHasConversation(Step(s, actions[0]), actions[1..]);
    }
  }

  /** The desktop close breaks the phone coherence and blanks the desktop main pane:
      after opening a conversation, then the settings, then closing them from the
      desktop pane, the list view is active with the sidebar flag still off and a
      conversation still open, so none of the pane's branches renders. */
  lemma DesktopCloseBlanksPane(s: Screen, c: Conversation)
    ensures var t := DesktopSettingsClosed(SettingsOpened(Selected(s, c)));
            t.activeView == ConversationsView && !t.sidebarOpen && t.selected == Some(c)
            && !Coherent(t) && DesktopPane(t) == DesktopNothing
  {
  }

  lemma InitialCoherent()
    ensures Coherent(Initial) && Initial.loading
  {
  }

  /** Creating a group whose id is already listed lists it twice: nothing guards against
      it. */
  lemma GroupCreatedDuplicates(s: Screen, g: Conversation)
    requires HasConversation(s.conversations, g.id)
    ensures !DistinctIds(GroupCreated(s, Some(g)).conversations)
  {
    var i :| 0 <= i < |s.conversations| && s.conversations[i].id == g.id;
    var list := GroupCreated(s, Some(g)).conversations;
    assert list[0].id == list[i + 1].id;
  }

  class MobileDashboardView {
    var activeView: View
    var selectedConversation: Option<Conversation>
    var conversations: seq<Conversation>
    var users: seq<Profile>
    var loading: bool
    var sidebarOpen: bool

    function State(): Screen
      reads this
    {
      Screen(activeView, selectedConversation, conversations, users, loading, sidebarOpen)
    }

    constructor ()
      ensures State() == Initial
    {
      activeView := ConversationsView;
      selectedConversation := None;
      conversations := [];
      users := [];
      loading := true;
      sidebarOpen := true;
    }

    method LoadData(result: Option<(seq<Conversation>, seq<Profile>)>)
      modifies this
      ensures State() == Loaded(old(State()), result)
    {
      if result.Some? {
        conversations := result.value.0;
        users := result.value.1;
      }
      loading := false;
    }

    method HandleStartConversation(response: Option<Conversation>)
      modifies this
      ensures State() == Started(old(State()), response)
    {
      if response.None? {
        return;
      }
      var newConversation := response.value;
      conversations := PrependIfAbsent(conversations, newConversation);
      selectedConversation := Some(newConversation);
      activeView := ChatView;
      sidebarOpen := false;
    }

    method HandleCreateGroup(response: Option<Conversation>)
      modifies this
      ensures State() == GroupCreated(old(State()), response)
    {
      if response.None? {
        return;
      }
      var newGroup := response.value;
      conversations := [newGroup] + conversations;
      selectedConversation := Some(newGroup);
      activeView := ChatView;
      sidebarOpen := false;
    }

    method RefreshConversations(response: Option<seq<Conversation>>)
      modifies this
      ensures State() == Refreshed(old(State()), response)
    {
      if response.Some? {
        conversations := response.value;
      }
    }

    method HandleSelectConversation(conversation: Conversation)
      modifies this
      ensures State() == Selected(old(State()), conversation)
    {
      selectedConversation := Some(conversation);
      activeView := ChatView;
      sidebarOpen := false;
    }

    method HandleBackToList()
      modifies this
      ensures State() == BackToList(old(State()))
    {
      activeView := ConversationsView;
      sidebarOpen := true;
      selectedConversation := None;
    }

    method HandleOpenSettings()
      modifies this
      ensures State() == SettingsOpened(old(State()))
    {
      activeView := SettingsView;
      sidebarOpen := false;
    }

    method HandleCloseSettings()
      modifies this
      ensures State() == SettingsClosed(old(State()))
    {
      activeView := ConversationsView;
      sidebarOpen := true;
    }

    /** The desktop settings pane's `onClose`. */
    method DesktopCloseSettings()
      modifies this
      ensures State() == DesktopSettingsClosed(old(State()))
    {
      activeView := ConversationsView;
    }
  }

  /** The group dialog's `onCreateGroup` is this dashboard's `handleCreateGroup`, which
      catches its own errors and so always resolves: the dialog closes whatever the server
      answered, and when no group came back the dashboard is left as it was. */
  method CreateGroupFromDialog(dialog: CreateGroupModal.GroupDialog, view: MobileDashboardView,
                               response: Option<Conversation>)
    modifies dialog`loading, dialog`closed, view
    ensures view.State() == GroupCreated(old(view.State()), response)
    ensures response.None? ==> view.State() == old(view.State())
    ensures dialog.closed && !dialog.loading
    ensures dialog.groupName == old(dialog.groupName) && dialog.selectedUsers == old(dialog.selectedUsers)
  {
    view.HandleCreateGroup(response);
    dialog.SubmitSettled(true);
  }
}
