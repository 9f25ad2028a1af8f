/** The group-creation dialog: the member selection, the guard on submitting, and the
    `loading` flag around the request. */
module CreateGroupModal {
  import opened Wrappers
  import opened Text
  import opened Domain
  import opened Seqs

  predicate NoDuplicates(ids: seq<Id>) {
    forall i, j :: 0 <= i < j < |ids| ==> ids[i] != ids[j]
  }

  /** `filter(id => id !== userId)`: every occurrence goes, the rest keep their order. */
  function Without(ids: seq<Id>, id: Id): (r: seq<Id>)
    ensures Subsequence(r, ids)
    ensures id !in r
    ensures forall x :: x != id ==> (x in r <==> x in ids)
    ensures |r| <= |ids|
    ensures id !in ids ==> r == ids
    ensures multiset(r) == multiset(ids)[id := 0]
  {
    if ids == [] then []
    else
      assert forall x :: x in ids <==> x == ids[0] || x in ids[1..];
      assert ids == [ids[0]] + ids[1..];
      if ids[0] == id then Without(ids[1..], id)
      else
        assert ids == [ids[0]] + ids[1..];
        var r := [ids[0]] + Without(ids[1..], id);
        assert r[1..] == Without(ids[1..], id);
        r
  }

  lemma {:induction false} WithoutKeepsNoDuplicates(ids: seq<Id>, id: Id)
    requires NoDuplicates(ids)
    ensures NoDuplicates(Without(ids, id))
  {
    if ids != [] {
      WithoutKeepsNoDuplicates(ids[1..], id);
      var rest := Without(ids[1..], id);
      if ids[0] != id {
        assert ids[0] !in ids[1..];
        assert ids[0] !in rest;
        assert forall j :: 0 < j < |rest| + 1 ==> ([ids[0]] + rest)[j] == rest[j - 1];
      }
    }
  }

  /** `handleUserToggle`'s updater: a selected id is taken out, any other is added at the
      end. */
  function Toggle(selected: seq<Id>, id: Id): (r: seq<Id>)
    ensures id in r <==> id !in selected
    ensures forall x :: x != id ==> (x in r <==> x in selected)
    ensures id in selected ==> r == Without(selected, id)
    ensures id !in selected ==> r == selected + [id]
  {
    if id in selected then Without(selected, id) else selected + [id]
  }

  /** A selection without repeats keeps none after a toggle. */
  lemma ToggleKeepsNoDuplicates(selected: seq<Id>, id: Id)
    requires NoDuplicates(selected)
    ensures NoDuplicates(Toggle(selected, id))
  {
    if id in selected {
      WithoutKeepsNoDuplicates(selected, id);
    } else {
      var r := selected + [id];
      forall i, j | 0 <= i < j < |r|
        ensures r[i] != r[j]
      {
        if j == |selected| {
          assert r[i] == selected[i];
        }
      }
    }
  }

  /** Toggling the same user twice gives back the same members, whoever they are. */
  lemma ToggleTwice(selected: seq<Id>, id: Id, x: Id)
    ensures x in Toggle(Toggle(selected, id), id) <==> x in selected
  {
  }

  /** For a user who was not selected, toggling twice gives back the very same list. */
  lemma ToggleTwiceUnselected(selected: seq<Id>, id: Id)
    requires id !in selected
    ensures Toggle(Toggle(selected, id), id) == selected
  {
    var once := selected + [id];
    assert Toggle(selected, id) == once;
    WithoutAppended(selected, id);
  }

  lemma {:induction false} WithoutAppended(ids: seq<Id>, id: Id)
    requires id !in ids
    ensures Without(ids + [id], id) == ids
  {
    if ids != [] {
      assert (ids + [id])[1..] == ids[1..] + [id];
      WithoutAppended(ids[1..], id);
      assert [ids[0]] + ids[1..] == ids;
    } else {
      assert ids + [id] == [id];
    }
  }

  /** What `onCreateGroup` is given. */
  datatype GroupRequest = GroupRequest(name: string, participantIds: seq<Id>)

  /** `handleSubmit`'s guard: nothing when the trimmed name is empty or no one is
      selected; otherwise the trimmed name and the selection as it stands. */
  function SubmitRequest(groupName: string, selected: seq<Id>): (r: Option<GroupRequest>)
    ensures r.None? <==> AllSpace(groupName) || selected == []
    ensures r.Some? ==> r.value == GroupRequest(Trim(groupName), selected) && r.value.name != []
  {
    if Trim(groupName) == [] || selected == [] then None else Some(GroupRequest(Trim(groupName), selected))
  }

  /** The submit button's `disabled`. */
  function SubmitDisabled(groupName: string, selected: seq<Id>, loading: bool): (r: bool)
    ensures r <==> AllSpace(groupName) || selected == [] || loading
  {
    Trim(groupName) == [] || selected == [] || loading
  }

  /** An enabled button always leads to a request: the button and the handler agree,
      except that the handler itself does not look at `loading`. */
  lemma EnabledSubmits(groupName: string, selected: seq<Id>, loading: bool)
    ensures !SubmitDisabled(groupName, selected, loading) ==> SubmitRequest(groupName, selected).Some?
    ensures SubmitRequest(groupName, selected).Some? <==> !SubmitDisabled(groupName, selected, false)
  {
  }

  class GroupDialog {
    var groupName: string
    var selectedUsers: seq<Id>
    var loading: bool
    /** Whether `onClose` has been called. */
    var closed: bool

    constructor ()
      ensures groupName == [] && selectedUsers == [] && !loading && !closed
    {
      groupName := [];
      selectedUsers := [];
      loading := false;
      closed := false;
    }

    method HandleUserToggle(userId: Id)
      modifies this`selectedUsers
      ensures selectedUsers == Toggle(old(selectedUsers), userId)
    {
      if userId in selectedUsers {
        selectedUsers := Without(selectedUsers, userId);
      } else {
        selectedUsers := selectedUsers + [userId];
      }
    }

    /** `handleSubmit` up to the request: behind the guard, `loading` is set. */
    method BeginSubmit() returns (request: Option<GroupRequest>)
      modifies this`loading
      ensures request == SubmitRequest(groupName, selectedUsers)
      ensures loading == (request.Some? || old(loading))
    {
      request := SubmitRequest(groupName, selectedUsers);
      if request.Some? {
        loading := true;
      }
    }

    /** The rest of `handleSubmit` once `onCreateGroup` settles: the dialog is closed only
        after a success, and `loading` ends false either way. */
    method SubmitSettled(ok: bool)
      modifies this`loading, this`closed
      ensures !loading
      ensures closed == (old(closed) || ok)
    {
      if ok {
        closed := true;
      }
      loading := false;
    }
  }
}
