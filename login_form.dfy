// The LoginForm component: four fields changed by their inputs, and the
// submit handler that turns them into a login intent.
module LoginForm {
  import opened Common
  import opened Text

  /** handleSubmit: nothing for a blank nickname; otherwise the nickname and
      room id as typed, "creating" exactly on the first tab, and an empty icon
      passed as absent. The room id is not checked on either tab. */
  function SubmitArgs(nickname: string, roomId: string, activeTab: int, userIcon: string): (r: Option<LoginArgs>)
    ensures r.None? <==> IsBlank(nickname)
    ensures r.Some? ==> r.value.nickname == nickname && r.value.roomId == roomId
    ensures r.Some? ==> (r.value.isCreating <==> activeTab == 0)
    ensures r.Some? ==> (r.value.userIcon.None? <==> userIcon == "")
    ensures r.Some? && r.value.userIcon.Some? ==> r.value.userIcon.value == userIcon
  {
    if IsBlank(nickname) then None
    else Some(LoginArgs(nickname, roomId, activeTab == 0, if userIcon == "" then None else Some(userIcon)))
  }

  /** The submit button's label follows the tab the create intent is on. */
  function SubmitLabel(activeTab: int): (r: string)
    ensures r == "Create Room" <==> activeTab == 0
    ensures r == "Join Room" <==> activeTab != 0
  {
    if activeTab == 0 then "Create Room" else "Join Room"
  }

  /** The label names the intent the submit sends. */
  lemma LabelMatchesIntent(nickname: string, roomId: string, activeTab: int, userIcon: string)
    requires !IsBlank(nickname)
    ensures SubmitArgs(nickname, roomId, activeTab, userIcon).value.isCreating <==> SubmitLabel(activeTab) == "Create Room"
  {
  }

  class Component {
    var nickname: string
    var roomId: string
    var activeTab: int
    var userIcon: string

    constructor ()
      ensures nickname == "" && roomId == "" && activeTab == 0 && userIcon == ""
    {
      nickname, roomId, activeTab, userIcon := "", "", 0, "";
    }

    method SetNickname(value: string)
      modifies this
      ensures nickname == value && roomId == old(roomId) && activeTab == old(activeTab) && userIcon == old(userIcon)
    {
      nickname := value;
    }

    method SetRoomId(value: string)
      modifies this
      ensures roomId == value && nickname == old(nickname) && activeTab == old(activeTab) && userIcon == old(userIcon)
    {
      roomId := value;
    }

    /** The tabs' onChange; the room id is kept when switching tabs. */
    method SelectTab(tab: int)
      modifies this
      ensures activeTab == tab && nickname == old(nickname) && roomId == old(roomId) && userIcon == old(userIcon)
    {
      activeTab := tab;
    }

    /** The reader's onload with the data URL of the chosen file. */
    method IconLoaded(dataUrl: string)
      modifies this
      ensures userIcon == dataUrl && nickname == old(nickname) && roomId == old(roomId) && activeTab == old(activeTab)
    {
      userIcon := dataUrl;
    }

    /** The onLogin call a submit makes, if any. */
    method HandleSubmit() returns (call: Option<LoginArgs>)
      ensures call == SubmitArgs(nickname, roomId, activeTab, userIcon)
    {
      if IsBlank(nickname) {
        return None;
      }
      var icon := if userIcon == "" then None else Some(userIcon);
      call := Some(LoginArgs(nickname, roomId, activeTab == 0, icon));
    }
  }
}
