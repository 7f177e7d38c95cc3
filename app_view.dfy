/**
 * The window's state and the handlers of the notices it listens to
 * (src/App.tsx): whether the user is in a voice channel, the user's own
 * mute, deafen and speaking flags, the channel name and the member list.
 */
module AppView {
  import opened Wrappers
  import opened MemberList

  /** The `event` of a `vc_user` notice. */
  datatype MemberEvent = Join | Update | Leave

  /** A `vc_user` notice as the window receives it; `data` is absent when the sender left it out. */
  datatype MemberNotice = MemberNotice(event: MemberEvent, data: Option<MemberData>)

  /** A `vc_speak` notice. */
  datatype SpeakNotice = SpeakNotice(userId: string, isMe: bool, speaking: bool)

  /**
   * The member list after a `vc_user` notice, or `None` when the handler
   * throws on reading `data.id` or a flag of an absent `data`. JOIN and
   * UPDATE read the flags whatever the list holds; LEAVE reads `data.id`
   * only inside the filter callback, which runs once per entry.
   */
  function AfterMemberNotice(list: seq<UserData>, p: MemberNotice): (r: Option<seq<UserData>>)
    ensures r.None? <==> p.data.None? && (p.event != Leave || list != [])
    ensures p.event == Leave && list == [] ==> r == Some([])
    ensures p.data.Some? && p.event == Leave ==> r == Some(LeaveUser(list, p.data.value.id))
    ensures p.data.Some? && p.event == Join ==> r == Some(JoinUser(list, p.data.value))
    ensures p.data.Some? && p.event == Update ==> r == Some(UpdateUser(list, p.data.value))
  {
    match p.event
    case Join => if p.data.None? then None else Some(JoinUser(list, p.data.value))
    case Update => if p.data.None? then None else Some(UpdateUser(list, p.data.value))
    case Leave =>
      if p.data.Some? then Some(LeaveUser(list, p.data.value.id))
      else if list == [] then Some([])
      else None
  }

  /** The state behind the window, one field per piece of React state. */
  class View {
    var inVc: bool
    var isMute: bool
    var isDeafen: bool
    var isSpeaking: bool
    var userList: seq<UserData>
    var vcName: string

    /** The initial state: not in a channel, nothing muted, an empty list and no name. */
    constructor ()
      ensures !inVc && !isMute && !isDeafen && !isSpeaking && userList == [] && vcName == ""
    {
      inVc := false;
      isMute := false;
      isDeafen := false;
      isSpeaking := false;
      userList := [];
      vcName := "";
    }

    /**
     * `vc_select`: records whether the user is in a channel; leaving clears
     * the name, the list and the user's speaking flag. Joining asks the
     * backend for the channel's details, which it does not answer, so
     * nothing else changes.
     */
    method OnVcSelect(inVcNow: bool)
      modifies this
      ensures inVc == inVcNow
      ensures !inVcNow ==> vcName == "" && userList == [] && !isSpeaking
      ensures inVcNow ==> vcName == old(vcName) && userList == old(userList) && isSpeaking == old(isSpeaking)
      ensures isMute == old(isMute) && isDeafen == old(isDeafen)
    {
      inVc := inVcNow;
      if !inVcNow {
        vcName := "";
        userList := [];
        isSpeaking := false;
      }
    }

    /** `vc_mute_update`: a deafened user is always shown muted. */
    method OnVcMuteUpdate(mute: bool, deaf: bool)
      modifies this
      ensures isDeafen == deaf && isMute == (mute || deaf)
      ensures isDeafen ==> isMute
      ensures inVc == old(inVc) && isSpeaking == old(isSpeaking) && userList == old(userList) && vcName == old(vcName)
    {
      isMute := if deaf then true else mute;
      isDeafen := deaf;
    }

    /**
     * `vc_user`: JOIN, UPDATE or LEAVE applied to the member list; `thrown`
     * reports the handler failing on an absent `data`, in which case nothing
     * changes.
     */
    method OnVcUser(p: MemberNotice) returns (thrown: bool)
      modifies this
      ensures var next := AfterMemberNotice(old(userList), p);
              thrown == next.None? && userList == (if thrown then old(userList) else next.value)
      ensures inVc == old(inVc) && isMute == old(isMute) && isDeafen == old(isDeafen)
      ensures isSpeaking == old(isSpeaking) && vcName == old(vcName)
    {
      thrown := false;
      match p.event
      case Join =>
        if p.data.None? {
          thrown := true;
        } else {
          userList := userList + [Entry(p.data.value, false)];
        }
      case Update =>
        if p.data.None? {
          thrown := true;
        } else {
          var current := Find(userList, p.data.value.id);
          if current.None? {
            userList := userList + [Entry(p.data.value, false)];
          } else {
            userList := Without(userList, p.data.value.id) + [Entry(p.data.value, current.value.speaking)];
          }
        }
      case Leave =>
        if p.data.Some? {
          userList := Without(userList, p.data.value.id);
        } else if userList != [] {
          thrown := true;
        }
    }

    /**
     * `vc_speak`: the user's own speaking flag, or the flag of the named
     * member, who is moved to the end of the list.
     */
    method OnVcSpeak(p: SpeakNotice)
      modifies this
      ensures p.isMe ==> isSpeaking == p.speaking && userList == old(userList)
      ensures !p.isMe ==> isSpeaking == old(isSpeaking) && userList == SpeakUpdate(old(userList), p.userId, p.speaking)
      ensures inVc == old(inVc) && isMute == old(isMute) && isDeafen == old(isDeafen) && vcName == old(vcName)
    {
      if p.isMe {
        isSpeaking := p.speaking;
      } else {
        var userData := Find(userList, p.userId);
        if userData.Some? {
          userList := Without(userList, p.userId) + [userData.value.(speaking := p.speaking)];
        }
      }
    }
  }

  /**
   * A LEAVE notice without `data` never shrinks a non-empty list: the
   * handler throws, and the departed member stays listed.
   */
  lemma LeaveWithoutDataKeepsMembers(list: seq<UserData>)
    requires list != []
    ensures AfterMemberNotice(list, MemberNotice(Leave, None)).None?
  {
  }

  /** A LEAVE notice that names the member removes every entry for that member and nothing else. */
  lemma LeaveWithDataRemoves(list: seq<UserData>, d: MemberData)
    ensures var r := AfterMemberNotice(list, MemberNotice(Leave, Some(d)));
            && r.Some?
            && (forall u :: u in r.value <==> u in list && u.id != d.id)
            && !IsUserSpeaking(d.id, r.value)
  {
    var r := AfterMemberNotice(list, MemberNotice(Leave, Some(d)));
    FindWithout(list, d.id);
  }
}
