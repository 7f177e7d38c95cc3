/**
 * The member list the window shows while the user is in a voice channel
 * (src/utils/vc.ts and the list transformations of the handlers in
 * src/App.tsx). Entries are matched by id with `===`; the list may hold the
 * same id more than once, since nothing deduplicates it.
 */
module MemberList {
  import opened Wrappers

  /** One row of the member list (src/types/user.ts). */
  datatype UserData = UserData(
    id: string, username: string, avatar: string, nick: string,
    mute: bool, deaf: bool, speaking: bool)

  /** The server-side and self-imposed mute and deafen flags of a member. */
  datatype VoiceFlags = VoiceFlags(mute: bool, deaf: bool, selfMute: bool, selfDeaf: bool)

  datatype UserRef = UserRef(id: string, username: string, avatar: string)

  /** A member as the host describes it in a channel's voice states (src/types/event.ts). */
  datatype VoiceState = VoiceState(nick: string, voiceState: VoiceFlags, user: UserRef)

  /** The `data` of a JOIN or UPDATE notice (src/types/event.ts). */
  datatype MemberData = MemberData(
    id: string, username: string, avatar: string, nick: string,
    mute: bool, selfMute: bool, deaf: bool, selfDeaf: bool)

  /**
   * `formatUserData`: a member is shown muted when any of the four flags is
   * set, and deafened when either deafen flag is set; a deafened member is
   * therefore always shown muted. Nobody is speaking yet.
   */
  function FormatUserData(v: VoiceState): (u: UserData)
    ensures u.mute <==> v.voiceState.mute || v.voiceState.selfMute || v.voiceState.deaf || v.voiceState.selfDeaf
    ensures u.deaf <==> v.voiceState.deaf || v.voiceState.selfDeaf
    ensures u.deaf ==> u.mute
    ensures !u.speaking
    ensures u.id == v.user.id && u.username == v.user.username && u.avatar == v.user.avatar && u.nick == v.nick
  {
    var mute := v.voiceState.mute || v.voiceState.selfMute || v.voiceState.deaf || v.voiceState.selfDeaf;
    var deaf := v.voiceState.deaf || v.voiceState.selfDeaf;
    UserData(v.user.id, v.user.username, v.user.avatar, v.nick, mute, deaf, false)
  }

  /** The row the JOIN and UPDATE handlers build from a notice's data, with the given speaking flag. */
  function Entry(d: MemberData, speaking: bool): UserData
  {
    var mute := d.mute || d.selfMute || d.deaf || d.selfDeaf;
    var deaf := d.deaf || d.selfDeaf;
    UserData(d.id, d.username, d.avatar, d.nick, mute, deaf, speaking)
  }

  /** The voice state that the notice data `d` describes. */
  function AsVoiceState(d: MemberData): VoiceState
  {
    VoiceState(d.nick, VoiceFlags(d.mute, d.deaf, d.selfMute, d.selfDeaf), UserRef(d.id, d.username, d.avatar))
  }

  /** The handlers derive the mute and deafen flags by the same rule as `formatUserData`. */
  lemma EntryAgreesWithFormat(d: MemberData)
    ensures Entry(d, false) == FormatUserData(AsVoiceState(d))
  {
  }

  /** `list.find(u => u.id === id)`: the first entry with that id, if any. */
  function Find(list: seq<UserData>, id: string): (r: Option<UserData>)
    ensures r.None? <==> forall k :: 0 <= k < |list| ==> list[k].id != id
    ensures r.Some? ==> exists k :: 0 <= k < |list| && list[k] == r.value && r.value.id == id &&
                          forall j :: 0 <= j < k ==> list[j].id != id
  {
    if list == [] then None
    else if list[0].id == id then Some(list[0])
    else
      var rest := Find(list[1..], id);
      assert forall k :: 1 <= k < |list| ==> list[k] == list[1..][k - 1];
      rest
  }

  /** `isUserSpeaking`: the speaking flag of the first entry with that id; false when there is none. */
  function IsUserSpeaking(id: string, list: seq<UserData>): (speaking: bool)
    ensures (forall k :: 0 <= k < |list| ==> list[k].id != id) ==> !speaking
    ensures forall k :: 0 <= k < |list| && list[k].id == id && (forall j :: 0 <= j < k ==> list[j].id != id) ==>
              speaking == list[k].speaking
  {
    var found := Find(list, id);
    if found.None? then false
    else
      assert forall k, k' :: 0 <= k < |list| && 0 <= k' < |list| && list[k].id == id && list[k'].id == id &&
               (forall j :: 0 <= j < k ==> list[j].id != id) && (forall j :: 0 <= j < k' ==> list[j].id != id)
               ==> k == k';
      found.value.speaking
  }

  /** `list.filter(u => u.id !== id)` */
  function Without(list: seq<UserData>, id: string): (r: seq<UserData>)
    ensures |r| <= |list|
    ensures forall u :: u in r ==> u.id != id
  {
    if list == [] then []
    else if list[0].id == id then Without(list[1..], id)
    else [list[0]] + Without(list[1..], id)
  }

  /** Filtering keeps exactly the entries with another id. */
  lemma {:induction false} WithoutMembers(list: seq<UserData>, id: string, u: UserData)
    ensures u in Without(list, id) <==> u in list && u.id != id
  {
    if list != [] {
      WithoutMembers(list[1..], id, u);
      assert list == [list[0]] + list[1..];
    }
  }

  /** Filtering distributes over concatenation, so the kept entries stay in their order. */
  lemma {:induction false} WithoutAppend(a: seq<UserData>, b: seq<UserData>, id: string)
    ensures Without(a + b, id) == Without(a, id) + Without(b, id)
  {
    if a == [] {
      assert a + b == b;
    } else {
      var ab := a + b;
      assert ab[0] == a[0] && ab[1..] == a[1..] + b;
      WithoutAppend(a[1..], b, id);
      if a[0].id == id {
        assert Without(ab, id) == Without(a[1..] + b, id);
      } else {
        assert Without(ab, id) == [a[0]] + Without(a[1..] + b, id);
        assert Without(a, id) == [a[0]] + Without(a[1..], id);
      }
    }
  }

  /** Filtering a list without that id changes nothing. */
  lemma {:induction false} WithoutAbsent(list: seq<UserData>, id: string)
    requires forall k :: 0 <= k < |list| ==> list[k].id != id
    ensures Without(list, id) == list
  {
    if list != [] {
      WithoutAbsent(list[1..], id);
    }
  }

  /** After filtering, no entry has the id, so looking it up finds nothing. */
  lemma FindWithout(list: seq<UserData>, id: string)
    ensures Find(Without(list, id), id).None?
  {
    var r := Without(list, id);
    assert forall k :: 0 <= k < |r| ==> r[k] in r;
  }

  /** `joinUser`: appends one entry, not speaking, after all existing ones; nothing is deduplicated. */
  function JoinUser(list: seq<UserData>, d: MemberData): (r: seq<UserData>)
    ensures |r| == |list| + 1 && r[..|list|] == list
    ensures r[|list|] == Entry(d, false) && !r[|list|].speaking
  {
    list + [Entry(d, false)]
  }

  /**
   * `updateUser`: an unknown id is appended as a new entry that is not
   * speaking; a known id has all its entries removed and one new entry
   * appended, which keeps the speaking flag of the first of them.
   */
  function UpdateUser(list: seq<UserData>, d: MemberData): (r: seq<UserData>)
    ensures |r| >= 1 && r[..|r| - 1] == Without(list, d.id)
    ensures Find(list, d.id).None? ==> r == list + [Entry(d, false)]
    ensures Find(list, d.id).Some? ==> r[|r| - 1] == Entry(d, Find(list, d.id).value.speaking)
  {
    var current := Find(list, d.id);
    if current.None? then
      WithoutAbsent(list, d.id);
      list + [Entry(d, false)]
    else
      Without(list, d.id) + [Entry(d, current.value.speaking)]
  }

  /** `leaveUser`: drops every entry with the id and keeps the rest in order. */
  function LeaveUser(list: seq<UserData>, id: string): (r: seq<UserData>)
    ensures r == Without(list, id)
    ensures forall u :: u in r <==> u in list && u.id != id
  {
    forall u ensures u in Without(list, id) <==> u in list && u.id != id {
      WithoutMembers(list, id, u);
    }
    Without(list, id)
  }

  /**
   * A leave decides row by row: a row is dropped exactly when it has the id,
   * and the rows kept stay in their order, each as often as before.
   */
  lemma LeaveUserKeepsOrder(a: seq<UserData>, b: seq<UserData>, u: UserData, id: string)
    ensures LeaveUser(a + b, id) == LeaveUser(a, id) + LeaveUser(b, id)
    ensures LeaveUser([u], id) == (if u.id == id then [] else [u])
  {
    WithoutAppend(a, b, id);
  }

  /**
   * The `vc_speak` handler for another member: the first entry with the id
   * is moved, with its speaking flag replaced, behind all others, and every
   * other entry with that id is dropped; an unknown id leaves the list as it is.
   */
  function SpeakUpdate(list: seq<UserData>, id: string, speaking: bool): (r: seq<UserData>)
    ensures Find(list, id).None? ==> r == list
    ensures Find(list, id).Some? ==>
              && |r| >= 1 && r[..|r| - 1] == Without(list, id)
              && r[|r| - 1] == Find(list, id).value.(speaking := speaking)
  {
    var found := Find(list, id);
    if found.None? then list
    else Without(list, id) + [found.value.(speaking := speaking)]
  }

  /** Looking up an id whose only occurrence is the last entry finds that entry. */
  lemma FindLast(front: seq<UserData>, u: UserData)
    requires forall k :: 0 <= k < |front| ==> front[k].id != u.id
    ensures Find(front + [u], u.id) == Some(u)
  {
    var l := front + [u];
    var r := Find(l, u.id);
    assert l[|front|] == u;
    if r.None? {
      assert false;
    }
    var k :| 0 <= k < |l| && l[k] == r.value && r.value.id == u.id && forall j :: 0 <= j < k ==> l[j].id != u.id;
    assert k == |front|;
  }

  /** After a `vc_speak` for a listed member, that member reads as speaking exactly when the notice said so. */
  lemma SpeakThenAsk(list: seq<UserData>, id: string, speaking: bool)
    requires Find(list, id).Some?
    ensures IsUserSpeaking(id, SpeakUpdate(list, id, speaking)) == speaking
  {
    var w := Without(list, id);
    var u := Find(list, id).value.(speaking := speaking);
    assert forall k :: 0 <= k < |w| ==> w[k] in w;
    FindLast(w, u);
  }

  /** The lookup of another id is unaffected by filtering out `id`. */
  lemma {:induction false} FindWithoutOther(list: seq<UserData>, id: string, other: string)
    requires other != id
    ensures Find(Without(list, id), other) == Find(list, other)
  {
    if list != [] {
      FindWithoutOther(list[1..], id, other);
      if list[0].id != id {
        assert Without(list, id) == [list[0]] + Without(list[1..], id);
        assert ([list[0]] + Without(list[1..], id))[1..] == Without(list[1..], id);
      }
    }
  }

  /** Appending an entry with another id does not change where an id is first found, if it is found. */
  lemma {:induction false} FindAppendOther(list: seq<UserData>, u: UserData, id: string)
    requires u.id != id
    ensures Find(list + [u], id) == Find(list, id)
  {
    if list != [] {
      FindAppendOther(list[1..], u, id);
      assert (list + [u])[1..] == list[1..] + [u];
    }
  }

  /** A `vc_speak` for one member leaves what the list says about every other member unchanged. */
  lemma SpeakLeavesOthers(list: seq<UserData>, id: string, speaking: bool, other: string)
    requires other != id
    ensures IsUserSpeaking(other, SpeakUpdate(list, id, speaking)) == IsUserSpeaking(other, list)
  {
    if Find(list, id).Some? {
      var u := Find(list, id).value.(speaking := speaking);
      assert u.id == id;
      FindAppendOther(Without(list, id), u, other);
      FindWithoutOther(list, id, other);
    }
  }
}
