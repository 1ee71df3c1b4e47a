/**
 * Decision rules of the PlayerControl and Playlist.PlayOffset handlers of
 * CBuiltins::Execute: play-speed stepping, shuffle and repeat transitions,
 * the seekpercentage(...) and partymode(...) sub-arguments, and the
 * playlist selector of Playlist.PlayOffset.
 */
module PlayerRules {
  import opened Text
  import opened Wrappers

  // ---------------------------------------------------------------- speed

  /** C++ `x / 2` on an int: the quotient is truncated toward zero. */
  function HalfTowardZero(x: int): (r: int)
    ensures x >= 0 ==> 0 <= r && r + r <= x < r + r + 2
    ensures x < 0 ==> r <= 0 && x <= r + r < x + 2
  {
    if x >= 0 then x / 2 else -((-x) / 2)
  }

  datatype SpeedKey = Rewind | Forward

  /**
   * The new play speed after PlayerControl(rewind) or PlayerControl(forward)
   * while something plays and is not paused.
   */
  function NextSpeed(key: SpeedKey, speed: int): (s: int)
    ensures -32 <= s <= 32
  {
    var stepped :=
      if key == Rewind && speed == 1 then speed * -2
      else if key == Rewind && speed > 1 then HalfTowardZero(speed)
      else if key == Forward && speed < 1 then
        (var half := HalfTowardZero(speed); if half == -1 then 1 else half)
      else speed * 2;
    if stepped > 32 || stepped < -32 then 1 else stepped
  }

  /** The speeds that stepping reaches from normal play: 1, 2..32 and -2..-32 in powers of two. */
  predicate OnLadder(s: int) {
    s == 1 || s == 2 || s == 4 || s == 8 || s == 16 || s == 32
    || s == -2 || s == -4 || s == -8 || s == -16 || s == -32
  }

  /** Stepping never leaves the ladder, so from normal play the speed is never 0 or -1. */
  lemma LadderClosed(key: SpeedKey, s: int)
    requires OnLadder(s)
    ensures OnLadder(NextSpeed(key, s))
  {
  }

  /** Forward undoes rewind everywhere on the ladder except at -32, where rewind resets to 1. */
  lemma ForwardUndoesRewind(s: int)
    requires OnLadder(s) && s != -32
    ensures NextSpeed(Forward, NextSpeed(Rewind, s)) == s
  {
  }

  /** Rewind undoes forward everywhere on the ladder except at 32, where forward resets to 1. */
  lemma RewindUndoesForward(s: int)
    requires OnLadder(s) && s != 32
    ensures NextSpeed(Rewind, NextSpeed(Forward, s)) == s
  {
  }

  /** `k` steps with the same key. */
  function Steps(key: SpeedKey, s: int, k: nat): int
    decreases k
  {
    if k == 0 then s else Steps(key, NextSpeed(key, s), k - 1)
  }

  /** From normal play, rewinding gives -2, -4, -8, -16, -32 and then 1 again. */
  lemma RewindSequence()
    ensures Steps(Rewind, 1, 1) == -2 && Steps(Rewind, 1, 2) == -4 && Steps(Rewind, 1, 3) == -8
    ensures Steps(Rewind, 1, 4) == -16 && Steps(Rewind, 1, 5) == -32 && Steps(Rewind, 1, 6) == 1
  {
  }

  /** From normal play, forwarding gives 2, 4, 8, 16, 32 and then 1 again. */
  lemma ForwardSequence()
    ensures Steps(Forward, 1, 1) == 2 && Steps(Forward, 1, 2) == 4 && Steps(Forward, 1, 3) == 8
    ensures Steps(Forward, 1, 4) == 16 && Steps(Forward, 1, 5) == 32 && Steps(Forward, 1, 6) == 1
  {
  }

  /** Truncating division matters off the ladder: forward from -1 gives 0 (flooring would give 1). */
  lemma ForwardFromMinusOne()
    ensures NextSpeed(Forward, -1) == 0 && NextSpeed(Forward, -2) == 1
  {
  }

  /** Any number of presses of the same key stays on the ladder. */
  lemma {:induction false} StepsStayOnLadder(key: SpeedKey, s: int, k: nat)
    requires OnLadder(s)
    ensures OnLadder(Steps(key, s, k))
    decreases k
  {
    if k > 0 {
      LadderClosed(key, s);
      StepsStayOnLadder(key, NextSpeed(key, s), k - 1);
    }
  }

  // ------------------------------------------------------ repeat / shuffle

  datatype RepeatState = RepeatNone | RepeatAll | RepeatOne

  /** The repeat state PlayerControl(repeat...) asks for, given the playlist's current state. */
  function RepeatTarget(parameter: string, previous: RepeatState, ignoreCase: bool): RepeatState {
    if Equals(parameter, "repeatall", ignoreCase) then RepeatAll
    else if Equals(parameter, "repeatone", ignoreCase) then RepeatOne
    else if Equals(parameter, "repeatoff", ignoreCase) then RepeatNone
    else if previous == RepeatNone then RepeatAll
    else if previous == RepeatAll then RepeatOne
    else RepeatNone
  }

  /** An argument that names a state is what the handler compares against the current one. */
  predicate NamesRepeatState(parameter: string, ignoreCase: bool) {
    Equals(parameter, "repeatall", ignoreCase) || Equals(parameter, "repeatone", ignoreCase)
    || Equals(parameter, "repeatoff", ignoreCase)
  }

  /**
   * Any other repeat argument cycles NONE -> ALL -> ONE -> NONE: it always
   * changes the state (so SetRepeat is always called) and three of them
   * restore it.
   */
  lemma RepeatCycle(parameter: string, s: RepeatState, ignoreCase: bool)
    requires !NamesRepeatState(parameter, ignoreCase)
    ensures RepeatTarget(parameter, s, ignoreCase) != s
    ensures RepeatTarget(parameter, RepeatTarget(parameter, RepeatTarget(parameter, s, ignoreCase), ignoreCase), ignoreCase) == s
  {
  }

  /** A naming argument yields its state whatever the current one; the handler stops early exactly when it is already set. */
  lemma RepeatNamed(parameter: string, s: RepeatState, t: RepeatState, ignoreCase: bool)
    requires NamesRepeatState(parameter, ignoreCase)
    ensures RepeatTarget(parameter, s, ignoreCase) == RepeatTarget(parameter, t, ignoreCase)
  {
  }

  /**
   * PlayerControl(random | randomon | randomoff): None when the handler returns
   * early without touching the playlist, otherwise the new shuffle flag.
   */
  function ShuffleTarget(parameter: string, shuffled: bool, ignoreCase: bool): (r: Option<bool>)
    ensures r.Some? ==> r.value == !shuffled
  {
    if (shuffled && Equals(parameter, "randomon", ignoreCase))
       || (!shuffled && Equals(parameter, "randomoff", ignoreCase))
    then None
    else Some(!shuffled)
  }


  /** Afterwards the playlist is shuffled as randomon/randomoff ask, and random toggles it. */
  lemma ShuffleOutcome(parameter: string, shuffled: bool, ignoreCase: bool)
    ensures var after := match ShuffleTarget(parameter, shuffled, ignoreCase)
                         case None => shuffled
                         case Some(b) => b;
            (Equals(parameter, "randomon", ignoreCase) ==> after)
            && (Equals(parameter, "randomoff", ignoreCase) && !Equals(parameter, "randomon", ignoreCase) ==> !after)
            && (!Equals(parameter, "randomon", ignoreCase) && !Equals(parameter, "randomoff", ignoreCase) ==> after == !shuffled)
  {
  }

  // ------------------------------------------------- seekpercentage(...)

  datatype SeekArgument =
    | SeekNoArgument                    // "seekpercentage" alone
    | SeekInvalidArgument(text: string) // shorter than "seekpercentage(N)"
    | SeekOffset(text: string)          // the text after the 15th character, trailing ')' removed

  /**
   * How the PlayerControl handler slices `seekpercentage(N)`: it checks only
   * lengths, skips the 15th character whatever it is, and strips every
   * trailing ')'.
   */
  function SeekPercentageArgument(parameter: string): (r: SeekArgument)
    requires |parameter| >= 14
    ensures r.SeekOffset? ==> |parameter| >= 17 && 15 + |r.text| <= |parameter| && parameter[15..15 + |r.text|] == r.text
  {
    if |parameter| == 14 then SeekNoArgument
    else if |parameter| < 17 then SeekInvalidArgument(parameter[14..])
    else SeekOffset(TrimRight(parameter[15..], ')'))
  }

  /** The well-formed call reads back its argument. */
  lemma SeekPercentageRoundTrip(n: string)
    requires |n| >= 1 && n[|n| - 1] != ')'
    ensures SeekPercentageArgument("seekpercentage(" + n + ")") == SeekOffset(n)
  {
    var p := "seekpercentage(" + n + ")";
    assert p[15..] == n + ")";
    assert (n + ")")[..|n|] == n;
  }

  /** A percentage outside 0..100 is refused; the seek happens only while playing. */
  predicate SeeksTo(percent: real, playing: bool) {
    !(percent < 0.0 || percent > 100.0) && playing
  }

  // ------------------------------------------------------ partymode(...)

  datatype PartyContext = PartyMusic | PartyVideo | PartyUnknown

  /**
   * How the PlayerControl handler reads `partymode`, `partymode(music)`,
   * `partymode(video)` and `partymode(path.xsp)`: the context and the
   * playlist path (empty for music and video).
   */
  function PartyModeArgument(parameter: string): (r: (PartyContext, string))
    ensures r.0 != PartyUnknown ==> r.1 == ""
  {
    if |parameter| > 9 then
      if |parameter| == 16 && EndsWithNoCase(parameter, "video)") then (PartyVideo, "")
      else if |parameter| != 16 || !EndsWithNoCase(parameter, "music)") then
        (PartyUnknown, TrimRight(parameter[10..], ')'))
      else (PartyMusic, "")
    else (PartyMusic, "")
  }

  /** The well-formed call reads back its argument: music, video, or a smart-playlist path. */
  lemma PartyModeRoundTrip(x: string)
    requires |x| == 0 || x[|x| - 1] != ')'
    ensures var p := "partymode(" + x + ")";
            PartyModeArgument(p) ==
              if |x| == 5 && EqualsNoCase(x, "video") then (PartyVideo, "")
              else if |x| == 5 && EqualsNoCase(x, "music") then (PartyMusic, "")
              else (PartyUnknown, x)
  {
    var p := "partymode(" + x + ")";
    assert p[10..] == x + ")";
    assert (x + ")")[..|x|] == x;
    if |x| == 5 {
      assert p[|p| - 6..] == x + ")";
      assert "video" + ")" == "video)" && "music" + ")" == "music)";
      EqualsNoCaseAppend(x, "video", ')');
      EqualsNoCaseAppend(x, "music", ')');
    }
  }

  /** `partymode` with no argument starts music party mode. */
  lemma PartyModeDefault()
    ensures PartyModeArgument("partymode") == (PartyMusic, "")
  {
  }

  // ------------------------------------------------- Playlist.PlayOffset

  datatype PlaylistId = PlaylistNone | PlaylistMusic | PlaylistVideo | PlaylistPicture

  datatype OffsetRequest =
    | UnknownPlaylist(name: string)
    | PlayAt(playlist: Option<PlaylistId>, position: int)

  /**
   * Playlist.PlayOffset(offset) or Playlist.PlayOffset(music|video, offset):
   * the playlist to switch to, if one is named, and the offset; extra
   * parameters are ignored.
   */
  function OffsetRequestOf(params: seq<string>, ignoreCase: bool): (r: OffsetRequest)
    ensures r.UnknownPlaylist? <==>
            |params| > 1 && !Equals(params[0], "music", ignoreCase) && !Equals(params[0], "video", ignoreCase)
    ensures r.PlayAt? && r.playlist.Some? ==> r.playlist.value in {PlaylistMusic, PlaylistVideo}
    ensures r.PlayAt? ==> r.position == Atoi(if |params| > 1 then params[1] else if |params| == 1 then params[0] else "")
    ensures |params| > 1 && Equals(params[0], "music", ignoreCase) ==> r == PlayAt(Some(PlaylistMusic), Atoi(params[1]))
    ensures |params| > 1 && !Equals(params[0], "music", ignoreCase) && Equals(params[0], "video", ignoreCase) ==>
            r == PlayAt(Some(PlaylistVideo), Atoi(params[1]))
    ensures |params| <= 1 ==> r.PlayAt? && r.playlist.None?
  {
    if |params| > 1 then
      if Equals(params[0], "music", ignoreCase) then PlayAt(Some(PlaylistMusic), Atoi(params[1]))
      else if Equals(params[0], "video", ignoreCase) then PlayAt(Some(PlaylistVideo), Atoi(params[1]))
      else UnknownPlaylist(params[0])
    else PlayAt(None, Atoi(if |params| == 1 then params[0] else ""))
  }
}
