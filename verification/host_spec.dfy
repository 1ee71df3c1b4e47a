/**
 * What the branches of CBuiltins::Execute that change the modelled State,
 * or return a code other than 0, must do: the code Execute returns, and
 * each branch's new State and collaborator calls as functions of the old
 * State, the parameters, the helpers of Env and the user's answers. The
 * class Builtins of module Host carries them out step by step.
 */
module HostSpec {
  import opened Wrappers
  import opened Text
  import opened PlayerRules
  import opened SkinRules
  import opened AddonRules
  import opened OptionScans
  import opened Dispatch
  import opened Collaborators
  import opened Handlers

  // ------------------------------------------------------------ return code

  /** The handlers whose branch may leave Execute with a code other than 0. */
  predicate MayRefuse(h: Handler) {
    h.Unknown? || h.PlayMedia? || h.PlayerControl? || h.ShowPicture? || h.SlideShow? || h.SetStereoMode?
    || h.Notification? || h.SystemLogoff? || h.ExportLibrary? || h.RunAddon?
  }

  /** Every other handler leaves Execute with 0. */
  lemma PlainHandlerCode(h: Handler, params: seq<string>, s: State, env: Env, prompts: Prompts, ignoreCase: bool)
    requires Callable(h, params) && !MayRefuse(h)
    ensures BranchCode(h, params, s, env, prompts, ignoreCase) == 0
  {
  }

  /** The command RunAddon builds for the add-on params[0] and hands back to Execute. */
  function AddonRedispatch(params: seq<string>, env: Env): string
    requires |params| > 0
  {
    AddonCommand(env.addonLookup(params[0]), params)
  }

  /** The handler that the command built by RunAddon selects. */
  function RedispatchHandler(params: seq<string>, env: Env, ignoreCase: bool): Handler
    requires |params| > 0
  {
    var command := AddonRedispatch(params, env);
    Classify(Lower(CommandName(command)), env.splitParams(command), ignoreCase)
  }

  /**
   * The value Execute returns for handler `h`: -3 and -2 for the media
   * built-ins called without parameters (and SetStereoMode with an unknown
   * mode), -1 for an unknown command and the refusals of Notification,
   * System.LogOff, ExportLibrary and RunAddon, and 0 otherwise.
   */
  function ExpectedCode(h: Handler, params: seq<string>, s: State, env: Env, prompts: Prompts, ignoreCase: bool): int
    requires Callable(h, params)
  {
    if h.RunAddon? then AddonCode(params, env, ignoreCase) else BranchCode(h, params, s, env, prompts, ignoreCase)
  }

  /**
   * The codes a branch other than RunAddon can return and what each one
   * says: -3 only for a media built-in without parameters, -2 only from
   * ShowPicture, SlideShow and SetStereoMode, and -1, outside the branches
   * that may refuse, exactly for an unknown command. (RunAddon returns -1 or
   * 0, as AddonCode states.)
   */
  lemma BranchCodeValues(h: Handler, params: seq<string>, s: State, env: Env, prompts: Prompts, ignoreCase: bool)
    requires Callable(h, params) && !h.RunAddon?
    ensures var code := BranchCode(h, params, s, env, prompts, ignoreCase);
            && (code == -3 || code == -2 || code == -1 || code == 0)
            && (code == -3 <==> (h.PlayMedia? || h.PlayerControl?) && |params| == 0)
            && (code == -2 ==> h.ShowPicture? || h.SlideShow? || h.SetStereoMode?)
            && (!Distinguished(h) && !h.ExportLibrary? ==> (code == -1 <==> h == Unknown))
  {
    if !h.ExportLibrary? {
      var code := BranchCode(h, params, s, env, prompts, ignoreCase);
      assert code == -3 || code == -2 || code == -1 || code == 0;
      assert code == -1 ==> h.Unknown? || h.Notification? || h.SystemLogoff?;
    }
  }

  /** The value Execute returns for a handler other than RunAddon, which hands its command back to Execute. */
  function BranchCode(h: Handler, params: seq<string>, s: State, env: Env, prompts: Prompts, ignoreCase: bool): (code: int)
    requires Callable(h, params) && !h.RunAddon?
  {
    if h.Unknown? then -1
    else if (h.PlayMedia? || h.PlayerControl?) && |params| == 0 then -3
    else if (h.ShowPicture? || h.SlideShow?) && |params| == 0 then -2
    else if h.SetStereoMode? && env.stereoAction(params[0]).None? then -2
    else if h.Notification? && |params| < 2 then -1
    else if h.SystemLogoff? && s.activeWindow == WINDOW_LOGIN_SCREEN then -1
    else if h.ExportLibrary? then ExportCode(params, prompts, ignoreCase)
    else 0
  }

  /** ExportLibrary fails when the user cancels one of its questions. */
  function ExportCode(params: seq<string>, prompts: Prompts, ignoreCase: bool): (code: int)
    requires |params| > 0
    ensures code == -1 || code == 0
  {
    if ExportChoiceOf(params, prompts, ignoreCase).ExportCancelled? then -1 else 0
  }

  /** RunAddon fails when the command it builds names no built-in. */
  function AddonCode(params: seq<string>, env: Env, ignoreCase: bool): (code: int)
    ensures code == -1 || code == 0
  {
    if |params| > 0 && RedispatchHandler(params, env, ignoreCase) == Unknown then -1 else 0
  }

  /** RunAddon for something that is neither a plugin nor a script hands back an empty command, which fails. */
  lemma RunAddonWithoutAddon(params: seq<string>, s: State, env: Env, prompts: Prompts, ignoreCase: bool)
    requires |params| > 0 && env.addonLookup(params[0]) == NoAddon
    ensures ExpectedCode(RunAddon, params, s, env, prompts, ignoreCase) == -1
  {
    var command := AddonRedispatch(params, env);
    assert command == "";
    assert CommandName(command) == "";
    assert Lower("") == "";
    EmptyNameIsUnknown(env.splitParams(command), ignoreCase);
  }

  /** The help built-in is registered but Execute has no branch for it. */
  lemma HelpFails(params: seq<string>, s: State, env: Env, prompts: Prompts, ignoreCase: bool)
    ensures Classify("help", params, ignoreCase) == Unknown
    ensures ExpectedCode(Classify("help", params, ignoreCase), params, s, env, prompts, ignoreCase) == -1
  {
    RegisteredButUnhandled(params, ignoreCase);
  }

  /** SetFocus and Control.SetFocus without a control id are unknown commands. */
  lemma SetFocusWithoutControl(execute: string, params: seq<string>, s: State, env: Env, prompts: Prompts, ignoreCase: bool)
    requires (execute == "setfocus" || execute == "control.setfocus") && |params| == 0
    ensures Classify(execute, params, ignoreCase) == Unknown
    ensures ExpectedCode(Classify(execute, params, ignoreCase), params, s, env, prompts, ignoreCase) == -1
  {
    GuardedIn4(execute, params, ignoreCase);
  }

  /** AlarmClock with fewer than a name and a command is an unknown command. */
  lemma AlarmClockWithoutCommand(execute: string, params: seq<string>, s: State, env: Env, prompts: Prompts, ignoreCase: bool)
    requires execute == "alarmclock" && |params| < 2
    ensures Classify(execute, params, ignoreCase) == Unknown
    ensures ExpectedCode(Classify(execute, params, ignoreCase), params, s, env, prompts, ignoreCase) == -1
  {
    GuardedIn8(execute, params, ignoreCase);
  }

  /** Control.Message without a control id and a message is an unknown command. */
  lemma ControlMessageWithoutTarget(execute: string, params: seq<string>, s: State, env: Env, prompts: Prompts, ignoreCase: bool)
    requires execute == "control.message" && |params| < 2
    ensures Classify(execute, params, ignoreCase) == Unknown
    ensures ExpectedCode(Classify(execute, params, ignoreCase), params, s, env, prompts, ignoreCase) == -1
  {
    GuardedIn15(execute, params, ignoreCase);
  }

  /** SetStereoMode with no mode, or an empty one, is an unknown command and returns -1, not the -2 of an unknown mode. */
  lemma SetStereoModeWithoutMode(execute: string, params: seq<string>, s: State, env: Env, prompts: Prompts, ignoreCase: bool)
    requires ignoreCase && execute == "setstereomode" && (|params| == 0 || params[0] == "")
    ensures Classify(execute, params, ignoreCase) == Unknown
    ensures ExpectedCode(Classify(execute, params, ignoreCase), params, s, env, prompts, ignoreCase) == -1
  {
    GuardedSetStereoMode(execute, params, ignoreCase);
  }

  /** The names RunAddon hands back never select a handler with an early return or an unguarded parameter. */
  lemma RedispatchNotDistinguished(params: seq<string>, env: Env, ignoreCase: bool)
    requires |params| > 0
    ensures !DistinguishedName(Lower(CommandName(AddonRedispatch(params, env))), ignoreCase)
  {
    RedispatchIsNotRunAddon(env.addonLookup(params[0]), params);
    var name := CommandName(AddonRedispatch(params, env));
    var e := Lower(name);
    if name != "" {
      assert e[0] == LowerChar(name[0]);
    }
    RedispatchShapesNotDistinguished(e, ignoreCase);
  }

  /**
   * No name of DistinguishedName has fourteen characters and starts with 'a',
   * or nine characters and starts with 'r'.
   */
  lemma RedispatchShapesNotDistinguished(e: string, ignoreCase: bool)
    requires |e| == 0 || (|e| == 14 && e[0] == 'a') || (|e| == 9 && e[0] == 'r')
    ensures !DistinguishedName(e, ignoreCase)
  {
    if |e| == 9 {
      DifferAt(e, "slideShow", 0, ignoreCase);
    }
  }

  // ---------------------------------------------------------- ExportLibrary

  /** The choices of ExportLibrary, or that the user cancelled one of its dialogs. */
  datatype ExportChoice =
    | ExportCancelled
    | ExportTo(singleFile: bool, thumbs: bool, actorThumbs: bool, overwrite: bool)

  /**
   * ExportLibrary's questions in order: single file (params[1]), thumbnails
   * (params[2], asked only for a single file), actor thumbnails (params[4],
   * asked only with thumbnails of a video export) and overwrite (params[3],
   * asked only for a single file). A missing parameter is asked in a
   * dialog; cancelling it abandons the export.
   */
  function ExportChoiceOf(params: seq<string>, prompts: Prompts, ignoreCase: bool): (c: ExportChoice)
    requires |params| > 0
    ensures c.ExportTo? && !c.singleFile ==> !c.thumbs && !c.actorThumbs && !c.overwrite
    ensures c.ExportTo? && c.actorThumbs ==> c.thumbs && Equals(params[0], "video", ignoreCase)
    ensures c.ExportCancelled? ==>
      prompts.singleFile.cancelled || prompts.thumbs.cancelled || prompts.actorThumbs.cancelled || prompts.overwrite.cancelled
    ensures |params| > 4 ==> c == ExportTo(
      Equals(params[1], "true", ignoreCase),
      Equals(params[1], "true", ignoreCase) && Equals(params[2], "true", ignoreCase),
      Equals(params[1], "true", ignoreCase) && Equals(params[2], "true", ignoreCase)
        && Equals(params[0], "video", ignoreCase) && Equals(params[4], "true", ignoreCase),
      Equals(params[1], "true", ignoreCase) && Equals(params[3], "true", ignoreCase))
  {
    var n := |params|;
    var single := if n > 1 then YesNo(Equals(params[1], "true", ignoreCase), false) else prompts.singleFile;
    if single.cancelled then ExportCancelled
    else
      var singleFile := single.answer;
      var thumbs := if !singleFile then YesNo(false, false)
                    else if n > 2 then YesNo(Equals(params[2], "true", ignoreCase), false)
                    else prompts.thumbs;
      if thumbs.cancelled then ExportCancelled
      else
        var actors := if !(thumbs.answer && Equals(params[0], "video", ignoreCase)) then YesNo(false, false)
                      else if n > 4 then YesNo(Equals(params[4], "true", ignoreCase), false)
                      else prompts.actorThumbs;
        if actors.cancelled then ExportCancelled
        else
          var overwrite := if !singleFile then YesNo(false, false)
                           else if n > 3 then YesNo(Equals(params[3], "true", ignoreCase), false)
                           else prompts.overwrite;
          if overwrite.cancelled then ExportCancelled
          else ExportTo(singleFile, thumbs.answer, actors.answer, overwrite.answer)
  }

  /**
   * The export itself: to params[2] (or the folder the user picks when
   * neither a single file nor a path is given), into the video database, or
   * into musicdb.xml inside a folder for the music database.
   */
  function ExportEvents(params: seq<string>, prompts: Prompts, env: Env, ignoreCase: bool): seq<Event>
    requires |params| > 0
  {
    match ExportChoiceOf(params, prompts, ignoreCase)
    case ExportCancelled => []
    case ExportTo(singleFile, thumbs, actorThumbs, overwrite) =>
      var given := if |params| > 2 then params[2] else "";
      var target := if singleFile || given != "" then Some(given) else prompts.exportDirectory;
      match target
      case None => []
      case Some(path) =>
        if Equals(params[0], "video", ignoreCase) then
          Call("VideoDatabase.ExportToXML", [Str(path), Flag(singleFile), Flag(thumbs), Flag(actorThumbs), Flag(overwrite)])
        else
          var file := if env.hasSlashAtEnd(path) then env.addFileToFolder(path, "musicdb.xml") else path;
          Call("MusicDatabase.ExportToXML", [Str(file), Flag(singleFile), Flag(thumbs), Flag(overwrite)])
  }

  // ---------------------------------------------------------- PlayerControl

  /** The argument of PlayerControl, in the order the handler tests it. */
  datatype PlayerCommand =
    | PlayPause | StopPlayback | Step(key: SpeedKey) | NextItem | PreviousItem
    | Skip(forward: bool, big: bool) | SeekPercentage | ShowVideoMenu | Record
    | PartyMode | Shuffle | Repeat | NoPlayerCommand

  function PlayerCommandOf(parameter: string, ignoreCase: bool): PlayerCommand {
    if Equals(parameter, "play", ignoreCase) then PlayPause
    else if Equals(parameter, "stop", ignoreCase) then StopPlayback
    else if Equals(parameter, "rewind", ignoreCase) then Step(Rewind)
    else if Equals(parameter, "forward", ignoreCase) then Step(Forward)
    else if Equals(parameter, "next", ignoreCase) then NextItem
    else if Equals(parameter, "previous", ignoreCase) then PreviousItem
    else if Equals(parameter, "bigskipbackward", ignoreCase) then Skip(false, true)
    else if Equals(parameter, "bigskipforward", ignoreCase) then Skip(true, true)
    else if Equals(parameter, "smallskipbackward", ignoreCase) then Skip(false, false)
    else if Equals(parameter, "smallskipforward", ignoreCase) then Skip(true, false)
    else if StartsWithNoCase(parameter, "seekpercentage") then SeekPercentage
    else if Equals(parameter, "showvideomenu", ignoreCase) then ShowVideoMenu
    else if Equals(parameter, "record", ignoreCase) then Record
    else if StartsWithNoCase(parameter, "partymode") then PartyMode
    else if Equals(parameter, "random", ignoreCase) || Equals(parameter, "randomoff", ignoreCase)
            || Equals(parameter, "randomon", ignoreCase) then Shuffle
    else if StartsWithNoCase(parameter, "repeat") then Repeat
    else NoPlayerCommand
  }

  /** No test of the chain shadows a later one: each documented argument selects its own command. */
  lemma DocumentedPlayerCommands(ignoreCase: bool)
    ensures PlayerCommandOf("play", ignoreCase) == PlayPause
    ensures PlayerCommandOf("stop", ignoreCase) == StopPlayback
    ensures PlayerCommandOf("rewind", ignoreCase) == Step(Rewind)
    ensures PlayerCommandOf("forward", ignoreCase) == Step(Forward)
    ensures PlayerCommandOf("next", ignoreCase) == NextItem
    ensures PlayerCommandOf("previous", ignoreCase) == PreviousItem
    ensures PlayerCommandOf("record", ignoreCase) == Record
    ensures PlayerCommandOf("partymode", ignoreCase) == PartyMode
    ensures PlayerCommandOf("random", ignoreCase) == Shuffle
    ensures PlayerCommandOf("repeat", ignoreCase) == Repeat
  {
    TransportCommands(ignoreCase);
    NextCommand(ignoreCase);
    PreviousCommand(ignoreCase);
    RecordCommand(ignoreCase);
    PartyModeCommand(ignoreCase);
    ShuffleCommand(ignoreCase);
    RepeatCommand(ignoreCase);
  }

  lemma TransportCommands(ignoreCase: bool)
    ensures PlayerCommandOf("play", ignoreCase) == PlayPause
    ensures PlayerCommandOf("stop", ignoreCase) == StopPlayback
    ensures PlayerCommandOf("rewind", ignoreCase) == Step(Rewind)
    ensures PlayerCommandOf("forward", ignoreCase) == Step(Forward)
  {
    EqualsReflexive("play", ignoreCase);
    EqualsReflexive("stop", ignoreCase);
    EqualsReflexive("rewind", ignoreCase);
    EqualsReflexive("forward", ignoreCase);
    DifferAt("stop", "play", 0, ignoreCase);
  }

  lemma NextCommand(ignoreCase: bool)
    ensures PlayerCommandOf("next", ignoreCase) == NextItem
  {
    EqualsReflexive("next", ignoreCase);
    DifferAt("next", "play", 0, ignoreCase);
    DifferAt("next", "stop", 0, ignoreCase);
  }

  lemma PreviousCommand(ignoreCase: bool)
    ensures PlayerCommandOf("previous", ignoreCase) == PreviousItem
  {
    EqualsReflexive("previous", ignoreCase);
  }

  lemma RecordCommand(ignoreCase: bool)
    ensures PlayerCommandOf("record", ignoreCase) == Record
  {
    EqualsReflexive("record", ignoreCase);
    DifferAt("record", "rewind", 2, ignoreCase);
  }

  lemma PartyModeCommand(ignoreCase: bool)
    ensures PlayerCommandOf("partymode", ignoreCase) == PartyMode
  {
    assert "partymode"[..9] == "partymode";
  }

  lemma ShuffleCommand(ignoreCase: bool)
    ensures PlayerCommandOf("random", ignoreCase) == Shuffle
  {
    EqualsReflexive("random", ignoreCase);
    DifferAt("random", "rewind", 1, ignoreCase);
    DifferAt("random", "record", 1, ignoreCase);
  }

  lemma RepeatCommand(ignoreCase: bool)
    ensures PlayerCommandOf("repeat", ignoreCase) == Repeat
  {
    DifferAt("repeat", "rewind", 2, ignoreCase);
    DifferAt("repeat", "record", 2, ignoreCase);
    DifferAt("repeat", "random", 1, ignoreCase);
    assert "repeat"[..6] == "repeat";
  }

  /** The skips: each of the four names selects its own direction and size. */
  lemma DocumentedSkips(ignoreCase: bool)
    ensures PlayerCommandOf("bigskipbackward", ignoreCase) == Skip(false, true)
    ensures PlayerCommandOf("bigskipforward", ignoreCase) == Skip(true, true)
    ensures PlayerCommandOf("smallskipbackward", ignoreCase) == Skip(false, false)
    ensures PlayerCommandOf("smallskipforward", ignoreCase) == Skip(true, false)
  {
    EqualsReflexive("bigskipbackward", ignoreCase);
    EqualsReflexive("bigskipforward", ignoreCase);
    EqualsReflexive("smallskipbackward", ignoreCase);
    EqualsReflexive("smallskipforward", ignoreCase);
  }

  /** The seekpercentage branch is reached only with an argument at least as long as its keyword. */
  lemma SeekCommandLength(parameter: string, ignoreCase: bool)
    ensures PlayerCommandOf(parameter, ignoreCase) == SeekPercentage ==> |parameter| >= 14
  {
  }

  /** The number of a playlist in the playlist player. */
  function PlaylistIndex(p: PlaylistId): int {
    match p
    case PlaylistNone => -1
    case PlaylistMusic => 0
    case PlaylistVideo => 1
    case PlaylistPicture => 2
  }

  function RepeatIndex(r: RepeatState): int {
    match r
    case RepeatNone => 0
    case RepeatOne => 1
    case RepeatAll => 2
  }

  /** CPartyModeManager's context numbers. */
  function PartyContextIndex(c: PartyContext): int {
    match c
    case PartyUnknown => 0
    case PartyMusic => 1
    case PartyVideo => 2
  }

  /** The playlist settings with one playlist's entry replaced. */
  function WithSettings(s: State, p: PlaylistId, settings: PlaylistSettings): (t: State)
    ensures Settings(t, p) == settings
    ensures forall q :: q != p ==> Settings(t, q) == Settings(s, q)
  {
    s.(playlists := s.playlists[p := settings])
  }

  /** The State after PlayerControl(params[0], ...). */
  function PlayerControlState(s: State, params: seq<string>, ignoreCase: bool): State
    requires |params| > 0
  {
    CommandState(s, PlayerCommandOf(params[0], ignoreCase), params, ignoreCase)
  }

  /** The State after PlayerControl(params[0], ...) when params[0] selects `command`. */
  function CommandState(s: State, command: PlayerCommand, params: seq<string>, ignoreCase: bool): State
    requires |params| > 0
  {
    var parameter := params[0];
    var current := Settings(s, s.currentPlaylist);
    match command
    case PlayPause =>
      if !s.playing then s
      else if s.playSpeed != 1 then s.(playSpeed := 1)
      else s.(paused := !s.paused)
    case StopPlayback => s.(playing := false)
    case Step(key) =>
      if s.playing && !s.paused then s.(playSpeed := NextSpeed(key, s.playSpeed)) else s
    case Record =>
      if s.playing && s.canRecord then s.(recording := !s.recording) else s
    case PartyMode => s.(partyMode := !s.partyMode)
    case Shuffle =>
      (match ShuffleTarget(parameter, current.shuffled, ignoreCase)
       case None => s
       case Some(b) => WithSettings(s, s.currentPlaylist, current.(shuffled := b)))
    case Repeat =>
      var target := RepeatTarget(parameter, current.repeat, ignoreCase);
      if target == current.repeat then s
      else WithSettings(s, s.currentPlaylist, current.(repeat := target))
    case _ => s
  }

  /** The media settings saved for the now-playing windows when the music or video playlist changes. */
  function SavedPlaylistSetting(setting: string, p: PlaylistId, value: bool): seq<Event> {
    if p == PlaylistMusic then Call("SetMusicPlaylist" + setting, [Flag(value)]) + Call("SaveSettings", [])
    else if p == PlaylistVideo then Call("SetVideoPlaylist" + setting, [Flag(value)]) + Call("SaveSettings", [])
    else []
  }

  /** The collaborator calls of PlayerControl(params[0], ...) after the screensaver is woken. */
  function PlayerControlEvents(s: State, params: seq<string>, env: Env, ignoreCase: bool): seq<Event>
    requires |params| > 0
  {
    CommandEvents(s, PlayerCommandOf(params[0], ignoreCase), params, env, ignoreCase)
  }

  /** The collaborator calls of PlayerControl(params[0], ...) when params[0] selects `command`. */
  function CommandEvents(s: State, command: PlayerCommand, params: seq<string>, env: Env, ignoreCase: bool): seq<Event>
    requires |params| > 0
    requires command.SeekPercentage? ==> |params[0]| >= 14
  {
    var parameter := params[0];
    var current := Settings(s, s.currentPlaylist);
    var notify := |params| == 2 && Equals(params[1], "notify", ignoreCase);
    var playlist := PlaylistIndex(s.currentPlaylist);
    match command
    case NextItem => Call("OnAction", [Str("ACTION_NEXT_ITEM")])
    case PreviousItem => Call("OnAction", [Str("ACTION_PREV_ITEM")])
    case Skip(forward, big) => if s.playing then Call("Seek", [Flag(forward), Flag(big)]) else []
    case SeekPercentage =>
      (match SeekPercentageArgument(parameter)
       case SeekOffset(text) =>
         var percent := env.atof(text);
         if SeeksTo(percent, s.playing) then Call("SeekPercentage", [Num(percent)]) else []
       case _ => [])
    case ShowVideoMenu => if s.playing then Call("OnAction", [Str("ACTION_SHOW_VIDEOMENU")]) else []
    case PartyMode =>
      if s.partyMode then Call("PartyMode.Disable", [])
      else
        var (context, xsp) := PartyModeArgument(parameter);
        Call("PartyMode.Enable", [Int(PartyContextIndex(context)), Str(xsp)])
    case Shuffle =>
      (match ShuffleTarget(parameter, current.shuffled, ignoreCase)
       case None => []
       case Some(b) =>
         Call("SetShuffleNotify", [Int(playlist), Flag(notify)])
         + SavedPlaylistSetting("Shuffled", s.currentPlaylist, b)
         + Call("SendThreadMessage", [Str("GUI_MSG_PLAYLISTPLAYER_RANDOM"), Int(playlist), Flag(b)]))
    case Repeat =>
      var target := RepeatTarget(parameter, current.repeat, ignoreCase);
      if target == current.repeat then []
      else
        Call("SetRepeatNotify", [Int(playlist), Flag(notify)])
        + SavedPlaylistSetting("Repeat", s.currentPlaylist, target == RepeatAll)
        + Call("SendThreadMessage", [Str("GUI_MSG_PLAYLISTPLAYER_REPEAT"), Int(playlist), Int(RepeatIndex(target))])
    case _ => []
  }

  /** Rewind followed by forward restores the play speed (while playing and not paused). */
  lemma RewindThenForward(s: State, ignoreCase: bool)
    requires s.playing && !s.paused && OnLadder(s.playSpeed) && s.playSpeed != -32
    ensures PlayerControlState(PlayerControlState(s, ["rewind"], ignoreCase), ["forward"], ignoreCase) == s
  {
    TransportCommands(ignoreCase);
    ForwardUndoesRewind(s.playSpeed);
  }

  /** Two play/pause commands at normal speed pause and resume. */
  lemma PlayPauseTwice(s: State, ignoreCase: bool)
    requires s.playing && s.playSpeed == 1
    ensures PlayerControlState(s, ["play"], ignoreCase).paused == !s.paused
    ensures PlayerControlState(PlayerControlState(s, ["play"], ignoreCase), ["play"], ignoreCase) == s
  {
    TransportCommands(ignoreCase);
  }

  /** Party mode toggles. */
  lemma PartyModeTwice(s: State, ignoreCase: bool)
    ensures PlayerControlState(s, ["partymode"], ignoreCase).partyMode == !s.partyMode
    ensures PlayerControlState(PlayerControlState(s, ["partymode"], ignoreCase), ["partymode"], ignoreCase) == s
  {
    PartyModeCommand(ignoreCase);
  }

  /** Three repeat commands bring the current playlist back to its repeat state, each changing it. */
  lemma RepeatThrice(s: State, ignoreCase: bool)
    ensures var s1 := PlayerControlState(s, ["repeat"], ignoreCase);
            var s2 := PlayerControlState(s1, ["repeat"], ignoreCase);
            var s3 := PlayerControlState(s2, ["repeat"], ignoreCase);
            && Settings(s1, s.currentPlaylist).repeat != Settings(s, s.currentPlaylist).repeat
            && Settings(s3, s.currentPlaylist) == Settings(s, s.currentPlaylist)
            && s3.currentPlaylist == s.currentPlaylist
  {
    RepeatCommand(ignoreCase);
    var p := s.currentPlaylist;
    var s1 := PlayerControlState(s, ["repeat"], ignoreCase);
    var s2 := PlayerControlState(s1, ["repeat"], ignoreCase);
    var s3 := PlayerControlState(s2, ["repeat"], ignoreCase);
    RepeatCycle("repeat", Settings(s, p).repeat, ignoreCase);
    RepeatStep(s, ignoreCase);
    RepeatStep(s1, ignoreCase);
    RepeatStep(s2, ignoreCase);
  }

  /** One repeat command moves the current playlist one step along the cycle and changes nothing else of it. */
  lemma RepeatStep(s: State, ignoreCase: bool)
    ensures var t := PlayerControlState(s, ["repeat"], ignoreCase);
            && t.currentPlaylist == s.currentPlaylist
            && Settings(t, s.currentPlaylist) == Settings(s, s.currentPlaylist).(repeat := RepeatTarget("repeat", Settings(s, s.currentPlaylist).repeat, ignoreCase))
  {
    RepeatCommand(ignoreCase);
    assert ["repeat"][0] == "repeat";
    RepeatCycle("repeat", Settings(s, s.currentPlaylist).repeat, ignoreCase);
  }

  /** `random` toggles the current playlist's shuffle flag; twice restores it. */
  lemma RandomTwice(s: State, ignoreCase: bool)
    ensures var s1 := PlayerControlState(s, ["random"], ignoreCase);
            && Settings(s1, s.currentPlaylist).shuffled == !Settings(s, s.currentPlaylist).shuffled
            && Settings(PlayerControlState(s1, ["random"], ignoreCase), s.currentPlaylist) == Settings(s, s.currentPlaylist)
  {
    RandomStep(s, ignoreCase);
    RandomStep(PlayerControlState(s, ["random"], ignoreCase), ignoreCase);
  }

  /** `random` flips the shuffle flag of the current playlist and changes nothing else. */
  lemma RandomStep(s: State, ignoreCase: bool)
    ensures var current := Settings(s, s.currentPlaylist);
            PlayerControlState(s, ["random"], ignoreCase) == WithSettings(s, s.currentPlaylist, current.(shuffled := !current.shuffled))
  {
    ShuffleCommand(ignoreCase);
    assert ["random"][0] == "random";
    assert !Equals("random", "randomon", ignoreCase) && !Equals("random", "randomoff", ignoreCase);
  }

  /** Only stop, party mode and the playlist commands change anything while nothing plays. */
  lemma IdleCommandsChangeNothing(s: State, params: seq<string>, ignoreCase: bool)
    requires |params| > 0 && !s.playing
    requires PlayerCommandOf(params[0], ignoreCase) !in {StopPlayback, PartyMode, Shuffle, Repeat}
    ensures PlayerControlState(s, params, ignoreCase) == s
  {
  }

  // -------------------------------------------------------------- PlayMedia

  predicate HasVideo(items: seq<MediaEntry>) {
    exists k :: 0 <= k < |items| && items[k].isVideo
  }

  predicate HasMusic(items: seq<MediaEntry>) {
    exists k :: 0 <= k < |items| && !items[k].isVideo
  }

  /** The playlist a folder is played from: video when it holds any video. */
  function FolderPlaylist(items: seq<MediaEntry>): PlaylistId {
    if HasVideo(items) then PlaylistVideo else PlaylistMusic
  }

  /**
   * The entries of a folder that are queued: all of them, or only the
   * videos of a mixed folder. Every queued entry belongs to the chosen
   * playlist and none of those that do is dropped.
   */
  function QueuedItems(items: seq<MediaEntry>): seq<MediaEntry> {
    if HasVideo(items) && HasMusic(items) then VideosOf(items) else items
  }

  lemma QueuedItemsBelong(items: seq<MediaEntry>)
    ensures forall e :: e in QueuedItems(items) ==> e in items && (e.isVideo <==> FolderPlaylist(items) == PlaylistVideo)
    ensures forall e :: e in items && (e.isVideo <==> FolderPlaylist(items) == PlaylistVideo) ==> e in QueuedItems(items)
  {
    VideosOfMembers(items);
  }

  /** The options of PlayMedia(media, ...). */
  function MediaOptions(params: seq<string>, ignoreCase: bool): MediaSettings {
    MediaSettingsUpTo(params, |params|, ignoreCase)
  }

  predicate PlaysFolder(params: seq<string>, env: Env, ignoreCase: bool)
    requires |params| > 0
  {
    env.hasSlashAtEnd(params[0]) || MediaOptions(params, ignoreCase).isDirectory
  }

  /** The user was asked whether to resume and dismissed the menu. */
  predicate ResumeDeclined(params: seq<string>, prompts: Prompts, ignoreCase: bool) {
    MediaOptions(params, ignoreCase).askToResume && !prompts.resumeChosen
  }

  /** The playlist PlayMedia makes current: the folder's, else music for audio and video otherwise. */
  function MediaPlaylist(params: seq<string>, env: Env, ignoreCase: bool): PlaylistId
    requires |params| > 0
  {
    if PlaysFolder(params, env, ignoreCase) then FolderPlaylist(env.directoryItems(params[0]))
    else if env.isAudio(params[0]) then PlaylistMusic
    else PlaylistVideo
  }

  function PlayMediaState(s: State, params: seq<string>, env: Env, prompts: Prompts, ignoreCase: bool): State
    requires |params| > 0
  {
    if ResumeDeclined(params, prompts, ignoreCase) then s
    else s.(currentPlaylist := MediaPlaylist(params, env, ignoreCase))
  }

  /** PlayMedia's calls before it looks at the media: leave full-screen windows, wake the screensaver. */
  function PlayMediaPrelude(s: State, params: seq<string>, ignoreCase: bool): seq<Event> {
    (if s.activeWindow == WINDOW_SLIDESHOW || s.activeWindow == WINDOW_FULLSCREEN_VIDEO
        || s.activeWindow == WINDOW_VISUALISATION
     then Call("PreviousWindow", []) else [])
    + Call("ResetScreenSaver", []) + Call("WakeUpScreenSaverAndDPMS", [])
    + (if MediaOptions(params, ignoreCase).startWindowed then Call("SetVideoStartWindowed", [Flag(true)]) else [])
  }

  /** PlayMedia's calls that start playback: a folder is queued and played, a file is played. */
  function PlayMediaStart(params: seq<string>, env: Env, prompts: Prompts, ignoreCase: bool): seq<Event>
    requires |params| > 0
  {
    var options := MediaOptions(params, ignoreCase);
    var playlist := PlaylistIndex(MediaPlaylist(params, env, ignoreCase));
    if ResumeDeclined(params, prompts, ignoreCase) then []
    else if PlaysFolder(params, env, ignoreCase) then
      Call("ClearPlaylist", [Int(playlist)])
      + Call("AddToPlaylist", [Int(playlist), Entries(QueuedItems(env.directoryItems(params[0])))])
      + Call("PlaylistPlay", [Int(options.playOffset)])
    else
      Call("ClearPlaylist", [Int(playlist)])
      + Call("PlayMedia", [Str(params[0]), Flag(options.resume), Flag(options.offsetGiven), Int(options.playOffset), Int(playlist)])
  }

  function PlayMediaEvents(s: State, params: seq<string>, env: Env, prompts: Prompts, ignoreCase: bool): seq<Event>
    requires |params| > 0
  {
    PlayMediaPrelude(s, params, ignoreCase) + PlayMediaStart(params, env, prompts, ignoreCase)
  }

  /** When the user dismisses the resume menu, PlayMedia changes no state and only makes its preliminary calls. */
  lemma PlayMediaDeclined(s: State, params: seq<string>, env: Env, prompts: Prompts, ignoreCase: bool)
    requires |params| > 0 && ResumeDeclined(params, prompts, ignoreCase)
    ensures PlayMediaState(s, params, env, prompts, ignoreCase) == s
    ensures PlayMediaEvents(s, params, env, prompts, ignoreCase) == PlayMediaPrelude(s, params, ignoreCase)
  {
    assert PlayMediaStart(params, env, prompts, ignoreCase) == [];
    assert PlayMediaPrelude(s, params, ignoreCase) + [] == PlayMediaPrelude(s, params, ignoreCase);
  }

  // ------------------------------------------------------------- AlarmClock

  /** The alarm's time in seconds: params[2] in minutes or as a time string, else the minutes the user types. */
  function AlarmSeconds(params: seq<string>, env: Env, prompts: Prompts): Option<int>
    requires |params| >= 2
  {
    if |params| > 2 then
      Some(if ':' !in params[2] then Atoi(params[2]) * 60 else env.timeStringToSeconds(params[2]))
    else
      match prompts.alarmMinutes
      case Some(minutes) => Some(Atoi(minutes) * 60)
      case None => None
  }

  predicate AlarmSilent(params: seq<string>) {
    exists k :: 3 <= k < |params| && IsSilentWord(params[k])
  }

  predicate AlarmLoops(params: seq<string>) {
    exists k :: 3 <= k < |params| && !IsSilentWord(params[k]) && EqualsNoCase(params[k], "loop")
  }

  /**
   * AlarmClock(name, command[, time, options]): any alarm of that name is
   * stopped, and a new one started unless the time is refused.
   */
  function AlarmClockState(s: State, params: seq<string>, env: Env, prompts: Prompts): (t: State)
    requires |params| >= 2
    ensures AlarmSeconds(params, env, prompts).None? ==> t == s
    ensures AlarmSeconds(params, env, prompts).Some? ==> t.(alarms := s.alarms) == s
    ensures forall name :: name != params[0] ==>
      (name in t.alarms <==> name in s.alarms) && (name in s.alarms ==> t.alarms[name] == s.alarms[name])
    ensures AlarmSeconds(params, env, prompts).Some? ==>
      var seconds := AlarmSeconds(params, env, prompts).value;
      && (params[0] in t.alarms <==> AlarmAccepted(seconds, AlarmLoops(params)))
      && (params[0] in t.alarms ==> t.alarms[params[0]].command == params[1] && t.alarms[params[0]].seconds == seconds)
  {
    match AlarmSeconds(params, env, prompts)
    case None => s
    case Some(seconds) =>
      var stopped := s.alarms - {params[0]};
      var loop := AlarmLoops(params);
      if AlarmAccepted(seconds, loop)
      then s.(alarms := stopped[params[0] := Alarm(params[1], seconds, AlarmSilent(params), loop)])
      else s.(alarms := stopped)
  }

  /**
   * A refused time (negative, or zero for a looping alarm) still stops the
   * alarm of that name: afterwards no alarm of that name runs and the others
   * are as before.
   */
  lemma RefusedAlarmStopsOldOne(s: State, params: seq<string>, env: Env, prompts: Prompts)
    requires |params| >= 2
    requires AlarmSeconds(params, env, prompts).Some?
    requires AlarmSeconds(params, env, prompts).value < 0 ||
             (AlarmSeconds(params, env, prompts).value == 0 && AlarmLoops(params))
    ensures AlarmClockState(s, params, env, prompts).alarms == s.alarms - {params[0]}
  {
    var t := AlarmClockState(s, params, env, prompts);
    assert params[0] !in t.alarms;
    SameAwayFrom(t.alarms, s.alarms, params[0]);
    assert t.alarms == t.alarms - {params[0]};
  }

  /** CancelAlarm undoes AlarmClock: the alarms are those before, without the name. */
  lemma AlarmThenCancel(s: State, params: seq<string>, env: Env, prompts: Prompts)
    requires |params| >= 2
    ensures AlarmClockState(s, params, env, prompts).alarms - {params[0]} == s.alarms - {params[0]}
  {
    var t := AlarmClockState(s, params, env, prompts);
    SameAwayFrom(t.alarms, s.alarms, params[0]);
  }

  /** Two maps that agree on every key but `k` are equal once `k` is removed. */
  lemma SameAwayFrom<K, V>(a: map<K, V>, b: map<K, V>, k: K)
    requires forall x :: x != k ==> (x in a <==> x in b) && (x in a ==> a[x] == b[x])
    ensures a - {k} == b - {k}
  {
    assert (a - {k}).Keys == (b - {k}).Keys;
  }

  // ----------------------------------------------------------- Notification

  function NotificationEvents(params: seq<string>): seq<Event>
    requires |params| >= 2
  {
    if |params| == 4 then
      Call("QueueNotification", [Str(params[3]), Str(params[0]), Str(params[1]), Int(Atoi(params[2]))])
    else if |params| == 3 then
      Call("QueueNotification", [Str(""), Str(params[0]), Str(params[1]), Int(Atoi(params[2]))])
    else
      Call("QueueNotification", [Str(params[0]), Str(params[1])])
  }

  // ------------------------------------------------------------------- Skin

  /** The Skin.Theme handler's new theme setting. */
  function NextTheme(s: State, parameter: string, env: Env, ignoreCase: bool): string {
    var current := ThemeIndex(s.skinTheme, env.removeExtension(s.skinTheme), env.skinThemes, ignoreCase);
    ThemeName(env.skinThemes, NextThemeIndex(current, |env.skinThemes|, Atoi(parameter)))
  }

  function SkinThemeState(s: State, parameter: string, env: Env, ignoreCase: bool): State {
    var theme := NextTheme(s, parameter, env, ignoreCase);
    s.(skinTheme := theme, skinColors := ColorTheme(env.withXmlExtension(theme), ignoreCase))
  }

  /**
   * When the themes are distinct, stored without extension, and none is
   * SKINDEFAULT, Skin.Theme(-1) after Skin.Theme(1) returns to the theme
   * the setting named before.
   */
  lemma ThemeForwardThenBack(s: State, env: Env, ignoreCase: bool)
    requires forall i, j :: 0 <= i < j < |env.skinThemes| ==> !Equals(env.skinThemes[i], env.skinThemes[j], ignoreCase)
    requires forall i :: 0 <= i < |env.skinThemes| ==> env.removeExtension(env.skinThemes[i]) == env.skinThemes[i]
    requires forall i :: 0 <= i < |env.skinThemes| ==> !EqualsNoCase(env.skinThemes[i], "SKINDEFAULT")
    ensures var back := SkinThemeState(SkinThemeState(s, "1", env, ignoreCase), "-1", env, ignoreCase);
            back.skinTheme == ThemeName(env.skinThemes,
              ThemeIndex(s.skinTheme, env.removeExtension(s.skinTheme), env.skinThemes, ignoreCase))
  {
    var themes := env.skinThemes;
    var i := ThemeIndex(s.skinTheme, env.removeExtension(s.skinTheme), themes, ignoreCase);
    var j := NextThemeIndex(i, |themes|, 1);
    assert Atoi("1") == 1 && Atoi("-1") == -1;
    var name := ThemeName(themes, j);
    ThemeNameIndex(themes, j, env, ignoreCase);
    BackUndoesAdvance(i, |themes|);
  }

  /** The index of a theme written by Skin.Theme reads back as the same index. */
  lemma ThemeNameIndex(themes: seq<string>, j: int, env: Env, ignoreCase: bool)
    requires themes == env.skinThemes && -1 <= j < |themes|
    requires forall i, k :: 0 <= i < k < |themes| ==> !Equals(themes[i], themes[k], ignoreCase)
    requires forall i :: 0 <= i < |themes| ==> env.removeExtension(themes[i]) == themes[i]
    requires forall i :: 0 <= i < |themes| ==> !EqualsNoCase(themes[i], "SKINDEFAULT")
    ensures ThemeIndex(ThemeName(themes, j), env.removeExtension(ThemeName(themes, j)), themes, ignoreCase) == j
  {
    var name := ThemeName(themes, j);
    if j == -1 {
      assert name == "SKINDEFAULT";
    } else {
      assert name == themes[j];
      EqualsReflexive(themes[j], ignoreCase);
    }
  }

  lemma EqualsReflexive(a: string, ignoreCase: bool)
    ensures Equals(a, a, ignoreCase)
  {
  }

  /** The value Skin.Set<kind>(setting[, ...]) stores, if any. */
  function SkinValueOf(kind: SkinValueKind, params: seq<string>, env: Env, prompts: Prompts, ignoreCase: bool): Option<string>
    requires |params| > 0
  {
    if |params| > 1 && kind == StringValue then Some(params[1])
    else if kind == FileValue && env.addonType(Lower(if |params| > 1 then params[1] else "")) != UnknownAddonType then
      match prompts.value
      case Some(chosen) => Some(if StartsWithNoCase(chosen, "addons://") then env.fileName(chosen) else chosen)
      case None => None
    else prompts.value
  }

  /** The add-on kinds named by Skin.SetAddon's parameters, in order. */
  function KnownTypes(names: seq<string>, env: Env): (r: seq<AddonType>)
    ensures |r| <= |names|
    ensures forall t :: t in r ==> t != UnknownAddonType
  {
    if |names| == 0 then []
    else
      var last := names[|names| - 1];
      KnownTypes(names[..|names| - 1], env) + (if env.addonType(last) != UnknownAddonType then [env.addonType(last)] else [])
  }

  /** The browser opens exactly when some parameter names a kind of add-on. */
  lemma {:induction false} KnownTypesNonEmpty(names: seq<string>, env: Env)
    ensures |KnownTypes(names, env)| > 0 <==> exists k :: 0 <= k < |names| && env.addonType(names[k]) != UnknownAddonType
  {
    if |names| > 0 {
      var front := names[..|names| - 1];
      KnownTypesNonEmpty(front, env);
      assert forall k :: 0 <= k < |front| ==> front[k] == names[k];
      if exists k :: 0 <= k < |names| && env.addonType(names[k]) != UnknownAddonType {
        var k :| 0 <= k < |names| && env.addonType(names[k]) != UnknownAddonType;
        if k < |front| {
          assert env.addonType(front[k]) != UnknownAddonType;
        }
      }
    }
  }

  // ----------------------------------------------- windows and master mode

  /** The focus messages of ActivateWindowAndFocus, from the window just activated. */
  function FocusMessages(params: seq<string>, window: int): (r: seq<Event>)
    requires |params| > 0
    ensures |r| == (|params| - 1) / 2
  {
    seq((|params| - 1) / 2, k requires 0 <= k < (|params| - 1) / 2 =>
      Message("GUI_MSG_SETFOCUS", window, Atoi(params[2 * k + 1]), Atoi(params[2 * k + 2]) + 1, 0))
  }

  /** A warning toast with a localized heading and message. */
  function Warning(heading: int, message: int): seq<Event> {
    Call("QueueNotification", [Str("Warning"), Int(heading), Int(message)])
  }

  /** MasterMode locks the sources when leaving master mode, unlocks them when the master code is given. */
  function MasterModeEvents(s: State, prompts: Prompts): seq<Event> {
    (if s.masterUser then Call("LockSources", [Flag(true)]) + Warning(20052, 20053)
     else if prompts.masterUnlocked then Call("LockSources", [Flag(false)]) + Warning(20052, 20054)
     else [])
    + Call("DeleteVideoDatabaseDirectoryCache", [])
    + [Event("SendMessage", [Str("GUI_MSG_NOTIFY_ALL"), Int(0), Int(0), Str("GUI_MSG_UPDATE")])]
  }

  // ------------------------------------------------------------ System.LogOff

  function LogoffState(s: State): State {
    s.(playing := false, musicScanning := false, videoScanning := false, masterUser := false,
       activeWindow := WINDOW_LOGIN_SCREEN, focusedWindow := WINDOW_LOGIN_SCREEN)
  }

  /** The calls that stop playback and the running library scans. */
  function LogoffStops(s: State): seq<Event> {
    Call("StopPlaying", [])
    + (if s.musicScanning then Call("StopMusicScan", []) else [])
    + (if s.videoScanning then Call("StopVideoScan", []) else [])
  }

  /** The calls of a logoff from state `s`, in the order they are made. */
  function LogoffEvents(s: State, env: Env): seq<Event> {
    LogoffStops(s)
    + Call("StopServices", [Flag(true)])
    + Call("NetworkMessage", [Str("SERVICES_DOWN"), Int(1)])
    + Call("LoadMasterProfileForLogin", [])
    + Call("ActivateWindow", [Int(WINDOW_LOGIN_SCREEN), Strs([]), Flag(false)])
    + (if env.eventServerStarts then [] else Warning(33102, 33100))
  }

  /** Logging off from anywhere but the login screen ends at the login screen, stopped and as no master user. */
  lemma LogoffEndsAtLogin(s: State, params: seq<string>, env: Env, prompts: Prompts, ignoreCase: bool)
    requires s.activeWindow != WINDOW_LOGIN_SCREEN
    ensures ExpectedCode(SystemLogoff, params, s, env, prompts, ignoreCase) == 0
    ensures ExpectedCode(SystemLogoff, params, LogoffState(s), env, prompts, ignoreCase) == -1
  {
  }
}
