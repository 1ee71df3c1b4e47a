/**
 * CBuiltins::Execute as a method of a class that holds the collaborator
 * State it reads and changes and the log of the other collaborator calls
 * it makes. Each branch that changes State is a method of its own, proved
 * against the functions of HostSpec.
 */
module Host {
  import opened Wrappers
  import opened Text
  import opened PlayerRules
  import opened SkinRules
  import opened AddonRules
  import opened OptionScans
  import opened Dispatch
  import opened Collaborators
  import opened Handlers
  import opened HostSpec

  /** Branches that start or drive playback, or show a notification; most of them may refuse. */
  predicate StartHandler(h: Handler) {
    h.PlayMedia? || h.ShowPicture? || h.SlideShow? || h.PlayerControl? || h.Notification?
  }

  /** Branches that set the volume, the playlist position or the alarms. */
  predicate PlayerStateHandler(h: Handler) {
    h.Mute? || h.SetVolume? || h.PlaylistPlayOffset? || h.AlarmClock? || h.CancelAlarm?
  }

  /** Branches about windows, the master user and the profile. */
  predicate WindowStateHandler(h: Handler) {
    h.MasterMode? || h.ActivateWindow? || h.ActivateWindowAndFocus? || h.SystemLogoff?
  }

  /** Branches that change a skin setting directly. */
  predicate SkinSettingHandler(h: Handler) {
    h.SkinToggleSetting? || h.SkinSetBool? || h.SkinReset? || h.SkinResetSettings?
  }

  /** Branches that change the skin's theme or a skin string chosen by the user. */
  predicate SkinChoiceHandler(h: Handler) {
    h.SkinTheme? || h.SkinSetValue? || h.SkinSetAddon?
  }

  /** Branches about the libraries, the debug log and the stereoscopic mode. */
  predicate LibraryHandler(h: Handler) {
    h.UpdateLibrary? || h.ExportLibrary? || h.ToggleDebug? || h.SetStereoMode?
  }

  /** Every handler is Unknown, RunAddon, or belongs to exactly one group of branches. */
  lemma HandlerGroups(h: Handler)
    ensures h.Unknown? || h.RunAddon? || IsSimple(h) || StartHandler(h) || PlayerStateHandler(h)
      || WindowStateHandler(h) || SkinSettingHandler(h) || SkinChoiceHandler(h) || LibraryHandler(h)
    ensures IsSimple(h) ==> !MayRefuse(h)
  {
  }

  class Builtins {
    var state: State
    var log: seq<Event>
    const env: Env
    const ignoreCase: bool

    constructor (env: Env, ignoreCase: bool, initial: State)
      ensures this.env == env && this.ignoreCase == ignoreCase
      ensures state == initial && log == []
    {
      this.env := env;
      this.ignoreCase := ignoreCase;
      state := initial;
      log := [];
    }

    /**
     * CBuiltins::Execute for a built-in already split into its name and
     * parameters. It returns the code ExpectedCode gives, only appends to
     * the log, and an unknown built-in changes nothing.
     */
    method Execute(name: string, params: seq<string>, prompts: Prompts) returns (code: int)
      requires ReadsFirstParameter(Classify(Lower(name), params, ignoreCase)) ==> |params| > 0
      modifies this
      decreases if DistinguishedName(Lower(name), ignoreCase) then 1 else 0, 2
      ensures code == ExpectedCode(Classify(Lower(name), params, ignoreCase), params, old(state), env, prompts, ignoreCase)
      ensures old(log) <= log
      ensures Classify(Lower(name), params, ignoreCase) == Unknown ==> state == old(state) && log == old(log)
    {
      var execute := Lower(name);
      var h := Classify(execute, params, ignoreCase);
      ClassifyDistinguished(execute, params, ignoreCase);
      code := RunHandler(h, params, prompts);
    }

    /** The branch of Execute that handler `h` selects. */
    method RunHandler(h: Handler, params: seq<string>, prompts: Prompts) returns (code: int)
      requires Callable(h, params)
      modifies this
      decreases if Distinguished(h) then 1 else 0, 1
      ensures code == ExpectedCode(h, params, old(state), env, prompts, ignoreCase)
      ensures old(log) <= log
      ensures h == Unknown ==> state == old(state) && log == old(log)
    {
      if h == Unknown {
        code := -1;
      } else if h == RunAddon {
        code := RunAddonCommand(params, prompts);
      } else {
        code := RunBuiltin(h, params, prompts);
      }
    }

    /** The branches of the built-ins other than RunAddon. */
    method RunBuiltin(h: Handler, params: seq<string>, prompts: Prompts) returns (code: int)
      requires Callable(h, params) && !h.Unknown? && !h.RunAddon?
      modifies this
      ensures code == BranchCode(h, params, old(state), env, prompts, ignoreCase)
      ensures old(log) <= log
    {
      HandlerGroups(h);
      if IsSimple(h) {
        PlainHandlerCode(h, params, state, env, prompts, ignoreCase);
        code := RunSimple(h, params, prompts);
      } else if StartHandler(h) || PlayerStateHandler(h) {
        code := RunPlayback(h, params, prompts);
      } else {
        code := RunSettings(h, params, prompts);
      }
    }

    /** RunAddon: executes the command built for the add-on params[0]. */
    method RunAddonCommand(params: seq<string>, prompts: Prompts) returns (code: int)
      modifies this
      decreases 1, 0
      ensures code == AddonCode(params, env, ignoreCase)
      ensures old(log) <= log
    {
      if |params| > 0 {
        var command := AddonRedispatch(params, env);
        RedispatchNotDistinguished(params, env, ignoreCase);
        ClassifyDistinguished(Lower(CommandName(command)), env.splitParams(command), ignoreCase);
        code := Execute(CommandName(command), env.splitParams(command), prompts);
      } else {
        code := 0;
      }
    }

    /** The branches that only call collaborators. */
    method RunSimple(h: Handler, params: seq<string>, prompts: Prompts) returns (code: int)
      requires IsSimple(h) && Callable(h, params)
      modifies this
      ensures code == 0 && state == old(state)
      ensures log == old(log) + SimpleEvents(h, params, old(state), env, prompts, ignoreCase)
    {
      log := log + SimpleEvents(h, params, state, env, prompts, ignoreCase);
      code := 0;
    }

    // ------------------------------------------------------------- playback

    method RunPlayback(h: Handler, params: seq<string>, prompts: Prompts) returns (code: int)
      requires (StartHandler(h) || PlayerStateHandler(h)) && Callable(h, params)
      modifies this
      ensures code == BranchCode(h, params, old(state), env, prompts, ignoreCase)
      ensures old(log) <= log
    {
      if StartHandler(h) {
        code := RunStart(h, params, prompts);
      } else {
        code := RunPlayerState(h, params, prompts);
      }
    }

    method RunStart(h: Handler, params: seq<string>, prompts: Prompts) returns (code: int)
      requires StartHandler(h) && Callable(h, params)
      modifies this
      ensures code == BranchCode(h, params, old(state), env, prompts, ignoreCase)
      ensures old(log) <= log
    {
      if h.PlayMedia? {
        code := PlayMediaBranch(params, prompts);
      } else if h.ShowPicture? {
        code := ShowPictureBranch(params);
      } else if h.SlideShow? {
        code := SlideShowBranch(h.recursive, params);
      } else if h.PlayerControl? {
        code := PlayerControlBranch(params);
      } else if |params| < 2 {
        code := -1;
      } else {
        log := log + NotificationEvents(params);
        code := 0;
      }
    }

    method RunPlayerState(h: Handler, params: seq<string>, prompts: Prompts) returns (code: int)
      requires PlayerStateHandler(h) && Callable(h, params)
      modifies this
      ensures code == BranchCode(h, params, old(state), env, prompts, ignoreCase) == 0
      ensures old(log) <= log
    {
      PlainHandlerCode(h, params, state, env, prompts, ignoreCase);
      code := 0;
      if h.Mute? {
        MuteBranch();
      } else if h.SetVolume? {
        SetVolumeBranch(params);
      } else if h.PlaylistPlayOffset? {
        PlayOffsetBranch(params);
      } else if h.AlarmClock? {
        AlarmClockBranch(params, prompts);
      } else {
        CancelAlarmBranch(params);
      }
    }

    /** PlayMedia(media[, isdir][, 1][, resume | noresume][, playoffset=n]). */
    method RunPlayMedia(params: seq<string>, prompts: Prompts) returns (code: int)
      modifies this
      ensures |params| == 0 ==> code == -3 && state == old(state) && log == old(log)
      ensures |params| > 0 ==> code == 0
      ensures |params| > 0 ==> state == PlayMediaState(old(state), params, env, prompts, ignoreCase)
      ensures |params| > 0 ==> log == old(log) + PlayMediaEvents(old(state), params, env, prompts, ignoreCase)
    {
      if |params| == 0 {
        return -3;
      }
      code := 0;
      var options := PlayMediaOptions(params, ignoreCase);
      var events := PlayMediaPreludeCalls(params, options);
      if options.askToResume && !prompts.resumeChosen {
        PlayMediaDeclined(state, params, env, prompts, ignoreCase);
        log := log + events;
        return;
      }
      var isFolder := env.hasSlashAtEnd(params[0]) || options.isDirectory;
      var playlist, started := StartMedia(params, prompts, isFolder, options);
      state := state.(currentPlaylist := playlist);
      log := log + (events + started);
    }

    /** PlayMedia's calls before it looks at the media. */
    method PlayMediaPreludeCalls(params: seq<string>, options: MediaSettings) returns (events: seq<Event>)
      requires options == MediaOptions(params, ignoreCase)
      ensures events == PlayMediaPrelude(state, params, ignoreCase)
    {
      events := [];
      var active := state.activeWindow;
      if active == WINDOW_SLIDESHOW || active == WINDOW_FULLSCREEN_VIDEO || active == WINDOW_VISUALISATION {
        events := Call("PreviousWindow", []);
      }
      events := events + Call("ResetScreenSaver", []) + Call("WakeUpScreenSaverAndDPMS", []);
      if options.startWindowed {
        events := events + Call("SetVideoStartWindowed", [Flag(true)]);
      }
    }

    /** PlayMedia once the resume question is settled: the playlist it makes current and the calls that start playback. */
    method StartMedia(params: seq<string>, prompts: Prompts, isFolder: bool, options: MediaSettings)
      returns (playlist: PlaylistId, started: seq<Event>)
      requires |params| > 0 && !ResumeDeclined(params, prompts, ignoreCase)
      requires isFolder == PlaysFolder(params, env, ignoreCase) && options == MediaOptions(params, ignoreCase)
      ensures playlist == MediaPlaylist(params, env, ignoreCase)
      ensures started == PlayMediaStart(params, env, prompts, ignoreCase)
    {
      if isFolder {
        var items;
        playlist, items := ScanMediaFolder(params[0]);
        started := Call("ClearPlaylist", [Int(PlaylistIndex(playlist))])
                   + Call("AddToPlaylist", [Int(PlaylistIndex(playlist)), Entries(items)])
                   + Call("PlaylistPlay", [Int(options.playOffset)]);
      } else {
        playlist := if env.isAudio(params[0]) then PlaylistMusic else PlaylistVideo;
        started := Call("ClearPlaylist", [Int(PlaylistIndex(playlist))])
                   + Call("PlayMedia", [Str(params[0]), Flag(options.resume), Flag(options.offsetGiven),
                                        Int(options.playOffset), Int(PlaylistIndex(playlist))]);
      }
    }

    /**
     * The folder branch of PlayMedia: the folder is read, it is played as
     * video when it holds any video, and the music of a mixed folder is
     * dropped.
     */
    method ScanMediaFolder(path: string) returns (playlist: PlaylistId, items: seq<MediaEntry>)
      ensures playlist == FolderPlaylist(env.directoryItems(path))
      ensures items == QueuedItems(env.directoryItems(path))
    {
      items := env.directoryItems(path);
      var containsMusic, containsVideo := ScanFolder(items);
      playlist := if containsVideo then PlaylistVideo else PlaylistMusic;
      if containsMusic && containsVideo {
        items := RemoveMusic(items);
      }
    }

    /** ShowPicture(path): the picture is shown in the slideshow window. */
    method RunShowPicture(params: seq<string>) returns (code: int)
      modifies this
      ensures state == old(state)
      ensures |params| == 0 ==> code == -2 && log == old(log)
      ensures |params| > 0 ==> code == 0
      ensures |params| > 0 ==>
        log == old(log) + Call("OnMessage", [Int(WINDOW_SLIDESHOW), Str("GUI_MSG_SHOW_PICTURE"), Str(params[0])])
    {
      if |params| == 0 {
        return -2;
      }
      log := log + Call("OnMessage", [Int(WINDOW_SLIDESHOW), Str("GUI_MSG_SHOW_PICTURE"), Str(params[0])]);
      code := 0;
    }

    /**
     * SlideShow(dir[, options]) and RecursiveSlideShow(dir): the slideshow
     * starts with the option flags and the slide to begin with; the
     * recursive form ignores the options.
     */
    method RunSlideShow(recursive: bool, params: seq<string>) returns (code: int)
      modifies this
      ensures state == old(state)
      ensures |params| == 0 ==> code == -2 && log == old(log)
      ensures |params| > 0 ==> code == 0
      ensures |params| > 0 ==>
        var flags := if recursive then 1 else FlagsUpTo(params, |params|, ignoreCase);
        var begin := if recursive then "" else BeginSlideUpTo(params, |params|, ignoreCase);
        log == old(log) + Call("OnMessage", [Int(WINDOW_SLIDESHOW), Str("GUI_MSG_START_SLIDESHOW"),
                                             Int(flags as int), Strs([params[0], begin])])
    {
      if |params| == 0 {
        return -2;
      }
      var flags: bv8 := 0;
      var beginSlide := "";
      if recursive {
        flags := flags | 1;
      } else {
        flags, beginSlide := SlideShowOptions(params, ignoreCase);
      }
      log := log + Call("OnMessage", [Int(WINDOW_SLIDESHOW), Str("GUI_MSG_START_SLIDESHOW"),
                                      Int(flags as int), Strs([params[0], beginSlide])]);
      code := 0;
    }

    /** PlayerControl(command[, notify]). */
    method RunPlayerControl(params: seq<string>) returns (code: int)
      modifies this
      ensures |params| == 0 ==> code == -3 && state == old(state)
      ensures |params| == 0 ==> log == old(log) + Call("ResetScreenSaver", []) + Call("WakeUpScreenSaverAndDPMS", [])
      ensures |params| > 0 ==> code == 0 && state == PlayerControlState(old(state), params, ignoreCase)
      ensures |params| > 0 ==> log == old(log) + Call("ResetScreenSaver", []) + Call("WakeUpScreenSaverAndDPMS", [])
                                      + PlayerControlEvents(old(state), params, env, ignoreCase)
    {
      log := log + Call("ResetScreenSaver", []) + Call("WakeUpScreenSaverAndDPMS", []);
      if |params| == 0 {
        return -3;
      }
      SeekCommandLength(params[0], ignoreCase);
      var s, events := PlayerStep(state, PlayerCommandOf(params[0], ignoreCase), params);
      state := s;
      log := log + events;
      code := 0;
    }

    /** The effect of PlayerControl(params[0], ...), where params[0] selects `command`. */
    method PlayerStep(s: State, command: PlayerCommand, params: seq<string>) returns (t: State, events: seq<Event>)
      requires |params| > 0 && (command.SeekPercentage? ==> |params[0]| >= 14)
      ensures t == CommandState(s, command, params, ignoreCase)
      ensures events == CommandEvents(s, command, params, env, ignoreCase)
    {
      t, events := s, [];
      match command {
        case PlayPause =>
          if s.playing {
            if s.playSpeed != 1 {
              t := s.(playSpeed := 1);
            } else {
              t := s.(paused := !s.paused);
            }
          }
        case StopPlayback =>
          t := s.(playing := false);
        case Step(key) =>
          if s.playing && !s.paused {
            t := s.(playSpeed := NextSpeed(key, s.playSpeed));
          }
        case Record =>
          if s.playing && s.canRecord {
            t := s.(recording := !s.recording);
          }
        case PartyMode =>
          if s.partyMode {
            events := Call("PartyMode.Disable", []);
          } else {
            var (context, xsp) := PartyModeArgument(params[0]);
            events := Call("PartyMode.Enable", [Int(PartyContextIndex(context)), Str(xsp)]);
          }
          t := s.(partyMode := !s.partyMode);
        case Shuffle =>
          t, events := PlaylistModeStep(s, command, params);
        case Repeat =>
          t, events := PlaylistModeStep(s, command, params);
        case NoPlayerCommand =>
        case _ =>
          events := NavigationEvents(s, command, params);
      }
    }

    /** next, previous, the skips, seekpercentage(n) and showvideomenu: calls that leave the modelled state alone. */
    method NavigationEvents(s: State, command: PlayerCommand, params: seq<string>) returns (events: seq<Event>)
      requires |params| > 0 && (command.SeekPercentage? ==> |params[0]| >= 14)
      requires command.NextItem? || command.PreviousItem? || command.Skip? || command.SeekPercentage? || command.ShowVideoMenu?
      ensures CommandState(s, command, params, ignoreCase) == s
      ensures events == CommandEvents(s, command, params, env, ignoreCase)
    {
      events := [];
      match command {
        case NextItem =>
          events := Call("OnAction", [Str("ACTION_NEXT_ITEM")]);
        case PreviousItem =>
          events := Call("OnAction", [Str("ACTION_PREV_ITEM")]);
        case Skip(forward, big) =>
          if s.playing {
            events := Call("Seek", [Flag(forward), Flag(big)]);
          }
        case SeekPercentage =>
          var argument := SeekPercentageArgument(params[0]);
          if argument.SeekOffset? {
            var percent := env.atof(argument.text);
            if SeeksTo(percent, s.playing) {
              events := Call("SeekPercentage", [Num(percent)]);
            }
          }
        case ShowVideoMenu =>
          if s.playing {
            events := Call("OnAction", [Str("ACTION_SHOW_VIDEOMENU")]);
          }
      }
    }

    /** random, randomon, randomoff and the repeat commands: the current playlist's settings. */
    method PlaylistModeStep(s: State, command: PlayerCommand, params: seq<string>) returns (t: State, events: seq<Event>)
      requires |params| > 0 && (command.Shuffle? || command.Repeat?)
      ensures t == CommandState(s, command, params, ignoreCase)
      ensures events == CommandEvents(s, command, params, env, ignoreCase)
    {
      var playlist := s.currentPlaylist;
      var current := Settings(s, playlist);
      var notify := |params| == 2 && Equals(params[1], "notify", ignoreCase);
      t, events := s, [];
      if command.Shuffle? {
        match ShuffleTarget(params[0], current.shuffled, ignoreCase) {
          case None =>
          case Some(shuffled) =>
            t := WithSettings(s, playlist, current.(shuffled := shuffled));
            events := Call("SetShuffleNotify", [Int(PlaylistIndex(playlist)), Flag(notify)])
                      + SavedPlaylistSetting("Shuffled", playlist, shuffled)
                      + Call("SendThreadMessage", [Str("GUI_MSG_PLAYLISTPLAYER_RANDOM"), Int(PlaylistIndex(playlist)), Flag(shuffled)]);
        }
      } else {
        var target := RepeatTarget(params[0], current.repeat, ignoreCase);
        if target != current.repeat {
          t := WithSettings(s, playlist, current.(repeat := target));
          events := Call("SetRepeatNotify", [Int(PlaylistIndex(playlist)), Flag(notify)])
                    + SavedPlaylistSetting("Repeat", playlist, target == RepeatAll)
                    + Call("SendThreadMessage", [Str("GUI_MSG_PLAYLISTPLAYER_REPEAT"), Int(PlaylistIndex(playlist)), Int(RepeatIndex(target))]);
        }
      }
    }

    /** Mute: toggles muting. */
    method RunMute()
      modifies this
      ensures state == old(state).(muted := !old(state).muted) && log == old(log)
    {
      state := state.(muted := !state.muted);
    }

    /** SetVolume(level[, showVolumeBar]). */
    method RunSetVolume(params: seq<string>)
      modifies this
      ensures state == old(state).(volume := env.atof(First(params)))
      ensures var volume := env.atof(First(params));
              log == old(log) + (if old(state).volume != volume && |params| > 1 && Equals(params[1], "showVolumeBar", ignoreCase)
                                 then Call("ShowVolumeBar", [Flag(old(state).volume < volume)]) else [])
    {
      var oldVolume := state.volume;
      var volume := env.atof(First(params));
      state := state.(volume := volume);
      if oldVolume != volume {
        if |params| > 1 && Equals(params[1], "showVolumeBar", ignoreCase) {
          log := log + Call("ShowVolumeBar", [Flag(oldVolume < volume)]);
        }
      }
    }

    /**
     * Playlist.PlayOffset([music | video, ]offset): an unknown playlist is
     * refused; the other playlist is switched to after stopping playback,
     * and the offset is played with PlayNext while playing, else with Play.
     */
    method RunPlayOffset(params: seq<string>)
      modifies this
      ensures var r := OffsetRequestOf(params, ignoreCase);
              r.UnknownPlaylist? ==> state == old(state) && log == old(log)
      ensures var r := OffsetRequestOf(params, ignoreCase);
              r.PlayAt? && r.playlist.Some? && r.playlist.value != old(state).currentPlaylist ==>
                && state == old(state).(playing := false, currentPlaylist := r.playlist.value)
                && log == old(log) + Call("PlaylistReset", []) + Call("PlaylistPlay", [Int(r.position)])
      ensures var r := OffsetRequestOf(params, ignoreCase);
              r.PlayAt? && (r.playlist.None? || r.playlist.value == old(state).currentPlaylist) ==>
                && state == old(state)
                && log == old(log) + Call(if old(state).playing then "PlayNext" else "PlaylistPlay", [Int(r.position)])
    {
      var request := OffsetRequestOf(params, ignoreCase);
      if request.UnknownPlaylist? {
        return;
      }
      if request.playlist.Some? && request.playlist.value != state.currentPlaylist {
        state := state.(playing := false);
        log := log + Call("PlaylistReset", []);
        state := state.(currentPlaylist := request.playlist.value);
      }
      if state.playing {
        log := log + Call("PlayNext", [Int(request.position)]);
      } else {
        log := log + Call("PlaylistPlay", [Int(request.position)]);
      }
    }

    /** AlarmClock(name, command[, time[, silent | loop ...]]). */
    method RunAlarmClock(params: seq<string>, prompts: Prompts)
      requires |params| >= 2
      modifies this
      ensures state == AlarmClockState(old(state), params, env, prompts) && log == old(log)
    {
      var seconds: int;
      if |params| > 2 {
        if ':' !in params[2] {
          seconds := Atoi(params[2]) * 60;
        } else {
          seconds := env.timeStringToSeconds(params[2]);
        }
      } else {
        match prompts.alarmMinutes {
          case Some(minutes) => seconds := Atoi(minutes) * 60;
          case None => return;
        }
      }
      assert AlarmSeconds(params, env, prompts) == Some(seconds);
      var silent, loop := AlarmOptions(params);
      assert silent == AlarmSilent(params) && loop == AlarmLoops(params);
      var alarms := state.alarms;
      if |alarms| > 0 {
        alarms := alarms - {params[0]};
      } else {
        assert alarms - {params[0]} == alarms;
      }
      if AlarmAccepted(seconds, loop) {
        alarms := alarms[params[0] := Alarm(params[1], seconds, silent, loop)];
      }
      state := state.(alarms := alarms);
    }

    /** CancelAlarm(name[, silent]): the alarm is stopped. */
    method RunCancelAlarm(params: seq<string>)
      requires |params| > 0
      modifies this
      ensures state == old(state).(alarms := old(state).alarms - {params[0]}) && log == old(log)
    {
      state := state.(alarms := state.alarms - {params[0]});
    }

    // ------------------------------------------------ settings and windows

    method RunSettings(h: Handler, params: seq<string>, prompts: Prompts) returns (code: int)
      requires (WindowStateHandler(h) || SkinSettingHandler(h) || SkinChoiceHandler(h) || LibraryHandler(h))
      requires Callable(h, params)
      modifies this
      ensures code == BranchCode(h, params, old(state), env, prompts, ignoreCase)
      ensures old(log) <= log
    {
      if WindowStateHandler(h) {
        code := RunWindowState(h, params, prompts);
      } else if LibraryHandler(h) {
        code := RunLibrary(h, params, prompts);
      } else {
        code := RunSkin(h, params, prompts);
      }
    }

    method RunWindowState(h: Handler, params: seq<string>, prompts: Prompts) returns (code: int)
      requires WindowStateHandler(h) && Callable(h, params)
      modifies this
      ensures code == BranchCode(h, params, old(state), env, prompts, ignoreCase)
      ensures old(log) <= log
    {
      code := 0;
      if h.MasterMode? {
        MasterModeBranch(prompts);
      } else if h.ActivateWindow? {
        ActivateWindowBranch(h.replace, params);
      } else if h.ActivateWindowAndFocus? {
        ActivateWindowAndFocusBranch(h.replace, params);
      } else {
        code := SystemLogoffBranch();
      }
    }

    method RunSkin(h: Handler, params: seq<string>, prompts: Prompts) returns (code: int)
      requires (SkinSettingHandler(h) || SkinChoiceHandler(h)) && Callable(h, params)
      modifies this
      ensures code == BranchCode(h, params, old(state), env, prompts, ignoreCase) == 0
      ensures old(log) <= log
    {
      PlainHandlerCode(h, params, state, env, prompts, ignoreCase);
      code := 0;
      if h.SkinToggleSetting? {
        SkinToggleSettingBranch(params);
      } else if h.SkinSetBool? {
        SkinSetBoolBranch(params);
      } else if h.SkinReset? {
        SkinResetBranch(params);
      } else if h.SkinResetSettings? {
        SkinResetSettingsBranch();
      } else if h.SkinTheme? {
        SkinThemeBranch(params);
      } else if h.SkinSetValue? {
        SkinSetValueBranch(h.kind, params, prompts);
      } else {
        SkinSetAddonBranch(params, prompts);
      }
    }

    method RunLibrary(h: Handler, params: seq<string>, prompts: Prompts) returns (code: int)
      requires LibraryHandler(h) && Callable(h, params)
      modifies this
      ensures code == BranchCode(h, params, old(state), env, prompts, ignoreCase)
      ensures old(log) <= log
    {
      code := 0;
      if h.UpdateLibrary? {
        UpdateLibraryBranch(params);
      } else if h.ExportLibrary? {
        code := ExportLibraryBranch(params, prompts);
      } else if h.ToggleDebug? {
        ToggleDebugBranch();
      } else {
        code := SetStereoModeBranch(params);
      }
    }


    // ----------------------------------------------------------- branches

    /*
     * The dispatch methods above call each branch through one of these,
     * which keep of the branch's contract only what the dispatch needs:
     * the code and a log that only grows.
     */

    method PlayMediaBranch(params: seq<string>, prompts: Prompts) returns (code: int)
      modifies this
      ensures code == if |params| == 0 then -3 else 0
      ensures old(log) <= log
    {
      code := RunPlayMedia(params, prompts);
    }

    method ShowPictureBranch(params: seq<string>) returns (code: int)
      modifies this
      ensures code == if |params| == 0 then -2 else 0
      ensures old(log) <= log
    {
      code := RunShowPicture(params);
    }

    method SlideShowBranch(recursive: bool, params: seq<string>) returns (code: int)
      modifies this
      ensures code == if |params| == 0 then -2 else 0
      ensures old(log) <= log
    {
      code := RunSlideShow(recursive, params);
    }

    method PlayerControlBranch(params: seq<string>) returns (code: int)
      modifies this
      ensures code == if |params| == 0 then -3 else 0
      ensures old(log) <= log
    {
      code := RunPlayerControl(params);
    }

    method MuteBranch()
      modifies this
      ensures old(log) <= log
    {
      RunMute();
    }

    method SetVolumeBranch(params: seq<string>)
      modifies this
      ensures old(log) <= log
    {
      RunSetVolume(params);
    }

    method PlayOffsetBranch(params: seq<string>)
      modifies this
      ensures old(log) <= log
    {
      RunPlayOffset(params);
    }

    method AlarmClockBranch(params: seq<string>, prompts: Prompts)
      requires |params| >= 2
      modifies this
      ensures old(log) <= log
    {
      RunAlarmClock(params, prompts);
    }

    method CancelAlarmBranch(params: seq<string>)
      requires |params| > 0
      modifies this
      ensures old(log) <= log
    {
      RunCancelAlarm(params);
    }

    method MasterModeBranch(prompts: Prompts)
      modifies this
      ensures old(log) <= log
    {
      RunMasterMode(prompts);
    }

    method ActivateWindowBranch(replace: bool, params: seq<string>)
      modifies this
      ensures old(log) <= log
    {
      RunActivateWindow(replace, params);
    }

    method ActivateWindowAndFocusBranch(replace: bool, params: seq<string>)
      requires |params| > 0
      modifies this
      ensures old(log) <= log
    {
      RunActivateWindowAndFocus(replace, params);
    }

    method SystemLogoffBranch() returns (code: int)
      modifies this
      ensures code == if old(state).activeWindow == WINDOW_LOGIN_SCREEN then -1 else 0
      ensures old(log) <= log
    {
      code := RunSystemLogoff();
    }

    method SkinToggleSettingBranch(params: seq<string>)
      modifies this
      ensures old(log) <= log
    {
      RunSkinToggleSetting(params);
    }

    method SkinSetBoolBranch(params: seq<string>)
      requires |params| > 0
      modifies this
      ensures old(log) <= log
    {
      RunSkinSetBool(params);
    }

    method SkinResetBranch(params: seq<string>)
      modifies this
      ensures old(log) <= log
    {
      RunSkinReset(params);
    }

    method SkinResetSettingsBranch()
      modifies this
      ensures old(log) <= log
    {
      RunSkinResetSettings();
    }

    method SkinThemeBranch(params: seq<string>)
      modifies this
      ensures old(log) <= log
    {
      RunSkinTheme(params);
    }

    method SkinSetValueBranch(kind: SkinValueKind, params: seq<string>, prompts: Prompts)
      requires |params| > 0
      modifies this
      ensures old(log) <= log
    {
      RunSkinSetValue(kind, params, prompts);
    }

    method SkinSetAddonBranch(params: seq<string>, prompts: Prompts)
      requires |params| >= 2
      modifies this
      ensures old(log) <= log
    {
      RunSkinSetAddon(params, prompts);
    }

    method UpdateLibraryBranch(params: seq<string>)
      requires |params| > 0
      modifies this
      ensures old(log) <= log
    {
      RunUpdateLibrary(params);
    }

    method ToggleDebugBranch()
      modifies this
      ensures old(log) <= log
    {
      RunToggleDebug();
    }

    method SetStereoModeBranch(params: seq<string>) returns (code: int)
      requires |params| > 0
      modifies this
      ensures code == if env.stereoAction(params[0]).None? then -2 else 0
      ensures old(log) <= log
    {
      code := RunSetStereoMode(params);
    }

    method ExportLibraryBranch(params: seq<string>, prompts: Prompts) returns (code: int)
      requires |params| > 0
      modifies this
      ensures code == ExportCode(params, prompts, ignoreCase)
      ensures old(log) <= log
    {
      code := RunExportLibrary(params, prompts);
    }

    /** MasterMode: leaves master mode, or enters it when the master code is given. */
    method RunMasterMode(prompts: Prompts)
      modifies this
      ensures state == old(state).(masterUser := if old(state).masterUser then false else prompts.masterUnlocked)
      ensures log == old(log) + MasterModeEvents(old(state), prompts)
    {
      if state.masterUser {
        state := state.(masterUser := false);
        log := log + Call("LockSources", [Flag(true)]) + Warning(20052, 20053);
      } else if prompts.masterUnlocked {
        log := log + Call("LockSources", [Flag(false)]);
        state := state.(masterUser := true);
        log := log + Warning(20052, 20054);
      }
      log := log + Call("DeleteVideoDatabaseDirectoryCache", []);
      log := log + [Event("SendMessage", [Str("GUI_MSG_NOTIFY_ALL"), Int(0), Int(0), Str("GUI_MSG_UPDATE")])];
    }

    /**
     * ActivateWindow / ReplaceWindow(window[, parameters]): a window name
     * that does not translate changes nothing; otherwise the window is
     * activated with the remaining parameters and becomes the active and
     * focused window.
     */
    method RunActivateWindow(replace: bool, params: seq<string>)
      modifies this
      ensures var window := env.translateWindow(First(params));
              window == WINDOW_INVALID ==> state == old(state) && log == old(log)
      ensures var window := env.translateWindow(First(params));
              window != WINDOW_INVALID ==>
                && state == old(state).(activeWindow := window, focusedWindow := window)
                && log == old(log) + Call("WakeUpScreenSaverAndDPMS", [])
                                   + Call("ActivateWindow", [Int(window), Strs(if |params| > 0 then params[1..] else []), Flag(replace)])
    {
      var name := "";
      var rest := params;
      if |rest| > 0 {
        name := rest[0];
        rest := rest[1..];
      }
      var window := env.translateWindow(name);
      if window != WINDOW_INVALID {
        log := log + Call("WakeUpScreenSaverAndDPMS", []);
        log := log + Call("ActivateWindow", [Int(window), Strs(rest), Flag(replace)]);
        state := state.(activeWindow := window, focusedWindow := window);
      }
    }

    /**
     * ActivateWindowAndFocus / ReplaceWindowAndFocus(window, control, item, ...):
     * the window is activated without parameters, then each (control, item)
     * pair is focused in it.
     */
    method RunActivateWindowAndFocus(replace: bool, params: seq<string>)
      requires |params| > 0
      modifies this
      ensures var window := env.translateWindow(params[0]);
              window == WINDOW_INVALID ==> state == old(state) && log == old(log)
      ensures var window := env.translateWindow(params[0]);
              window != WINDOW_INVALID ==>
                && state == old(state).(activeWindow := window, focusedWindow := window)
                && log == old(log) + Call("WakeUpScreenSaverAndDPMS", [])
                                   + Call("ActivateWindow", [Int(window), Strs([]), Flag(replace)])
                                   + FocusMessages(params, window)
    {
      var window := env.translateWindow(params[0]);
      if window != WINDOW_INVALID {
        log := log + Call("WakeUpScreenSaverAndDPMS", []);
        log := log + Call("ActivateWindow", [Int(window), Strs([]), Flag(replace)]);
        state := state.(activeWindow := window, focusedWindow := window);
        var requests := FocusRequests(params);
        var focused := state.focusedWindow;
        var messages := seq(|requests|, k requires 0 <= k < |requests| =>
          Message("GUI_MSG_SETFOCUS", focused, requests[k].0, requests[k].1, 0));
        assert messages == FocusMessages(params, window);
        log := log + messages;
      }
    }

    /** Skin.ToggleSetting(setting). */
    method RunSkinToggleSetting(params: seq<string>)
      modifies this
      ensures var setting := env.translateBool(First(params));
              state == old(state).(skinBools := old(state).skinBools[setting := !SkinBool(old(state), setting)])
      ensures log == old(log) + Call("SaveSettings", [])
    {
      var setting := env.translateBool(First(params));
      state := state.(skinBools := state.skinBools[setting := !SkinBool(state, setting)]);
      log := log + Call("SaveSettings", []);
    }

    /** Skin.SetBool(setting[, value]): true unless the value is given and is not "true". */
    method RunSkinSetBool(params: seq<string>)
      requires |params| > 0
      modifies this
      ensures var setting := env.translateBool(params[0]);
              state == old(state).(skinBools := old(state).skinBools[setting := |params| <= 1 || EqualsNoCase(params[1], "true")])
      ensures log == old(log) + Call("SaveSettings", [])
    {
      if |params| > 1 {
        var setting := env.translateBool(params[0]);
        state := state.(skinBools := state.skinBools[setting := EqualsNoCase(params[1], "true")]);
        log := log + Call("SaveSettings", []);
        return;
      }
      var setting := env.translateBool(params[0]);
      state := state.(skinBools := state.skinBools[setting := true]);
      log := log + Call("SaveSettings", []);
    }

    /** Skin.Reset(setting): the boolean and the string setting of that name read as unset again. */
    method RunSkinReset(params: seq<string>)
      modifies this
      ensures state == old(state).(skinBools := old(state).skinBools - {env.translateBool(First(params))},
                                   skinStrings := old(state).skinStrings - {env.translateString(First(params))})
      ensures log == old(log) + Call("SaveSettings", [])
    {
      var parameter := First(params);
      state := state.(skinBools := state.skinBools - {env.translateBool(parameter)},
                      skinStrings := state.skinStrings - {env.translateString(parameter)});
      log := log + Call("SaveSettings", []);
    }

    /** Skin.ResetSettings: every skin setting reads as unset. */
    method RunSkinResetSettings()
      modifies this
      ensures state == old(state).(skinBools := map[], skinStrings := map[])
      ensures log == old(log) + Call("SaveSettings", [])
    {
      state := state.(skinBools := map[], skinStrings := map[]);
      log := log + Call("SaveSettings", []);
    }

    /** Skin.Theme(step): moves to the next or previous theme and reloads the skin. */
    method RunSkinTheme(params: seq<string>)
      modifies this
      ensures state == SkinThemeState(old(state), First(params), env, ignoreCase)
      ensures log == old(log) + Call("ReloadSkin", [Flag(false)])
    {
      var themes := env.skinThemes;
      var index := CurrentThemeIndex(state.skinTheme, env.removeExtension(state.skinTheme), themes, ignoreCase);
      index := NextThemeIndex(index, |themes|, Atoi(First(params)));
      var theme := ThemeName(themes, index);
      assert theme == NextTheme(state, First(params), env, ignoreCase);
      state := state.(skinTheme := theme, skinColors := ColorTheme(env.withXmlExtension(theme), ignoreCase));
      log := log + Call("ReloadSkin", [Flag(false)]);
    }

    /** Skin.SetString / SetImage / SetFile / SetPath / SetNumeric / SetLargeImage(setting[, ...]). */
    method RunSkinSetValue(kind: SkinValueKind, params: seq<string>, prompts: Prompts)
      requires |params| > 0
      modifies this
      ensures var setting := env.translateString(params[0]);
              state == match SkinValueOf(kind, params, env, prompts, ignoreCase)
                       case Some(value) => old(state).(skinStrings := old(state).skinStrings[setting := value])
                       case None => old(state)
      ensures log == old(log) + Call("SaveSettings", [])
    {
      var setting := env.translateString(params[0]);
      if |params| > 1 && kind == StringValue {
        state := state.(skinStrings := state.skinStrings[setting := params[1]]);
        log := log + Call("SaveSettings", []);
        return;
      }
      var value := prompts.value;
      if kind == FileValue {
        var mask := Lower(if |params| > 1 then params[1] else "");
        if env.addonType(mask) != UnknownAddonType {
          match prompts.value {
            case Some(chosen) =>
              value := Some(if StartsWithNoCase(chosen, "addons://") then env.fileName(chosen) else chosen);
            case None =>
          }
        }
      }
      if value.Some? {
        state := state.(skinStrings := state.skinStrings[setting := value.value]);
      }
      log := log + Call("SaveSettings", []);
    }

    /** Skin.SetAddon(setting, type[, type ...]): the add-on the user picks among those of the named kinds. */
    method RunSkinSetAddon(params: seq<string>, prompts: Prompts)
      requires |params| >= 2
      modifies this
      ensures var setting := env.translateString(params[0]);
              if |KnownTypes(params[1..], env)| > 0 && prompts.addonChoice.Some? then
                && state == old(state).(skinStrings := old(state).skinStrings[setting := prompts.addonChoice.value])
                && log == old(log) + Call("SaveSettings", [])
              else state == old(state) && log == old(log)
    {
      var setting := env.translateString(params[0]);
      var types: seq<AddonType> := [];
      var i := 1;
      while i < |params|
        invariant 1 <= i <= |params|
        invariant types == KnownTypes(params[1..i], env)
      {
        assert params[1..i + 1][..i - 1] == params[1..i];
        var kind := env.addonType(params[i]);
        if kind != UnknownAddonType {
          types := types + [kind];
        }
        i := i + 1;
      }
      assert params[1..i] == params[1..];
      if |types| > 0 && prompts.addonChoice.Some? {
        state := state.(skinStrings := state.skinStrings[setting := prompts.addonChoice.value]);
        log := log + Call("SaveSettings", []);
      }
    }

    /** System.LogOff: refused at the login screen; otherwise everything stops and the login screen opens. */
    method RunSystemLogoff() returns (code: int)
      modifies this
      ensures old(state).activeWindow == WINDOW_LOGIN_SCREEN ==> code == -1 && state == old(state) && log == old(log)
      ensures old(state).activeWindow != WINDOW_LOGIN_SCREEN ==>
        code == 0 && state == LogoffState(old(state)) && log == old(log) + LogoffEvents(old(state), env)
    {
      if state.activeWindow == WINDOW_LOGIN_SCREEN {
        return -1;
      }
      var s := state.(playing := false);
      var events := Call("StopPlaying", []);
      if s.musicScanning {
        s := s.(musicScanning := false);
        events := events + Call("StopMusicScan", []);
      }
      if s.videoScanning {
        s := s.(videoScanning := false);
        events := events + Call("StopVideoScan", []);
      }
      assert events == LogoffStops(old(state));
      events := events + Call("StopServices", [Flag(true)]) + Call("NetworkMessage", [Str("SERVICES_DOWN"), Int(1)]);
      events := events + Call("LoadMasterProfileForLogin", []);
      s := s.(masterUser := false);
      s := s.(activeWindow := WINDOW_LOGIN_SCREEN, focusedWindow := WINDOW_LOGIN_SCREEN);
      events := events + Call("ActivateWindow", [Int(WINDOW_LOGIN_SCREEN), Strs([]), Flag(false)]);
      if !env.eventServerStarts {
        events := events + Warning(33102, 33100);
      }
      state := s;
      log := log + events;
      code := 0;
    }

    /** UpdateLibrary(music | video[, path]): starts the scan, or stops the one running. */
    method RunUpdateLibrary(params: seq<string>)
      requires |params| > 0
      modifies this
      ensures var music := Equals(params[0], "music", ignoreCase);
              var video := Equals(params[0], "video", ignoreCase);
              state == old(state).(musicScanning := old(state).musicScanning != music,
                                   videoScanning := old(state).videoScanning != video)
      ensures var music := Equals(params[0], "music", ignoreCase);
              var video := Equals(params[0], "video", ignoreCase);
              var path := if |params| > 1 then params[1] else "";
              log == old(log)
                     + (if !music then [] else if old(state).musicScanning then Call("StopMusicScan", [])
                        else Call("StartMusicScan", [Str(path)]))
                     + (if !video then [] else if old(state).videoScanning then Call("StopVideoScan", [])
                        else Call("StartVideoScan", [Str(path)]))
    {
      var path := if |params| > 1 then params[1] else "";
      var music := Equals(params[0], "music", ignoreCase);
      var video := Equals(params[0], "video", ignoreCase);
      var musicScanning, videoScanning := state.musicScanning, state.videoScanning;
      var musicCalls, videoCalls := [], [];
      if music {
        if musicScanning {
          musicScanning := false;
          musicCalls := Call("StopMusicScan", []);
        } else {
          musicScanning := true;
          musicCalls := Call("StartMusicScan", [Str(path)]);
        }
      }
      if video {
        if videoScanning {
          videoScanning := false;
          videoCalls := Call("StopVideoScan", []);
        } else {
          videoScanning := true;
          videoCalls := Call("StartVideoScan", [Str(path)]);
        }
      }
      state := state.(musicScanning := musicScanning, videoScanning := videoScanning);
      log := log + musicCalls + videoCalls;
    }

    /** ExportLibrary(music | video[, singlefile, thumbs, overwrite, actorthumbs | , false, path]). */
    method RunExportLibrary(params: seq<string>, prompts: Prompts) returns (code: int)
      requires |params| > 0
      modifies this
      ensures state == old(state)
      ensures code == (if ExportChoiceOf(params, prompts, ignoreCase).ExportCancelled? then -1 else 0)
      ensures log == old(log) + ExportEvents(params, prompts, env, ignoreCase)
    {
      if ExportChoiceOf(params, prompts, ignoreCase).ExportCancelled? {
        return -1;
      }
      log := log + ExportEvents(params, prompts, env, ignoreCase);
      code := 0;
    }

    /** ToggleDebug: flips the debug-log setting and the debug mode with it. */
    method RunToggleDebug()
      modifies this
      ensures state == old(state).(showLogInfo := !old(state).showLogInfo)
      ensures log == old(log) + Call("SetDebugMode", [Flag(!old(state).showLogInfo)])
    {
      var debug := state.showLogInfo;
      state := state.(showLogInfo := !debug);
      log := log + Call("SetDebugMode", [Flag(!debug)]);
    }

    /** SetStereoMode(mode): the stereoscopic mode's action is sent, or -2 for an unknown mode. */
    method RunSetStereoMode(params: seq<string>) returns (code: int)
      requires |params| > 0
      modifies this
      ensures state == old(state)
      ensures env.stereoAction(params[0]).None? ==> code == -2 && log == old(log)
      ensures env.stereoAction(params[0]).Some? ==>
        code == 0 && log == old(log) + Call("SendAction", [Int(env.stereoAction(params[0]).value)])
    {
      match env.stereoAction(params[0]) {
        case Some(action) =>
          log := log + Call("SendAction", [Int(action)]);
          code := 0;
        case None =>
          code := -2;
      }
    }
  }
}
