/**
 * The branches of CBuiltins::Execute that only call collaborators: their
 * calls, in order, as a function of the parameters, the collaborator state
 * they read, the helpers of Env and the user's answers. None of them changes
 * the modelled State and all of them return 0.
 */
module Handlers {
  import opened Wrappers
  import opened Text
  import opened Dispatch
  import opened Collaborators

  /** `parameter` of Execute: the first parameter, or empty. */
  function First(params: seq<string>): string {
    if |params| > 0 then params[0] else ""
  }

  /** A single collaborator call. */
  function Call(operation: string, args: seq<Arg>): seq<Event> {
    [Event(operation, args)]
  }

  /** CGUIWindowManager::SendMessage of a GUI message (message, sender, control, param1, param2). */
  function Message(message: string, sender: int, control: int, param1: int, param2: int): Event {
    Event("SendMessage", [Str(message), Int(sender), Int(control), Int(param1), Int(param2)])
  }

  /** The GUI_MSG_UPDATE notification of Container.Refresh and Container.Update, with the path to show. */
  function UpdateMessage(window: int, resetHistory: int, path: string): Event {
    Event("SendMessage", [Str("GUI_MSG_NOTIFY_ALL"), Int(window), Int(0), Str("GUI_MSG_UPDATE"), Int(resetHistory), Str(path)])
  }

  /** A GUI message sent to one window. */
  function MessageTo(window: int, message: string, param1: int): Event {
    Event("SendMessageToWindow", [Int(window), Str(message), Int(param1)])
  }

  /** The handlers covered by this module. */
  predicate IsSimple(h: Handler) {
    SystemHandler(h) || AddonHandler(h) || WindowHandler(h) || MediaHandler(h)
  }

  predicate SystemHandler(h: Handler) {
    h.Reboot? || h.Shutdown? || h.Powerdown? || h.RestartApp? || h.Hibernate? || h.Suspend? || h.Quit?
    || h.InhibitIdleShutdown? || h.ActivateScreensaver? || h.Minimize? || h.LoadProfile? || h.SetGuiLanguage?
    || h.TakeScreenshot? || h.SystemExec? || h.SetResolution? || h.ToggleDpms? || h.CecToggleState?
    || h.CecActivateSource? || h.CecStandby? || h.StartPvrManager? || h.StopPvrManager?
    || h.StartAndroidActivity? || h.WakeOnLan?
  }

  predicate AddonHandler(h: Handler) {
    h.RunScript? || h.StopScript? || h.Extract? || h.RunPlugin? || h.NotifyAll? || h.AddonDefaultOpenSettings?
    || h.AddonDefaultSet? || h.AddonOpenSettings? || h.UpdateAddonRepos? || h.UpdateLocalAddons?
  }

  predicate WindowHandler(h: Handler) {
    h.SetFocus? || h.DialogClose? || h.PageDown? || h.PageUp? || h.ControlMove? || h.ContainerRefresh?
    || h.ContainerUpdate? || h.ContainerNextViewMode? || h.ContainerPreviousViewMode? || h.ContainerSetViewMode?
    || h.ContainerNextSortMethod? || h.ContainerPreviousSortMethod? || h.ContainerSetSortMethod?
    || h.ContainerSortDirection? || h.ControlMessage? || h.SendClick? || h.Action? || h.SetProperty?
    || h.ClearProperty? || h.WeatherLocationSet? || h.WeatherLocationNext? || h.WeatherLocationPrevious?
    || h.WeatherRefresh? || h.VideoLibrarySearch?
  }

  predicate MediaHandler(h: Handler) {
    h.ReloadSkin? || h.UnloadSkin? || h.RefreshRss? || h.PlayWith? || h.PlaylistClear? || h.EjectTray?
    || h.PlayDvd? || h.RipCd? || h.CleanLibrary?
  }

  /** What the caller of a branch must supply: the guard of its branch, and params[0] where the branch reads it unguarded. */
  predicate Callable(h: Handler, params: seq<string>) {
    GuardHolds(h, params) && (ReadsFirstParameter(h) ==> |params| > 0)
  }

  // ------------------------------------------------------------ Resolution

  /** The Resolution built-in's mode names; PAL 4:3 for anything else. */
  function ResolutionOf(parameter: string, ignoreCase: bool): Resolution {
    if Equals(parameter, "pal", ignoreCase) then Pal4x3
    else if Equals(parameter, "pal16x9", ignoreCase) then Pal16x9
    else if Equals(parameter, "ntsc", ignoreCase) then Ntsc4x3
    else if Equals(parameter, "ntsc16x9", ignoreCase) then Ntsc16x9
    else if Equals(parameter, "720p", ignoreCase) then Hdtv720p
    else if Equals(parameter, "720pSBS", ignoreCase) then Hdtv720pSbs
    else if Equals(parameter, "720pTB", ignoreCase) then Hdtv720pTb
    else if Equals(parameter, "1080pSBS", ignoreCase) then Hdtv1080pSbs
    else if Equals(parameter, "1080pTB", ignoreCase) then Hdtv1080pTb
    else if Equals(parameter, "1080i", ignoreCase) then Hdtv1080i
    else Pal4x3
  }

  /** Every mode name selects its own mode, so none of them is shadowed by an earlier test. */
  lemma ResolutionNamesSelectTheirMode(ignoreCase: bool)
    ensures ResolutionOf("pal16x9", ignoreCase) == Pal16x9 && ResolutionOf("ntsc", ignoreCase) == Ntsc4x3
    ensures ResolutionOf("ntsc16x9", ignoreCase) == Ntsc16x9 && ResolutionOf("720p", ignoreCase) == Hdtv720p
    ensures ResolutionOf("720pSBS", ignoreCase) == Hdtv720pSbs && ResolutionOf("720pTB", ignoreCase) == Hdtv720pTb
    ensures ResolutionOf("1080pSBS", ignoreCase) == Hdtv1080pSbs && ResolutionOf("1080pTB", ignoreCase) == Hdtv1080pTb
    ensures ResolutionOf("1080i", ignoreCase) == Hdtv1080i && ResolutionOf("pal", ignoreCase) == Pal4x3
  {
    DifferAt("720p", "ntsc", 0, ignoreCase);
    DifferAt("720pSBS", "pal16x9", 0, ignoreCase);
    DifferAt("1080pSBS", "ntsc16x9", 0, ignoreCase);
    DifferAt("1080pTB", "pal16x9", 0, ignoreCase);
    DifferAt("1080pTB", "720pSBS", 0, ignoreCase);
  }

  // ------------------------------------------------------------- RunScript

  /** The last component of a path split at `sep` (StringUtils::SplitString, last part). */
  function AfterLast(s: string, sep: char): (r: string)
    ensures |r| <= |s| && r == s[|s| - |r|..]
    ensures sep !in r
    ensures |r| < |s| ==> s[|s| - |r| - 1] == sep
  {
    if |s| == 0 then ""
    else if s[|s| - 1] == sep then ""
    else AfterLast(s[..|s| - 1], sep) + [s[|s| - 1]]
  }

  /** The script path of RunScript and StopScript: the add-on's library path when params[0] names an add-on. */
  function ScriptPath(env: Env, id: string): string {
    match env.addonLibPath(id)
    case Some(path) => path
    case None => id
  }

  /** RunScript's argument vector: the parameters, the first reduced to its last `\` component. */
  function ScriptArguments(params: seq<string>): (argv: seq<string>)
    requires |params| > 0
    ensures |argv| == |params| && argv[1..] == params[1..]
    ensures argv[0] == AfterLast(params[0], '\\')
  {
    [AfterLast(params[0], '\\')] + params[1..]
  }

  // -------------------------------------------------------- TakeScreenshot

  function ScreenshotEvents(params: seq<string>, env: Env, ignoreCase: bool): seq<Event> {
    if |params| > 0 then
      var path := params[0];
      var sync := |params| >= 2 && Equals(params[1], "sync", ignoreCase);
      if path == "" then []
      else if env.directoryExists(path) then
        var file := env.nextScreenshotFile(path);
        if file != "" then Call("TakeScreenshot", [Str(file), Flag(sync)]) else []
      else Call("TakeScreenshot", [Str(path), Flag(sync)])
    else Call("TakeScreenshot", [])
  }

  // ----------------------------------------------------------- the branches

  /** Power, application, profile, display, CEC, PVR and Android branches. */
  function SystemEvents(h: Handler, params: seq<string>, env: Env, prompts: Prompts, ignoreCase: bool): seq<Event>
    requires Callable(h, params)
  {
    var parameter := First(params);
    match h
    case Reboot => Call("Restart", [])
    case Shutdown => Call("Shutdown", [])
    case Powerdown => Call("Powerdown", [])
    case RestartApp => Call("RestartApp", [])
    case Hibernate => Call("Hibernate", [])
    case Suspend => Call("Suspend", [])
    case Quit => Call("Quit", [])
    case InhibitIdleShutdown =>
      Call("InhibitIdleShutdown", [Flag(|params| == 1 && Equals(params[0], "true", ignoreCase))])
    case ActivateScreensaver => Call("ActivateScreensaver", [])
    case Minimize => Call("Minimize", [])
    case LoadProfile =>
      var index := env.profileIndex(parameter);
      if index >= 0 && (env.everyoneMayLoadProfiles || prompts.profileUnlocked)
      then Call("LoadProfile", [Int(index)]) else []
    case SetGuiLanguage => if |params| > 0 then Call("SetGUILanguage", [Str(params[0])]) else []
    case TakeScreenshot => ScreenshotEvents(params, env, ignoreCase)
    case SystemExec(wait) => Call("Minimize", []) + Call("ExecOS", [Str(parameter), Flag(wait)])
    case SetResolution =>
      var mode := ResolutionOf(parameter, ignoreCase);
      if env.validResolution(mode) then Call("SetCurrentResolution", [Int(ResolutionIndex(mode)), Flag(true)]) + Call("ReloadSkin", [Flag(false)])
      else []
    case ToggleDpms => Call("ToggleDPMS", [Flag(true)])
    case CecToggleState => Call("CECToggleState", [])
    case CecActivateSource => Call("CECActivateSource", [])
    case CecStandby => Call("CECStandby", [])
    case StartPvrManager => Call("StartPVRManager", [])
    case StopPvrManager => Call("StopPVRManager", [])
    case StartAndroidActivity => Call("StartAndroidActivity", [Strs(params)])
    case WakeOnLan => Call("WakeOnLan", [Str(params[0])])
    case _ => []
  }

  /** The position of a mode in the Resolution datatype, the number logged for it. */
  function ResolutionIndex(mode: Resolution): nat {
    match mode
    case Pal4x3 => 0
    case Pal16x9 => 1
    case Ntsc4x3 => 2
    case Ntsc16x9 => 3
    case Hdtv720p => 4
    case Hdtv720pSbs => 5
    case Hdtv720pTb => 6
    case Hdtv1080pSbs => 7
    case Hdtv1080pTb => 8
    case Hdtv1080i => 9
  }

  /** Script, plugin, archive, announcement and add-on branches. */
  function AddonEvents(h: Handler, params: seq<string>, env: Env, prompts: Prompts, ignoreCase: bool): seq<Event>
    requires Callable(h, params)
  {
    match h
    case RunScript =>
      Call("ScriptInvocation.Execute", [Str(ScriptPath(env, params[0])), Strs(ScriptArguments(params))])
    case StopScript => Call("ScriptInvocation.Stop", [Str(ScriptPath(env, params[0]))])
    case Extract =>
      // The copy job is given the list `items`, to which the branch adds nothing.
      var destination := env.addSlashAtEnd(if |params| < 2 then env.directoryOf(params[0]) else params[1]);
      Call("FileOperationJob.Copy", [Strs([]), Str(destination)])
    case RunPlugin =>
      if |params| > 0 && !env.isFolder(params[0])
      then Call("PluginDirectory.RunScriptWithParams", [Str(params[0])]) else []
    case NotifyAll =>
      if |params| > 1 then
        var data := if |params| > 2 then env.parseJson(params[2]) else "";
        Call("Announce", [Str(params[0]), Str(params[1]), Str(data)])
      else []
    case AddonDefaultOpenSettings =>
      var kind := env.addonType(params[0]);
      if env.hasDefaultAddon(kind) then
        Call("AddonSettings.ShowDefault", [Str(params[0])])
        + (if kind == VisualisationAddon then [Message("GUI_MSG_VISUALISATION_RELOAD", 0, 0, 0, 0)] else [])
      else []
    case AddonDefaultSet =>
      var kind := env.addonType(params[0]);
      if kind != UnknownAddonType && prompts.addonChoice.Some? then
        Call("AddonMgr.SetDefault", [Str(params[0]), Str(prompts.addonChoice.value)])
        + (if kind == VisualisationAddon then [Message("GUI_MSG_VISUALISATION_RELOAD", 0, 0, 0, 0)] else [])
      else []
    case AddonOpenSettings =>
      if env.addonExists(params[0]) then Call("AddonSettings.Show", [Str(params[0])]) else []
    case UpdateAddonRepos => Call("AddonInstaller.UpdateRepos", [Flag(true)])
    case UpdateLocalAddons => Call("AddonMgr.FindAddons", [])
    case _ => []
  }

  /** Focus, dialog, paging, container, control, property, weather and search branches. */
  function WindowEvents(h: Handler, params: seq<string>, s: State, env: Env, ignoreCase: bool): seq<Event>
    requires Callable(h, params)
  {
    var parameter := First(params);
    var n := |params|;
    match h
    case SetFocus =>
      var item := if n > 1 then Atoi(params[1]) + 1 else 0;
      [Message("GUI_MSG_SETFOCUS", s.focusedWindow, Atoi(params[0]), item, 0)]
    case DialogClose =>
      var force := n > 1 && EqualsNoCase(params[1], "true");
      if EqualsNoCase(params[0], "all") then Call("CloseDialogs", [Flag(force)])
      else
        var id := env.translateWindow(params[0]);
        if env.isDialog(id) then Call("CloseDialog", [Int(id), Flag(force)]) else []
    case PageDown => [Message("GUI_MSG_PAGE_DOWN", s.focusedWindow, Atoi(parameter), 0, 0)]
    case PageUp => [Message("GUI_MSG_PAGE_UP", s.focusedWindow, Atoi(parameter), 0, 0)]
    case ControlMove => [Message("GUI_MSG_MOVE_OFFSET", s.focusedWindow, Atoi(params[0]), Atoi(params[1]), 0)]
    case ContainerRefresh => [UpdateMessage(s.activeWindow, 1, parameter)]
    case ContainerUpdate =>
      var replace := if n > 1 && EqualsNoCase(params[1], "replace") then 1 else 0;
      [UpdateMessage(s.activeWindow, replace, params[0])]
    case ContainerNextViewMode => [Message("GUI_MSG_CHANGE_VIEW_MODE", s.activeWindow, 0, 0, 1)]
    case ContainerPreviousViewMode => [Message("GUI_MSG_CHANGE_VIEW_MODE", s.activeWindow, 0, 0, -1)]
    case ContainerSetViewMode => [Message("GUI_MSG_CHANGE_VIEW_MODE", s.activeWindow, 0, Atoi(parameter), 0)]
    case ContainerNextSortMethod => [Message("GUI_MSG_CHANGE_SORT_METHOD", s.activeWindow, 0, 0, 1)]
    case ContainerPreviousSortMethod => [Message("GUI_MSG_CHANGE_SORT_METHOD", s.activeWindow, 0, 0, -1)]
    case ContainerSetSortMethod => [Message("GUI_MSG_CHANGE_SORT_METHOD", s.activeWindow, 0, Atoi(parameter), 0)]
    case ContainerSortDirection => [Message("GUI_MSG_CHANGE_SORT_DIRECTION", s.activeWindow, 0, 0, 0)]
    case ControlMessage =>
      var control := Atoi(params[0]);
      var window := if n == 3 then env.translateWindow(params[2]) else s.activeWindow;
      if params[1] == "moveup" then [Message("GUI_MSG_MOVE_OFFSET", window, control, 1, 0)]
      else if params[1] == "movedown" then [Message("GUI_MSG_MOVE_OFFSET", window, control, -1, 0)]
      else if params[1] == "pageup" then [Message("GUI_MSG_PAGE_UP", window, control, 0, 0)]
      else if params[1] == "pagedown" then [Message("GUI_MSG_PAGE_DOWN", window, control, 0, 0)]
      else if params[1] == "click" then [Message("GUI_MSG_CLICKED", control, window, 0, 0)]
      else []
    case SendClick =>
      if n == 2 then [Message("GUI_MSG_CLICKED", Atoi(params[1]), env.translateWindow(params[0]), 0, 0)]
      else [Message("GUI_MSG_CLICKED", Atoi(params[0]), s.activeWindow, 0, 0)]
    case Action =>
      var action := env.translateAction(params[0]);
      if action.Some? then
        var window := if n == 2 then env.translateWindow(params[1]) else WINDOW_INVALID;
        Call("SendAction", [Int(action.value), Int(window)])
      else []
    case SetProperty =>
      var window := if n > 2 then env.translateWindow(params[2]) else s.focusedWindow;
      if env.windowExists(window) then Call("SetProperty", [Int(window), Str(params[0]), Str(params[1])]) else []
    case ClearProperty =>
      var window := if n > 1 then env.translateWindow(params[1]) else s.focusedWindow;
      if env.windowExists(window) then Call("SetProperty", [Int(window), Str(params[0]), Str("")]) else []
    case WeatherLocationSet => [MessageTo(WINDOW_WEATHER, "GUI_MSG_ITEM_SELECT", Atoi(params[0]))]
    case WeatherLocationNext => [MessageTo(WINDOW_WEATHER, "GUI_MSG_MOVE_OFFSET", 1)]
    case WeatherLocationPrevious => [MessageTo(WINDOW_WEATHER, "GUI_MSG_MOVE_OFFSET", -1)]
    case WeatherRefresh => [MessageTo(WINDOW_WEATHER, "GUI_MSG_MOVE_OFFSET", 0)]
    case VideoLibrarySearch => [MessageTo(WINDOW_VIDEO_NAV, "GUI_MSG_SEARCH", 0)]
    case _ => []
  }

  /** Skin reload, RSS, player choice, playlist, disc and library-cleaning branches. */
  function MediaEvents(h: Handler, params: seq<string>, s: State, env: Env, ignoreCase: bool): seq<Event>
    requires Callable(h, params)
  {
    var parameter := First(params);
    match h
    case ReloadSkin => Call("ReloadSkin", [Flag(|params| > 0 && EqualsNoCase(params[0], "confirm"))])
    case UnloadSkin => Call("UnloadSkin", [Flag(true)])
    case RefreshRss => Call("RssManager.Reload", [])
    case PlayWith => Call("SetForcedNextPlayer", [Int(env.playerCore(parameter))]) + Call("OnAction", [Str("ACTION_PLAYER_PLAY")])
    case PlaylistClear => Call("PlaylistPlayer.Clear", [])
    case EjectTray => Call("ToggleTray", [])
    case PlayDvd =>
      Call("PlayDisc", [Str(env.discPath), Flag(true), Flag(|params| > 0 && EqualsNoCase(params[0], "restart"))])
    case RipCd => Call("RipCD", [])
    case CleanLibrary =>
      if |params| == 0 || Equals(params[0], "video", ignoreCase) then
        if !s.videoScanning then Call("StartVideoCleanup", []) else []
      else if Equals(params[0], "music", ignoreCase) then
        if !s.musicScanning then Call("MusicDatabase.Cleanup", []) else []
      else []
    case _ => []
  }

  /** The calls of any branch covered by this module. */
  function SimpleEvents(h: Handler, params: seq<string>, s: State, env: Env, prompts: Prompts, ignoreCase: bool): seq<Event>
    requires Callable(h, params)
  {
    if SystemHandler(h) then SystemEvents(h, params, env, prompts, ignoreCase)
    else if AddonHandler(h) then AddonEvents(h, params, env, prompts, ignoreCase)
    else if WindowHandler(h) then WindowEvents(h, params, s, env, ignoreCase)
    else MediaEvents(h, params, s, env, ignoreCase)
  }
}
