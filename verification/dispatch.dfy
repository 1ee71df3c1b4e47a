/**
 * The branch selection of CBuiltins::Execute: the lower-cased built-in name
 * and its parameters select one handler of the if/else chain, in source
 * order, with each branch's own parameter-count guard; a name no branch
 * takes (or whose guard fails) selects Unknown, for which Execute returns -1.
 */
module Dispatch {
  import opened Text

  /** The value kinds Skin.SetString and its siblings ask the user for. */
  datatype SkinValueKind = StringValue | ImageValue | FileValue | PathValue | NumericValue | LargeImageValue

  /** One constructor per branch of Execute's if/else chain, in source order. */
  datatype Handler =
    | Reboot | Shutdown | Powerdown | RestartApp | Hibernate | Suspend | Quit
    | InhibitIdleShutdown | ActivateScreensaver | Minimize | LoadProfile | MasterMode
    | SetGuiLanguage | TakeScreenshot
    | ActivateWindow(replace: bool)
    | SetFocus
    | ActivateWindowAndFocus(replace: bool)
    | RunScript | StopScript
    | SystemExec(wait: bool)
    | SetResolution | Extract | RunPlugin | RunAddon | NotifyAll | PlayMedia
    | ShowPicture
    | SlideShow(recursive: bool)
    | ReloadSkin | UnloadSkin | RefreshRss | PlayerControl | PlayWith | Mute | SetVolume
    | PlaylistPlayOffset | PlaylistClear | EjectTray | AlarmClock | Notification | CancelAlarm
    | PlayDvd | RipCd
    | SkinToggleSetting | SkinSetBool | SkinReset | SkinResetSettings | SkinTheme
    | SkinSetValue(kind: SkinValueKind)
    | SkinSetAddon | DialogClose | SystemLogoff | PageDown | PageUp
    | UpdateLibrary | CleanLibrary | ExportLibrary | ControlMove
    | ContainerRefresh | ContainerUpdate
    | ContainerNextViewMode | ContainerPreviousViewMode | ContainerSetViewMode
    | ContainerNextSortMethod | ContainerPreviousSortMethod | ContainerSetSortMethod | ContainerSortDirection
    | ControlMessage | SendClick | Action | SetProperty | ClearProperty | WakeOnLan
    | AddonDefaultOpenSettings | AddonDefaultSet | AddonOpenSettings | UpdateAddonRepos | UpdateLocalAddons
    | ToggleDpms | CecToggleState | CecActivateSource | CecStandby
    | WeatherLocationSet | WeatherLocationNext | WeatherLocationPrevious | WeatherRefresh
    | VideoLibrarySearch | ToggleDebug | StartPvrManager | StopPvrManager
    | StartAndroidActivity | SetStereoMode
    | Unknown

  /** The parameters each handler needs before its branch is taken. */
  predicate GuardHolds(h: Handler, params: seq<string>) {
    && (NeedsOneParameter(h) ==> |params| >= 1)
    && (NeedsTwoParameters(h) ==> |params| >= 2)
    && (NeedsExactlyOneParameter(h) ==> |params| == 1)
    && (h.SetStereoMode? ==> |params| >= 1 && params[0] != "")
  }

  /**
   * The handlers that index params[0] without checking that it exists:
   * with no parameters their branch has undefined behaviour.
   */
  predicate ReadsFirstParameter(h: Handler) {
    h.StopScript? || h.CancelAlarm? || h.ExportLibrary? || h.WakeOnLan? || h.WeatherLocationSet? || h.SkinSetValue?
  }

  /** The handlers with an early return code, RunAddon, and those of ReadsFirstParameter. */
  predicate Distinguished(h: Handler) {
    h.PlayMedia? || h.PlayerControl? || h.ShowPicture? || h.SlideShow? || h.SetStereoMode?
    || h.Notification? || h.SystemLogoff? || h.RunAddon? || ReadsFirstParameter(h)
  }

  /** The names that select a Distinguished handler. */
  predicate DistinguishedName(e: string, ignoreCase: bool) {
    e == "playmedia" || e == "playercontrol" || Equals(e, "showPicture", ignoreCase)
    || Equals(e, "slideShow", ignoreCase) || Equals(e, "recursiveslideShow", ignoreCase)
    || Equals(e, "SetStereoMode", ignoreCase) || e == "notification" || e == "system.logoff" || e == "runaddon"
    || e == "stopscript" || e == "cancelalarm" || e == "exportlibrary" || e == "wakeonlan" || e == "weather.locationset"
    || e == "skin.setstring" || e == "skin.setimage" || e == "skin.setfile" || e == "skin.setpath"
    || e == "skin.setnumeric" || e == "skin.setlargeimage"
  }

  predicate NeedsOneParameter(h: Handler) {
    h.SetFocus? || h.ActivateWindowAndFocus? || h.RunScript? || h.Extract? || h.SkinSetBool? || h.DialogClose?
    || h.UpdateLibrary? || h.ContainerUpdate? || h.SendClick? || h.Action? || h.ClearProperty? || h.StartAndroidActivity?
  }

  predicate NeedsTwoParameters(h: Handler) {
    h.AlarmClock? || h.SkinSetAddon? || h.ControlMove? || h.ControlMessage? || h.SetProperty?
  }

  predicate NeedsExactlyOneParameter(h: Handler) {
    h.AddonDefaultOpenSettings? || h.AddonDefaultSet? || h.AddonOpenSettings?
  }

  /** The names compared in the branches reboot .. hibernate. */
  predicate NamedInSegment1(e: string, ignoreCase: bool) {
    e == "reboot" || e == "restart" || e == "reset"
    || e == "shutdown" || e == "powerdown" || e == "restartapp"
    || e == "hibernate"
  }

  /** The branches reboot .. hibernate ; `rest` when none of them is taken. */
  function Segment1(e: string, params: seq<string>, ignoreCase: bool, rest: Handler): (h: Handler)
    requires GuardHolds(rest, params)
    ensures GuardHolds(h, params)
  {
    if e == "reboot" || e == "restart" || e == "reset" then Reboot
    else if e == "shutdown" then Shutdown
    else if e == "powerdown" then Powerdown
    else if e == "restartapp" then RestartApp
    else if e == "hibernate" then Hibernate
    else rest
  }

  lemma Segment1FallsThrough(e: string, params: seq<string>, ignoreCase: bool, rest: Handler)
    requires GuardHolds(rest, params) && !NamedInSegment1(e, ignoreCase)
    ensures Segment1(e, params, ignoreCase, rest) == rest
  {
  }

  /** The names compared in the branches suspend .. minimize. */
  predicate NamedInSegment2(e: string, ignoreCase: bool) {
    e == "suspend" || e == "quit" || e == "inhibitidleshutdown"
    || e == "activatescreensaver" || e == "minimize"
  }

  /** The branches suspend .. minimize ; `rest` when none of them is taken. */
  function Segment2(e: string, params: seq<string>, ignoreCase: bool, rest: Handler): (h: Handler)
    requires GuardHolds(rest, params)
    ensures GuardHolds(h, params)
  {
    var n := |params|;
    if e == "suspend" then Suspend
    else if e == "quit" then Quit
    else if e == "inhibitidleshutdown" then InhibitIdleShutdown
    else if e == "activatescreensaver" then ActivateScreensaver
    else if e == "minimize" then Minimize
    else rest
  }

  lemma Segment2FallsThrough(e: string, params: seq<string>, ignoreCase: bool, rest: Handler)
    requires GuardHolds(rest, params) && !NamedInSegment2(e, ignoreCase)
    ensures Segment2(e, params, ignoreCase, rest) == rest
  {
  }

  /** The names compared in the branches loadprofile .. activatewindow. */
  predicate NamedInSegment3(e: string, ignoreCase: bool) {
    e == "loadprofile" || e == "mastermode" || e == "setguilanguage"
    || e == "takescreenshot" || e == "activatewindow" || e == "replacewindow"
  }

  /** The branches loadprofile .. activatewindow ; `rest` when none of them is taken. */
  function Segment3(e: string, params: seq<string>, ignoreCase: bool, rest: Handler): (h: Handler)
    requires GuardHolds(rest, params)
    ensures GuardHolds(h, params)
  {
    var n := |params|;
    if e == "loadprofile" then LoadProfile
    else if e == "mastermode" then MasterMode
    else if e == "setguilanguage" then SetGuiLanguage
    else if e == "takescreenshot" then TakeScreenshot
    else if e == "activatewindow" || e == "replacewindow" then ActivateWindow(e != "activatewindow")
    else rest
  }

  lemma Segment3FallsThrough(e: string, params: seq<string>, ignoreCase: bool, rest: Handler)
    requires GuardHolds(rest, params) && !NamedInSegment3(e, ignoreCase)
    ensures Segment3(e, params, ignoreCase, rest) == rest
  {
  }

  /** The names compared in the branches setfocus .. system.exec. */
  predicate NamedInSegment4(e: string, ignoreCase: bool) {
    e == "setfocus" || e == "control.setfocus" || e == "activatewindowandfocus"
    || e == "replacewindowandfocus" || e == "runscript" || e == "stopscript"
    || e == "system.exec"
  }

  /** The branches setfocus .. system.exec ; `rest` when none of them is taken. */
  function Segment4(e: string, params: seq<string>, ignoreCase: bool, rest: Handler): (h: Handler)
    requires GuardHolds(rest, params)
    ensures GuardHolds(h, params)
  {
    var n := |params|;
    if (e == "setfocus" || e == "control.setfocus") && n > 0 then SetFocus
    else if (e == "activatewindowandfocus" || e == "replacewindowandfocus") && n > 0 then ActivateWindowAndFocus(e != "activatewindowandfocus")
    else if e == "runscript" && n > 0 then RunScript
    else if e == "stopscript" then StopScript
    else if e == "system.exec" then SystemExec(false)
    else rest
  }

  lemma Segment4FallsThrough(e: string, params: seq<string>, ignoreCase: bool, rest: Handler)
    requires GuardHolds(rest, params) && !NamedInSegment4(e, ignoreCase)
    ensures Segment4(e, params, ignoreCase, rest) == rest
  {
  }

  /** The names compared in the branches system.execwait .. runaddon. */
  predicate NamedInSegment5(e: string, ignoreCase: bool) {
    e == "system.execwait" || e == "resolution" || e == "extract"
    || e == "runplugin" || e == "runaddon"
  }

  /** The branches system.execwait .. runaddon ; `rest` when none of them is taken. */
  function Segment5(e: string, params: seq<string>, ignoreCase: bool, rest: Handler): (h: Handler)
    requires GuardHolds(rest, params)
    ensures GuardHolds(h, params)
  {
    var n := |params|;
    if e == "system.execwait" then SystemExec(true)
    else if e == "resolution" then SetResolution
    else if e == "extract" && n > 0 then Extract
    else if e == "runplugin" then RunPlugin
    else if e == "runaddon" then RunAddon
    else rest
  }

  lemma Segment5FallsThrough(e: string, params: seq<string>, ignoreCase: bool, rest: Handler)
    requires GuardHolds(rest, params) && !NamedInSegment5(e, ignoreCase)
    ensures Segment5(e, params, ignoreCase, rest) == rest
  {
  }

  /** The names compared in the branches notifyall .. reloadskin. */
  predicate NamedInSegment6(e: string, ignoreCase: bool) {
    e == "notifyall" || e == "playmedia" || Equals(e, "showPicture", ignoreCase)
    || Equals(e, "slideShow", ignoreCase) || Equals(e, "recursiveslideShow", ignoreCase) || e == "reloadskin"
  }

  /** The branches notifyall .. reloadskin ; `rest` when none of them is taken. */
  function Segment6(e: string, params: seq<string>, ignoreCase: bool, rest: Handler): (h: Handler)
    requires GuardHolds(rest, params)
    ensures GuardHolds(h, params)
  {
    var n := |params|;
    if e == "notifyall" then NotifyAll
    else if e == "playmedia" then PlayMedia
    else if Equals(e, "showPicture", ignoreCase) then ShowPicture
    else if Equals(e, "slideShow", ignoreCase) || Equals(e, "recursiveslideShow", ignoreCase) then SlideShow(Equals(e, "RecursiveSlideShow", ignoreCase))
    else if e == "reloadskin" then ReloadSkin
    else rest
  }

  lemma Segment6FallsThrough(e: string, params: seq<string>, ignoreCase: bool, rest: Handler)
    requires GuardHolds(rest, params) && !NamedInSegment6(e, ignoreCase)
    ensures Segment6(e, params, ignoreCase, rest) == rest
  {
  }

  /** The names compared in the branches unloadskin .. mute. */
  predicate NamedInSegment7(e: string, ignoreCase: bool) {
    e == "unloadskin" || e == "refreshrss" || e == "playercontrol"
    || e == "playwith" || e == "mute"
  }

  /** The branches unloadskin .. mute ; `rest` when none of them is taken. */
  function Segment7(e: string, params: seq<string>, ignoreCase: bool, rest: Handler): (h: Handler)
    requires GuardHolds(rest, params)
    ensures GuardHolds(h, params)
  {
    var n := |params|;
    if e == "unloadskin" then UnloadSkin
    else if e == "refreshrss" then RefreshRss
    else if e == "playercontrol" then PlayerControl
    else if e == "playwith" then PlayWith
    else if e == "mute" then Mute
    else rest
  }

  lemma Segment7FallsThrough(e: string, params: seq<string>, ignoreCase: bool, rest: Handler)
    requires GuardHolds(rest, params) && !NamedInSegment7(e, ignoreCase)
    ensures Segment7(e, params, ignoreCase, rest) == rest
  {
  }

  /** The names compared in the branches setvolume .. alarmclock. */
  predicate NamedInSegment8(e: string, ignoreCase: bool) {
    e == "setvolume" || e == "playlist.playoffset" || e == "playlist.clear"
    || e == "ejecttray" || e == "alarmclock"
  }

  /** The branches setvolume .. alarmclock ; `rest` when none of them is taken. */
  function Segment8(e: string, params: seq<string>, ignoreCase: bool, rest: Handler): (h: Handler)
    requires GuardHolds(rest, params)
    ensures GuardHolds(h, params)
  {
    var n := |params|;
    if e == "setvolume" then SetVolume
    else if e == "playlist.playoffset" then PlaylistPlayOffset
    else if e == "playlist.clear" then PlaylistClear
    else if e == "ejecttray" then EjectTray
    else if e == "alarmclock" && n > 1 then AlarmClock
    else rest
  }

  lemma Segment8FallsThrough(e: string, params: seq<string>, ignoreCase: bool, rest: Handler)
    requires GuardHolds(rest, params) && !NamedInSegment8(e, ignoreCase)
    ensures Segment8(e, params, ignoreCase, rest) == rest
  {
  }

  /** The names compared in the branches notification .. skin.togglesetting. */
  predicate NamedInSegment9(e: string, ignoreCase: bool) {
    e == "notification" || e == "cancelalarm" || e == "playdvd"
    || e == "ripcd" || e == "skin.togglesetting"
  }

  /** The branches notification .. skin.togglesetting ; `rest` when none of them is taken. */
  function Segment9(e: string, params: seq<string>, ignoreCase: bool, rest: Handler): (h: Handler)
    requires GuardHolds(rest, params)
    ensures GuardHolds(h, params)
  {
    var n := |params|;
    if e == "notification" then Notification
    else if e == "cancelalarm" then CancelAlarm
    else if e == "playdvd" then PlayDvd
    else if e == "ripcd" then RipCd
    else if e == "skin.togglesetting" then SkinToggleSetting
    else rest
  }

  lemma Segment9FallsThrough(e: string, params: seq<string>, ignoreCase: bool, rest: Handler)
    requires GuardHolds(rest, params) && !NamedInSegment9(e, ignoreCase)
    ensures Segment9(e, params, ignoreCase, rest) == rest
  {
  }

  /** The names compared in the branches skin.setbool .. skin.setstring. */
  predicate NamedInSegment10(e: string, ignoreCase: bool) {
    e == "skin.setbool" || e == "skin.reset" || e == "skin.resetsettings"
    || e == "skin.theme" || e == "skin.setstring"
  }

  /** The branches skin.setbool .. skin.setstring ; `rest` when none of them is taken. */
  function Segment10(e: string, params: seq<string>, ignoreCase: bool, rest: Handler): (h: Handler)
    requires GuardHolds(rest, params)
    ensures GuardHolds(h, params)
  {
    var n := |params|;
    if e == "skin.setbool" && n > 0 then SkinSetBool
    else if e == "skin.reset" then SkinReset
    else if e == "skin.resetsettings" then SkinResetSettings
    else if e == "skin.theme" then SkinTheme
    else if e == "skin.setstring" then SkinSetValue(StringValue)
    else rest
  }

  lemma Segment10FallsThrough(e: string, params: seq<string>, ignoreCase: bool, rest: Handler)
    requires GuardHolds(rest, params) && !NamedInSegment10(e, ignoreCase)
    ensures Segment10(e, params, ignoreCase, rest) == rest
  {
  }

  /** The names compared in the branches skin.setimage .. skin.setlargeimage. */
  predicate NamedInSegment11(e: string, ignoreCase: bool) {
    e == "skin.setimage" || e == "skin.setfile" || e == "skin.setpath"
    || e == "skin.setnumeric" || e == "skin.setlargeimage"
  }

  /** The branches skin.setimage .. skin.setlargeimage ; `rest` when none of them is taken. */
  function Segment11(e: string, params: seq<string>, ignoreCase: bool, rest: Handler): (h: Handler)
    requires GuardHolds(rest, params)
    ensures GuardHolds(h, params)
  {
    var n := |params|;
    if e == "skin.setimage" then SkinSetValue(ImageValue)
    else if e == "skin.setfile" then SkinSetValue(FileValue)
    else if e == "skin.setpath" then SkinSetValue(PathValue)
    else if e == "skin.setnumeric" then SkinSetValue(NumericValue)
    else if e == "skin.setlargeimage" then SkinSetValue(LargeImageValue)
    else rest
  }

  lemma Segment11FallsThrough(e: string, params: seq<string>, ignoreCase: bool, rest: Handler)
    requires GuardHolds(rest, params) && !NamedInSegment11(e, ignoreCase)
    ensures Segment11(e, params, ignoreCase, rest) == rest
  {
  }

  /** The names compared in the branches skin.setaddon .. pageup. */
  predicate NamedInSegment12(e: string, ignoreCase: bool) {
    e == "skin.setaddon" || e == "dialog.close" || e == "system.logoff"
    || e == "pagedown" || e == "pageup"
  }

  /** The branches skin.setaddon .. pageup ; `rest` when none of them is taken. */
  function Segment12(e: string, params: seq<string>, ignoreCase: bool, rest: Handler): (h: Handler)
    requires GuardHolds(rest, params)
    ensures GuardHolds(h, params)
  {
    var n := |params|;
    if e == "skin.setaddon" && n > 1 then SkinSetAddon
    else if e == "dialog.close" && n > 0 then DialogClose
    else if e == "system.logoff" then SystemLogoff
    else if e == "pagedown" then PageDown
    else if e == "pageup" then PageUp
    else rest
  }

  lemma Segment12FallsThrough(e: string, params: seq<string>, ignoreCase: bool, rest: Handler)
    requires GuardHolds(rest, params) && !NamedInSegment12(e, ignoreCase)
    ensures Segment12(e, params, ignoreCase, rest) == rest
  {
  }

  /** The names compared in the branches updatelibrary .. container.refresh. */
  predicate NamedInSegment13(e: string, ignoreCase: bool) {
    e == "updatelibrary" || e == "cleanlibrary" || e == "exportlibrary"
    || e == "control.move" || e == "container.refresh"
  }

  /** The branches updatelibrary .. container.refresh ; `rest` when none of them is taken. */
  function Segment13(e: string, params: seq<string>, ignoreCase: bool, rest: Handler): (h: Handler)
    requires GuardHolds(rest, params)
    ensures GuardHolds(h, params)
  {
    var n := |params|;
    if e == "updatelibrary" && n > 0 then UpdateLibrary
    else if e == "cleanlibrary" then CleanLibrary
    else if e == "exportlibrary" then ExportLibrary
    else if e == "control.move" && n > 1 then ControlMove
    else if e == "container.refresh" then ContainerRefresh
    else rest
  }

  lemma Segment13FallsThrough(e: string, params: seq<string>, ignoreCase: bool, rest: Handler)
    requires GuardHolds(rest, params) && !NamedInSegment13(e, ignoreCase)
    ensures Segment13(e, params, ignoreCase, rest) == rest
  {
  }

  /** The names compared in the branches container.update .. container.nextsortmethod. */
  predicate NamedInSegment14(e: string, ignoreCase: bool) {
    e == "container.update" || e == "container.nextviewmode" || e == "container.previousviewmode"
    || e == "container.setviewmode" || e == "container.nextsortmethod"
  }

  /** The branches container.update .. container.nextsortmethod ; `rest` when none of them is taken. */
  function Segment14(e: string, params: seq<string>, ignoreCase: bool, rest: Handler): (h: Handler)
    requires GuardHolds(rest, params)
    ensures GuardHolds(h, params)
  {
    if e == "container.update" && |params| > 0 then ContainerUpdate
    else if e == "container.nextviewmode" then ContainerNextViewMode
    else if e == "container.previousviewmode" then ContainerPreviousViewMode
    else if e == "container.setviewmode" then ContainerSetViewMode
    else if e == "container.nextsortmethod" then ContainerNextSortMethod
    else rest
  }

  lemma Segment14FallsThrough(e: string, params: seq<string>, ignoreCase: bool, rest: Handler)
    requires GuardHolds(rest, params) && !NamedInSegment14(e, ignoreCase)
    ensures Segment14(e, params, ignoreCase, rest) == rest
  {
  }

  /** The names compared in the branches container.previoussortmethod .. sendclick. */
  predicate NamedInSegment15(e: string, ignoreCase: bool) {
    e == "container.previoussortmethod" || e == "container.setsortmethod" || e == "container.sortdirection"
    || e == "control.message" || e == "sendclick"
  }

  /** The branches container.previoussortmethod .. sendclick ; `rest` when none of them is taken. */
  function Segment15(e: string, params: seq<string>, ignoreCase: bool, rest: Handler): (h: Handler)
    requires GuardHolds(rest, params)
    ensures GuardHolds(h, params)
  {
    var n := |params|;
    if e == "container.previoussortmethod" then ContainerPreviousSortMethod
    else if e == "container.setsortmethod" then ContainerSetSortMethod
    else if e == "container.sortdirection" then ContainerSortDirection
    else if e == "control.message" && n >= 2 then ControlMessage
    else if e == "sendclick" && n > 0 then SendClick
    else rest
  }

  lemma Segment15FallsThrough(e: string, params: seq<string>, ignoreCase: bool, rest: Handler)
    requires GuardHolds(rest, params) && !NamedInSegment15(e, ignoreCase)
    ensures Segment15(e, params, ignoreCase, rest) == rest
  {
  }

  /** The names compared in the branches action .. addon.default.opensettings. */
  predicate NamedInSegment16(e: string, ignoreCase: bool) {
    e == "action" || e == "setproperty" || e == "clearproperty"
    || e == "wakeonlan" || e == "addon.default.opensettings"
  }

  /** The branches action .. addon.default.opensettings ; `rest` when none of them is taken. */
  function Segment16(e: string, params: seq<string>, ignoreCase: bool, rest: Handler): (h: Handler)
    requires GuardHolds(rest, params)
    ensures GuardHolds(h, params)
  {
    var n := |params|;
    if e == "action" && n > 0 then Action
    else if e == "setproperty" && n >= 2 then SetProperty
    else if e == "clearproperty" && n > 0 then ClearProperty
    else if e == "wakeonlan" then WakeOnLan
    else if e == "addon.default.opensettings" && n == 1 then AddonDefaultOpenSettings
    else rest
  }

  lemma Segment16FallsThrough(e: string, params: seq<string>, ignoreCase: bool, rest: Handler)
    requires GuardHolds(rest, params) && !NamedInSegment16(e, ignoreCase)
    ensures Segment16(e, params, ignoreCase, rest) == rest
  {
  }

  /** The names compared in the branches addon.default.set .. toggledpms. */
  predicate NamedInSegment17(e: string, ignoreCase: bool) {
    e == "addon.default.set" || e == "addon.opensettings" || e == "updateaddonrepos"
    || e == "updatelocaladdons" || e == "toggledpms"
  }

  /** The branches addon.default.set .. toggledpms ; `rest` when none of them is taken. */
  function Segment17(e: string, params: seq<string>, ignoreCase: bool, rest: Handler): (h: Handler)
    requires GuardHolds(rest, params)
    ensures GuardHolds(h, params)
  {
    var n := |params|;
    if e == "addon.default.set" && n == 1 then AddonDefaultSet
    else if e == "addon.opensettings" && n == 1 then AddonOpenSettings
    else if e == "updateaddonrepos" then UpdateAddonRepos
    else if e == "updatelocaladdons" then UpdateLocalAddons
    else if e == "toggledpms" then ToggleDpms
    else rest
  }

  lemma Segment17FallsThrough(e: string, params: seq<string>, ignoreCase: bool, rest: Handler)
    requires GuardHolds(rest, params) && !NamedInSegment17(e, ignoreCase)
    ensures Segment17(e, params, ignoreCase, rest) == rest
  {
  }

  /** The names compared in the branches cectogglestate .. weather.locationnext. */
  predicate NamedInSegment18(e: string, ignoreCase: bool) {
    e == "cectogglestate" || e == "cecactivatesource" || e == "cecstandby"
    || e == "weather.locationset" || e == "weather.locationnext"
  }

  /** The branches cectogglestate .. weather.locationnext ; `rest` when none of them is taken. */
  function Segment18(e: string, params: seq<string>, ignoreCase: bool, rest: Handler): (h: Handler)
    requires GuardHolds(rest, params)
    ensures GuardHolds(h, params)
  {
    var n := |params|;
    if e == "cectogglestate" then CecToggleState
    else if e == "cecactivatesource" then CecActivateSource
    else if e == "cecstandby" then CecStandby
    else if e == "weather.locationset" then WeatherLocationSet
    else if e == "weather.locationnext" then WeatherLocationNext
    else rest
  }

  lemma Segment18FallsThrough(e: string, params: seq<string>, ignoreCase: bool, rest: Handler)
    requires GuardHolds(rest, params) && !NamedInSegment18(e, ignoreCase)
    ensures Segment18(e, params, ignoreCase, rest) == rest
  {
  }

  /** The names compared in the branches weather.locationprevious .. startpvrmanager. */
  predicate NamedInSegment19(e: string, ignoreCase: bool) {
    e == "weather.locationprevious" || e == "weather.refresh" || e == "videolibrary.search"
    || e == "toggledebug" || e == "startpvrmanager"
  }

  /** The branches weather.locationprevious .. startpvrmanager ; `rest` when none of them is taken. */
  function Segment19(e: string, params: seq<string>, ignoreCase: bool, rest: Handler): (h: Handler)
    requires GuardHolds(rest, params)
    ensures GuardHolds(h, params)
  {
    var n := |params|;
    if e == "weather.locationprevious" then WeatherLocationPrevious
    else if e == "weather.refresh" then WeatherRefresh
    else if e == "videolibrary.search" then VideoLibrarySearch
    else if e == "toggledebug" then ToggleDebug
    else if e == "startpvrmanager" then StartPvrManager
    else rest
  }

  lemma Segment19FallsThrough(e: string, params: seq<string>, ignoreCase: bool, rest: Handler)
    requires GuardHolds(rest, params) && !NamedInSegment19(e, ignoreCase)
    ensures Segment19(e, params, ignoreCase, rest) == rest
  {
  }

  /** The names compared in the branches stoppvrmanager .. SetStereoMode. */
  predicate NamedInSegment20(e: string, ignoreCase: bool) {
    e == "stoppvrmanager" || Equals(e, "StartAndroidActivity", ignoreCase) || Equals(e, "SetStereoMode", ignoreCase)
  }

  /** The branches stoppvrmanager .. SetStereoMode ; `rest` when none of them is taken. */
  function Segment20(e: string, params: seq<string>, ignoreCase: bool, rest: Handler): (h: Handler)
    requires GuardHolds(rest, params)
    ensures GuardHolds(h, params)
  {
    var n := |params|;
    var parameter := if n > 0 then params[0] else "";
    if e == "stoppvrmanager" then StopPvrManager
    else if Equals(e, "StartAndroidActivity", ignoreCase) && n > 0 then StartAndroidActivity
    else if Equals(e, "SetStereoMode", ignoreCase) && parameter != "" then SetStereoMode
    else rest
  }

  lemma Segment20FallsThrough(e: string, params: seq<string>, ignoreCase: bool, rest: Handler)
    requires GuardHolds(rest, params) && !NamedInSegment20(e, ignoreCase)
    ensures Segment20(e, params, ignoreCase, rest) == rest
  {
  }

  /**
   * Execute's if/else chain on the lower-cased name. `ignoreCase` is the
   * comparison CStdString::Equals performs; it matters only for the branches
   * whose literal has capitals.
   */
  function Classify(execute: string, params: seq<string>, ignoreCase: bool): (h: Handler)
    ensures GuardHolds(h, params)
  {
    var e, p, ic := execute, params, ignoreCase;
    Segment1(e, p, ic, Segment2(e, p, ic, Segment3(e, p, ic, Segment4(e, p, ic,
      Segment5(e, p, ic, Segment6(e, p, ic, Segment7(e, p, ic, Segment8(e, p, ic,
      Segment9(e, p, ic, Segment10(e, p, ic, Segment11(e, p, ic, Segment12(e, p, ic,
      Segment13(e, p, ic, Segment14(e, p, ic, Segment15(e, p, ic, Segment16(e, p, ic,
      Segment17(e, p, ic, Segment18(e, p, ic, Segment19(e, p, ic, Segment20(e, p, ic, Unknown))))))))))))))))))))
  }

  /** A name some branch of the chain compares equal to `execute`. */
  predicate Named(execute: string, ignoreCase: bool) {
    NamedInSegment1(execute, ignoreCase) || NamedInSegment2(execute, ignoreCase) || NamedInSegment3(execute, ignoreCase)
    || NamedInSegment4(execute, ignoreCase) || NamedInSegment5(execute, ignoreCase) || NamedInSegment6(execute, ignoreCase)
    || NamedInSegment7(execute, ignoreCase) || NamedInSegment8(execute, ignoreCase) || NamedInSegment9(execute, ignoreCase)
    || NamedInSegment10(execute, ignoreCase) || NamedInSegment11(execute, ignoreCase) || NamedInSegment12(execute, ignoreCase)
    || NamedInSegment13(execute, ignoreCase) || NamedInSegment14(execute, ignoreCase) || NamedInSegment15(execute, ignoreCase)
    || NamedInSegment16(execute, ignoreCase) || NamedInSegment17(execute, ignoreCase) || NamedInSegment18(execute, ignoreCase)
    || NamedInSegment19(execute, ignoreCase) || NamedInSegment20(execute, ignoreCase)
  }

  /** The -1 fall-through: a name that no branch compares equal selects Unknown, whatever the parameters. */
  lemma UnnamedIsUnknown(execute: string, params: seq<string>, ignoreCase: bool)
    requires !Named(execute, ignoreCase)
    ensures Classify(execute, params, ignoreCase) == Unknown
  {
    var e, p, ic := execute, params, ignoreCase;
    Segment20FallsThrough(e, p, ic, Unknown);
    var r20 := Segment20(e, p, ic, Unknown);
    Segment19FallsThrough(e, p, ic, r20);
    var r19 := Segment19(e, p, ic, r20);
    Segment18FallsThrough(e, p, ic, r19);
    var r18 := Segment18(e, p, ic, r19);
    Segment17FallsThrough(e, p, ic, r18);
    var r17 := Segment17(e, p, ic, r18);
    Segment16FallsThrough(e, p, ic, r17);
    var r16 := Segment16(e, p, ic, r17);
    Segment15FallsThrough(e, p, ic, r16);
    var r15 := Segment15(e, p, ic, r16);
    Segment14FallsThrough(e, p, ic, r15);
    var r14 := Segment14(e, p, ic, r15);
    Segment13FallsThrough(e, p, ic, r14);
    var r13 := Segment13(e, p, ic, r14);
    Segment12FallsThrough(e, p, ic, r13);
    var r12 := Segment12(e, p, ic, r13);
    Segment11FallsThrough(e, p, ic, r12);
    var r11 := Segment11(e, p, ic, r12);
    Segment10FallsThrough(e, p, ic, r11);
    var r10 := Segment10(e, p, ic, r11);
    Segment9FallsThrough(e, p, ic, r10);
    var r9 := Segment9(e, p, ic, r10);
    Segment8FallsThrough(e, p, ic, r9);
    var r8 := Segment8(e, p, ic, r9);
    Segment7FallsThrough(e, p, ic, r8);
    var r7 := Segment7(e, p, ic, r8);
    Segment6FallsThrough(e, p, ic, r7);
    var r6 := Segment6(e, p, ic, r7);
    Segment5FallsThrough(e, p, ic, r6);
    var r5 := Segment5(e, p, ic, r6);
    Segment4FallsThrough(e, p, ic, r5);
    var r4 := Segment4(e, p, ic, r5);
    Segment3FallsThrough(e, p, ic, r4);
    var r3 := Segment3(e, p, ic, r4);
    Segment2FallsThrough(e, p, ic, r3);
    var r2 := Segment2(e, p, ic, r3);
    Segment1FallsThrough(e, p, ic, r2);
    var r1 := Segment1(e, p, ic, r2);
  }

  /** Help and AllowIdleShutdown are registered built-ins, yet no branch of Execute takes them. */
  lemma RegisteredButUnhandled(params: seq<string>, ignoreCase: bool)
    ensures Classify("help", params, ignoreCase) == Unknown
    ensures Classify("allowidleshutdown", params, ignoreCase) == Unknown
  {
    NotNamed("help", ignoreCase);
    UnnamedIsUnknown("help", params, ignoreCase);
    NotNamed("allowidleshutdown", ignoreCase);
    UnnamedIsUnknown("allowidleshutdown", params, ignoreCase);
  }

  /** The empty name (what SplitExecFunction yields for an empty command) selects Unknown. */
  lemma EmptyNameIsUnknown(params: seq<string>, ignoreCase: bool)
    ensures Classify("", params, ignoreCase) == Unknown
  {
    NotNamed("", ignoreCase);
    UnnamedIsUnknown("", params, ignoreCase);
  }

  lemma NotNamed(e: string, ignoreCase: bool)
    requires e == "help" || e == "allowidleshutdown" || e == ""
    ensures !Named(e, ignoreCase)
  {
    NotNamedInSegment1(e, ignoreCase);
    NotNamedInSegment2(e, ignoreCase);
    NotNamedInSegment3(e, ignoreCase);
    NotNamedInSegment4(e, ignoreCase);
    NotNamedInSegment5(e, ignoreCase);
    NotNamedInSegment6(e, ignoreCase);
    NotNamedInSegment7(e, ignoreCase);
    NotNamedInSegment8(e, ignoreCase);
    NotNamedInSegment9(e, ignoreCase);
    NotNamedInSegment10(e, ignoreCase);
    NotNamedInSegment11(e, ignoreCase);
    NotNamedInSegment12(e, ignoreCase);
    NotNamedInSegment13(e, ignoreCase);
    NotNamedInSegment14(e, ignoreCase);
    NotNamedInSegment15(e, ignoreCase);
    NotNamedInSegment16(e, ignoreCase);
    NotNamedInSegment17(e, ignoreCase);
    NotNamedInSegment18(e, ignoreCase);
    NotNamedInSegment19(e, ignoreCase);
    NotNamedInSegment20(e, ignoreCase);
  }

  lemma NotNamedInSegment1(e: string, ignoreCase: bool)
    requires e == "help" || e == "allowidleshutdown" || e == ""
    ensures !NamedInSegment1(e, ignoreCase)
  {
  }

  lemma NotNamedInSegment2(e: string, ignoreCase: bool)
    requires e == "help" || e == "allowidleshutdown" || e == ""
    ensures !NamedInSegment2(e, ignoreCase)
  {
  }

  lemma NotNamedInSegment3(e: string, ignoreCase: bool)
    requires e == "help" || e == "allowidleshutdown" || e == ""
    ensures !NamedInSegment3(e, ignoreCase)
  {
  }

  lemma NotNamedInSegment4(e: string, ignoreCase: bool)
    requires e == "help" || e == "allowidleshutdown" || e == ""
    ensures !NamedInSegment4(e, ignoreCase)
  {
  }

  lemma NotNamedInSegment5(e: string, ignoreCase: bool)
    requires e == "help" || e == "allowidleshutdown" || e == ""
    ensures !NamedInSegment5(e, ignoreCase)
  {
  }

  lemma NotNamedInSegment6(e: string, ignoreCase: bool)
    requires e == "help" || e == "allowidleshutdown" || e == ""
    ensures !NamedInSegment6(e, ignoreCase)
  {
  }

  lemma NotNamedInSegment7(e: string, ignoreCase: bool)
    requires e == "help" || e == "allowidleshutdown" || e == ""
    ensures !NamedInSegment7(e, ignoreCase)
  {
  }

  lemma NotNamedInSegment8(e: string, ignoreCase: bool)
    requires e == "help" || e == "allowidleshutdown" || e == ""
    ensures !NamedInSegment8(e, ignoreCase)
  {
  }

  lemma NotNamedInSegment9(e: string, ignoreCase: bool)
    requires e == "help" || e == "allowidleshutdown" || e == ""
    ensures !NamedInSegment9(e, ignoreCase)
  {
  }

  lemma NotNamedInSegment10(e: string, ignoreCase: bool)
    requires e == "help" || e == "allowidleshutdown" || e == ""
    ensures !NamedInSegment10(e, ignoreCase)
  {
  }

  lemma NotNamedInSegment11(e: string, ignoreCase: bool)
    requires e == "help" || e == "allowidleshutdown" || e == ""
    ensures !NamedInSegment11(e, ignoreCase)
  {
  }

  lemma NotNamedInSegment12(e: string, ignoreCase: bool)
    requires e == "help" || e == "allowidleshutdown" || e == ""
    ensures !NamedInSegment12(e, ignoreCase)
  {
  }

  lemma NotNamedInSegment13(e: string, ignoreCase: bool)
    requires e == "help" || e == "allowidleshutdown" || e == ""
    ensures !NamedInSegment13(e, ignoreCase)
  {
  }

  lemma NotNamedInSegment14(e: string, ignoreCase: bool)
    requires e == "help" || e == "allowidleshutdown" || e == ""
    ensures !NamedInSegment14(e, ignoreCase)
  {
  }

  lemma NotNamedInSegment15(e: string, ignoreCase: bool)
    requires e == "help" || e == "allowidleshutdown" || e == ""
    ensures !NamedInSegment15(e, ignoreCase)
  {
  }

  lemma NotNamedInSegment16(e: string, ignoreCase: bool)
    requires e == "help" || e == "allowidleshutdown" || e == ""
    ensures !NamedInSegment16(e, ignoreCase)
  {
  }

  lemma NotNamedInSegment17(e: string, ignoreCase: bool)
    requires e == "help" || e == "allowidleshutdown" || e == ""
    ensures !NamedInSegment17(e, ignoreCase)
  {
  }

  lemma NotNamedInSegment18(e: string, ignoreCase: bool)
    requires e == "help" || e == "allowidleshutdown" || e == ""
    ensures !NamedInSegment18(e, ignoreCase)
  {
  }

  lemma NotNamedInSegment19(e: string, ignoreCase: bool)
    requires e == "help" || e == "allowidleshutdown" || e == ""
    ensures !NamedInSegment19(e, ignoreCase)
  {
  }

  lemma NotNamedInSegment20(e: string, ignoreCase: bool)
    requires e == "help" || e == "allowidleshutdown" || e == ""
    ensures !NamedInSegment20(e, ignoreCase)
  {
  }

  predicate CapitalizedBranch(h: Handler) {
    h.ShowPicture? || h.SlideShow? || h.StartAndroidActivity? || h.SetStereoMode?
  }

  /**
   * When CStdString::Equals compares case-sensitively, the branches whose
   * literal has capitals are never taken: the name was lower-cased first.
   */
  lemma CapitalizedBranchesNeedIgnoreCase(execute: string, params: seq<string>)
    requires IsLowerCase(execute)
    ensures !CapitalizedBranch(Classify(execute, params, false))
  {
    NotEqualToCapitalized(execute, "showPicture", 4);
    NotEqualToCapitalized(execute, "slideShow", 5);
    NotEqualToCapitalized(execute, "recursiveslideShow", 14);
    NotEqualToCapitalized(execute, "StartAndroidActivity", 0);
    NotEqualToCapitalized(execute, "SetStereoMode", 0);
    var e, p := execute, params;
    NoCapitalizedIn20(e, p, Unknown);
    var r20 := Segment20(e, p, false, Unknown);
    NoCapitalizedIn19(e, p, r20);
    var r19 := Segment19(e, p, false, r20);
    NoCapitalizedIn18(e, p, r19);
    var r18 := Segment18(e, p, false, r19);
    NoCapitalizedIn17(e, p, r18);
    var r17 := Segment17(e, p, false, r18);
    NoCapitalizedIn16(e, p, r17);
    var r16 := Segment16(e, p, false, r17);
    NoCapitalizedIn15(e, p, r16);
    var r15 := Segment15(e, p, false, r16);
    NoCapitalizedIn14(e, p, r15);
    var r14 := Segment14(e, p, false, r15);
    NoCapitalizedIn13(e, p, r14);
    var r13 := Segment13(e, p, false, r14);
    NoCapitalizedIn12(e, p, r13);
    var r12 := Segment12(e, p, false, r13);
    NoCapitalizedIn11(e, p, r12);
    var r11 := Segment11(e, p, false, r12);
    NoCapitalizedIn10(e, p, r11);
    var r10 := Segment10(e, p, false, r11);
    NoCapitalizedIn9(e, p, r10);
    var r9 := Segment9(e, p, false, r10);
    NoCapitalizedIn8(e, p, r9);
    var r8 := Segment8(e, p, false, r9);
    NoCapitalizedIn7(e, p, r8);
    var r7 := Segment7(e, p, false, r8);
    NoCapitalizedIn6(e, p, r7);
    var r6 := Segment6(e, p, false, r7);
    NoCapitalizedIn5(e, p, r6);
    var r5 := Segment5(e, p, false, r6);
    NoCapitalizedIn4(e, p, r5);
    var r4 := Segment4(e, p, false, r5);
    NoCapitalizedIn3(e, p, r4);
    var r3 := Segment3(e, p, false, r4);
    NoCapitalizedIn2(e, p, r3);
    var r2 := Segment2(e, p, false, r3);
    NoCapitalizedIn1(e, p, r2);
    var r1 := Segment1(e, p, false, r2);
  }

  lemma NotEqualToCapitalized(execute: string, literal: string, i: nat)
    requires IsLowerCase(execute)
    requires i < |literal| && 'A' <= literal[i] <= 'Z'
    ensures !Equals(execute, literal, false)
  {
    if i < |execute| {
      assert !('A' <= execute[i] <= 'Z');
    }
  }

  lemma NoCapitalizedIn20(e: string, params: seq<string>, rest: Handler)
    requires !Equals(e, "StartAndroidActivity", false) && !Equals(e, "SetStereoMode", false)
    requires GuardHolds(rest, params) && !CapitalizedBranch(rest)
    ensures !CapitalizedBranch(Segment20(e, params, false, rest))
  {
  }

  lemma NoCapitalizedIn19(e: string, params: seq<string>, rest: Handler)
    requires GuardHolds(rest, params) && !CapitalizedBranch(rest)
    ensures !CapitalizedBranch(Segment19(e, params, false, rest))
  {
    PlainIn19(e, params, false, rest);
  }

  lemma NoCapitalizedIn18(e: string, params: seq<string>, rest: Handler)
    requires GuardHolds(rest, params) && !CapitalizedBranch(rest)
    ensures !CapitalizedBranch(Segment18(e, params, false, rest))
  {
  }

  lemma NoCapitalizedIn17(e: string, params: seq<string>, rest: Handler)
    requires GuardHolds(rest, params) && !CapitalizedBranch(rest)
    ensures !CapitalizedBranch(Segment17(e, params, false, rest))
  {
    PlainIn17(e, params, false, rest);
  }

  lemma NoCapitalizedIn16(e: string, params: seq<string>, rest: Handler)
    requires GuardHolds(rest, params) && !CapitalizedBranch(rest)
    ensures !CapitalizedBranch(Segment16(e, params, false, rest))
  {
  }

  lemma NoCapitalizedIn15(e: string, params: seq<string>, rest: Handler)
    requires GuardHolds(rest, params) && !CapitalizedBranch(rest)
    ensures !CapitalizedBranch(Segment15(e, params, false, rest))
  {
    PlainIn15(e, params, false, rest);
  }

  lemma NoCapitalizedIn14(e: string, params: seq<string>, rest: Handler)
    requires GuardHolds(rest, params) && !CapitalizedBranch(rest)
    ensures !CapitalizedBranch(Segment14(e, params, false, rest))
  {
    PlainIn14(e, params, false, rest);
  }

  lemma NoCapitalizedIn13(e: string, params: seq<string>, rest: Handler)
    requires GuardHolds(rest, params) && !CapitalizedBranch(rest)
    ensures !CapitalizedBranch(Segment13(e, params, false, rest))
  {
  }

  lemma NoCapitalizedIn12(e: string, params: seq<string>, rest: Handler)
    requires GuardHolds(rest, params) && !CapitalizedBranch(rest)
    ensures !CapitalizedBranch(Segment12(e, params, false, rest))
  {
  }

  lemma NoCapitalizedIn11(e: string, params: seq<string>, rest: Handler)
    requires GuardHolds(rest, params) && !CapitalizedBranch(rest)
    ensures !CapitalizedBranch(Segment11(e, params, false, rest))
  {
  }

  lemma NoCapitalizedIn10(e: string, params: seq<string>, rest: Handler)
    requires GuardHolds(rest, params) && !CapitalizedBranch(rest)
    ensures !CapitalizedBranch(Segment10(e, params, false, rest))
  {
  }

  lemma NoCapitalizedIn9(e: string, params: seq<string>, rest: Handler)
    requires GuardHolds(rest, params) && !CapitalizedBranch(rest)
    ensures !CapitalizedBranch(Segment9(e, params, false, rest))
  {
  }

  lemma NoCapitalizedIn8(e: string, params: seq<string>, rest: Handler)
    requires GuardHolds(rest, params) && !CapitalizedBranch(rest)
    ensures !CapitalizedBranch(Segment8(e, params, false, rest))
  {
    PlainIn8(e, params, false, rest);
  }

  lemma NoCapitalizedIn7(e: string, params: seq<string>, rest: Handler)
    requires GuardHolds(rest, params) && !CapitalizedBranch(rest)
    ensures !CapitalizedBranch(Segment7(e, params, false, rest))
  {
  }

  lemma NoCapitalizedIn6(e: string, params: seq<string>, rest: Handler)
    requires !Equals(e, "showPicture", false) && !Equals(e, "slideShow", false) && !Equals(e, "recursiveslideShow", false)
    requires GuardHolds(rest, params) && !CapitalizedBranch(rest)
    ensures !CapitalizedBranch(Segment6(e, params, false, rest))
  {
  }

  lemma NoCapitalizedIn5(e: string, params: seq<string>, rest: Handler)
    requires GuardHolds(rest, params) && !CapitalizedBranch(rest)
    ensures !CapitalizedBranch(Segment5(e, params, false, rest))
  {
  }

  lemma NoCapitalizedIn4(e: string, params: seq<string>, rest: Handler)
    requires GuardHolds(rest, params) && !CapitalizedBranch(rest)
    ensures !CapitalizedBranch(Segment4(e, params, false, rest))
  {
  }

  lemma NoCapitalizedIn3(e: string, params: seq<string>, rest: Handler)
    requires GuardHolds(rest, params) && !CapitalizedBranch(rest)
    ensures !CapitalizedBranch(Segment3(e, params, false, rest))
  {
    PlainIn3(e, params, false, rest);
  }

  lemma NoCapitalizedIn2(e: string, params: seq<string>, rest: Handler)
    requires GuardHolds(rest, params) && !CapitalizedBranch(rest)
    ensures !CapitalizedBranch(Segment2(e, params, false, rest))
  {
    PlainIn2(e, params, false, rest);
  }

  lemma NoCapitalizedIn1(e: string, params: seq<string>, rest: Handler)
    requires GuardHolds(rest, params) && !CapitalizedBranch(rest)
    ensures !CapitalizedBranch(Segment1(e, params, false, rest))
  {
    PlainIn1(e, params, false, rest);
  }

  /**
   * Only the names of the distinguished handlers select them: a name outside
   * DistinguishedName never reaches an early return or a read of a missing
   * first parameter.
   */
  lemma ClassifyDistinguished(execute: string, params: seq<string>, ignoreCase: bool)
    ensures Distinguished(Classify(execute, params, ignoreCase)) ==> DistinguishedName(execute, ignoreCase)
  {
    var e, p, ic := execute, params, ignoreCase;
    DistinguishedIn20(e, p, ic, Unknown);
    var r20 := Segment20(e, p, ic, Unknown);
    DistinguishedIn19(e, p, ic, r20);
    var r19 := Segment19(e, p, ic, r20);
    DistinguishedIn18(e, p, ic, r19);
    var r18 := Segment18(e, p, ic, r19);
    DistinguishedIn17(e, p, ic, r18);
    var r17 := Segment17(e, p, ic, r18);
    DistinguishedIn16(e, p, ic, r17);
    var r16 := Segment16(e, p, ic, r17);
    DistinguishedIn15(e, p, ic, r16);
    var r15 := Segment15(e, p, ic, r16);
    DistinguishedIn14(e, p, ic, r15);
    var r14 := Segment14(e, p, ic, r15);
    DistinguishedIn13(e, p, ic, r14);
    var r13 := Segment13(e, p, ic, r14);
    DistinguishedIn12(e, p, ic, r13);
    var r12 := Segment12(e, p, ic, r13);
    DistinguishedIn11(e, p, ic, r12);
    var r11 := Segment11(e, p, ic, r12);
    DistinguishedIn10(e, p, ic, r11);
    var r10 := Segment10(e, p, ic, r11);
    DistinguishedIn9(e, p, ic, r10);
    var r9 := Segment9(e, p, ic, r10);
    DistinguishedIn8(e, p, ic, r9);
    var r8 := Segment8(e, p, ic, r9);
    DistinguishedIn7(e, p, ic, r8);
    var r7 := Segment7(e, p, ic, r8);
    DistinguishedIn6(e, p, ic, r7);
    var r6 := Segment6(e, p, ic, r7);
    DistinguishedIn5(e, p, ic, r6);
    var r5 := Segment5(e, p, ic, r6);
    DistinguishedIn4(e, p, ic, r5);
    var r4 := Segment4(e, p, ic, r5);
    DistinguishedIn3(e, p, ic, r4);
    var r3 := Segment3(e, p, ic, r4);
    DistinguishedIn2(e, p, ic, r3);
    var r2 := Segment2(e, p, ic, r3);
    DistinguishedIn1(e, p, ic, r2);
    var r1 := Segment1(e, p, ic, r2);
  }

  lemma DistinguishedIn20(e: string, params: seq<string>, ignoreCase: bool, rest: Handler)
    requires GuardHolds(rest, params) && (Distinguished(rest) ==> DistinguishedName(e, ignoreCase))
    ensures Distinguished(Segment20(e, params, ignoreCase, rest)) ==> DistinguishedName(e, ignoreCase)
  {
  }

  lemma DistinguishedIn19(e: string, params: seq<string>, ignoreCase: bool, rest: Handler)
    requires GuardHolds(rest, params) && (Distinguished(rest) ==> DistinguishedName(e, ignoreCase))
    ensures Distinguished(Segment19(e, params, ignoreCase, rest)) ==> DistinguishedName(e, ignoreCase)
  {
    PlainIn19(e, params, ignoreCase, rest);
  }


  lemma DistinguishedIn18(e: string, params: seq<string>, ignoreCase: bool, rest: Handler)
    requires GuardHolds(rest, params) && (Distinguished(rest) ==> DistinguishedName(e, ignoreCase))
    ensures Distinguished(Segment18(e, params, ignoreCase, rest)) ==> DistinguishedName(e, ignoreCase)
  {
  }

  lemma DistinguishedIn17(e: string, params: seq<string>, ignoreCase: bool, rest: Handler)
    requires GuardHolds(rest, params) && (Distinguished(rest) ==> DistinguishedName(e, ignoreCase))
    ensures Distinguished(Segment17(e, params, ignoreCase, rest)) ==> DistinguishedName(e, ignoreCase)
  {
    PlainIn17(e, params, ignoreCase, rest);
  }


  lemma DistinguishedIn16(e: string, params: seq<string>, ignoreCase: bool, rest: Handler)
    requires GuardHolds(rest, params) && (Distinguished(rest) ==> DistinguishedName(e, ignoreCase))
    ensures Distinguished(Segment16(e, params, ignoreCase, rest)) ==> DistinguishedName(e, ignoreCase)
  {
  }

  lemma DistinguishedIn15(e: string, params: seq<string>, ignoreCase: bool, rest: Handler)
    requires GuardHolds(rest, params) && (Distinguished(rest) ==> DistinguishedName(e, ignoreCase))
    ensures Distinguished(Segment15(e, params, ignoreCase, rest)) ==> DistinguishedName(e, ignoreCase)
  {
    PlainIn15(e, params, ignoreCase, rest);
  }

  lemma DistinguishedIn14(e: string, params: seq<string>, ignoreCase: bool, rest: Handler)
    requires GuardHolds(rest, params) && (Distinguished(rest) ==> DistinguishedName(e, ignoreCase))
    ensures Distinguished(Segment14(e, params, ignoreCase, rest)) ==> DistinguishedName(e, ignoreCase)
  {
    PlainIn14(e, params, ignoreCase, rest);
  }


  lemma DistinguishedIn13(e: string, params: seq<string>, ignoreCase: bool, rest: Handler)
    requires GuardHolds(rest, params) && (Distinguished(rest) ==> DistinguishedName(e, ignoreCase))
    ensures Distinguished(Segment13(e, params, ignoreCase, rest)) ==> DistinguishedName(e, ignoreCase)
  {
  }

  lemma DistinguishedIn12(e: string, params: seq<string>, ignoreCase: bool, rest: Handler)
    requires GuardHolds(rest, params) && (Distinguished(rest) ==> DistinguishedName(e, ignoreCase))
    ensures Distinguished(Segment12(e, params, ignoreCase, rest)) ==> DistinguishedName(e, ignoreCase)
  {
  }

  lemma DistinguishedIn11(e: string, params: seq<string>, ignoreCase: bool, rest: Handler)
    requires GuardHolds(rest, params) && (Distinguished(rest) ==> DistinguishedName(e, ignoreCase))
    ensures Distinguished(Segment11(e, params, ignoreCase, rest)) ==> DistinguishedName(e, ignoreCase)
  {
  }

  lemma DistinguishedIn10(e: string, params: seq<string>, ignoreCase: bool, rest: Handler)
    requires GuardHolds(rest, params) && (Distinguished(rest) ==> DistinguishedName(e, ignoreCase))
    ensures Distinguished(Segment10(e, params, ignoreCase, rest)) ==> DistinguishedName(e, ignoreCase)
  {
  }

  lemma DistinguishedIn9(e: string, params: seq<string>, ignoreCase: bool, rest: Handler)
    requires GuardHolds(rest, params) && (Distinguished(rest) ==> DistinguishedName(e, ignoreCase))
    ensures Distinguished(Segment9(e, params, ignoreCase, rest)) ==> DistinguishedName(e, ignoreCase)
  {
  }

  lemma DistinguishedIn8(e: string, params: seq<string>, ignoreCase: bool, rest: Handler)
    requires GuardHolds(rest, params) && (Distinguished(rest) ==> DistinguishedName(e, ignoreCase))
    ensures Distinguished(Segment8(e, params, ignoreCase, rest)) ==> DistinguishedName(e, ignoreCase)
  {
    PlainIn8(e, params, ignoreCase, rest);
  }

  lemma DistinguishedIn7(e: string, params: seq<string>, ignoreCase: bool, rest: Handler)
    requires GuardHolds(rest, params) && (Distinguished(rest) ==> DistinguishedName(e, ignoreCase))
    ensures Distinguished(Segment7(e, params, ignoreCase, rest)) ==> DistinguishedName(e, ignoreCase)
  {
  }

  lemma DistinguishedIn6(e: string, params: seq<string>, ignoreCase: bool, rest: Handler)
    requires GuardHolds(rest, params) && (Distinguished(rest) ==> DistinguishedName(e, ignoreCase))
    ensures Distinguished(Segment6(e, params, ignoreCase, rest)) ==> DistinguishedName(e, ignoreCase)
  {
  }

  lemma DistinguishedIn5(e: string, params: seq<string>, ignoreCase: bool, rest: Handler)
    requires GuardHolds(rest, params) && (Distinguished(rest) ==> DistinguishedName(e, ignoreCase))
    ensures Distinguished(Segment5(e, params, ignoreCase, rest)) ==> DistinguishedName(e, ignoreCase)
  {
  }

  lemma DistinguishedIn4(e: string, params: seq<string>, ignoreCase: bool, rest: Handler)
    requires GuardHolds(rest, params) && (Distinguished(rest) ==> DistinguishedName(e, ignoreCase))
    ensures Distinguished(Segment4(e, params, ignoreCase, rest)) ==> DistinguishedName(e, ignoreCase)
  {
  }

  lemma DistinguishedIn3(e: string, params: seq<string>, ignoreCase: bool, rest: Handler)
    requires GuardHolds(rest, params) && (Distinguished(rest) ==> DistinguishedName(e, ignoreCase))
    ensures Distinguished(Segment3(e, params, ignoreCase, rest)) ==> DistinguishedName(e, ignoreCase)
  {
    PlainIn3(e, params, ignoreCase, rest);
  }

  lemma DistinguishedIn2(e: string, params: seq<string>, ignoreCase: bool, rest: Handler)
    requires GuardHolds(rest, params) && (Distinguished(rest) ==> DistinguishedName(e, ignoreCase))
    ensures Distinguished(Segment2(e, params, ignoreCase, rest)) ==> DistinguishedName(e, ignoreCase)
  {
    PlainIn2(e, params, ignoreCase, rest);
  }


  lemma DistinguishedIn1(e: string, params: seq<string>, ignoreCase: bool, rest: Handler)
    requires GuardHolds(rest, params) && (Distinguished(rest) ==> DistinguishedName(e, ignoreCase))
    ensures Distinguished(Segment1(e, params, ignoreCase, rest)) ==> DistinguishedName(e, ignoreCase)
  {
    PlainIn1(e, params, ignoreCase, rest);
  }

  // ---- segments without a distinguished or capitalized branch

  /** Segment1 selects no distinguished and no capitalized handler of its own. */
  lemma PlainIn1(e: string, params: seq<string>, ignoreCase: bool, rest: Handler)
    requires GuardHolds(rest, params)
    ensures var h := Segment1(e, params, ignoreCase, rest); h == rest || (!Distinguished(h) && !CapitalizedBranch(h))
  {
    var h := Segment1(e, params, ignoreCase, rest);
    assert h == rest || h.Reboot? || h.Shutdown? || h.Powerdown? || h.RestartApp? || h.Hibernate?;
  }

  /** Segment2 selects no distinguished and no capitalized handler of its own. */
  lemma PlainIn2(e: string, params: seq<string>, ignoreCase: bool, rest: Handler)
    requires GuardHolds(rest, params)
    ensures var h := Segment2(e, params, ignoreCase, rest); h == rest || (!Distinguished(h) && !CapitalizedBranch(h))
  {
    var h := Segment2(e, params, ignoreCase, rest);
    assert h == rest || h.Suspend? || h.Quit? || h.InhibitIdleShutdown? || h.ActivateScreensaver? || h.Minimize?;
  }

  /** Segment3 selects no distinguished and no capitalized handler of its own. */
  lemma PlainIn3(e: string, params: seq<string>, ignoreCase: bool, rest: Handler)
    requires GuardHolds(rest, params)
    ensures var h := Segment3(e, params, ignoreCase, rest); h == rest || (!Distinguished(h) && !CapitalizedBranch(h))
  {
    var h := Segment3(e, params, ignoreCase, rest);
    assert h == rest || h.LoadProfile? || h.MasterMode? || h.SetGuiLanguage? || h.TakeScreenshot? || h.ActivateWindow?;
  }

  /** Segment8 selects no distinguished and no capitalized handler of its own. */
  lemma PlainIn8(e: string, params: seq<string>, ignoreCase: bool, rest: Handler)
    requires GuardHolds(rest, params)
    ensures var h := Segment8(e, params, ignoreCase, rest); h == rest || (!Distinguished(h) && !CapitalizedBranch(h))
  {
    var h := Segment8(e, params, ignoreCase, rest);
    assert h == rest || h.SetVolume? || h.PlaylistPlayOffset? || h.PlaylistClear? || h.EjectTray? || h.AlarmClock?;
  }

  /** Segment14 selects no distinguished and no capitalized handler of its own. */
  lemma PlainIn14(e: string, params: seq<string>, ignoreCase: bool, rest: Handler)
    requires GuardHolds(rest, params)
    ensures var h := Segment14(e, params, ignoreCase, rest); h == rest || (!Distinguished(h) && !CapitalizedBranch(h))
  {
    var h := Segment14(e, params, ignoreCase, rest);
    assert h == rest || h.ContainerUpdate? || h.ContainerNextViewMode? || h.ContainerPreviousViewMode? || h.ContainerSetViewMode? || h.ContainerNextSortMethod?;
  }

  /** Segment15 selects no distinguished and no capitalized handler of its own. */
  lemma PlainIn15(e: string, params: seq<string>, ignoreCase: bool, rest: Handler)
    requires GuardHolds(rest, params)
    ensures var h := Segment15(e, params, ignoreCase, rest); h == rest || (!Distinguished(h) && !CapitalizedBranch(h))
  {
    var h := Segment15(e, params, ignoreCase, rest);
    assert h == rest || h.ContainerPreviousSortMethod? || h.ContainerSetSortMethod? || h.ContainerSortDirection? || h.ControlMessage? || h.SendClick?;
  }

  /** Segment17 selects no distinguished and no capitalized handler of its own. */
  lemma PlainIn17(e: string, params: seq<string>, ignoreCase: bool, rest: Handler)
    requires GuardHolds(rest, params)
    ensures var h := Segment17(e, params, ignoreCase, rest); h == rest || (!Distinguished(h) && !CapitalizedBranch(h))
  {
    var h := Segment17(e, params, ignoreCase, rest);
    assert h == rest || h.AddonDefaultSet? || h.AddonOpenSettings? || h.UpdateAddonRepos? || h.UpdateLocalAddons? || h.ToggleDpms?;
  }

  /** Segment19 selects no distinguished and no capitalized handler of its own. */
  lemma PlainIn19(e: string, params: seq<string>, ignoreCase: bool, rest: Handler)
    requires GuardHolds(rest, params)
    ensures var h := Segment19(e, params, ignoreCase, rest); h == rest || (!Distinguished(h) && !CapitalizedBranch(h))
  {
    var h := Segment19(e, params, ignoreCase, rest);
    assert h == rest || h.WeatherLocationPrevious? || h.WeatherRefresh? || h.VideoLibrarySearch? || h.ToggleDebug? || h.StartPvrManager?;
  }

  // ------------------------------------------------ names with a parameter test

  /*
   * Twenty-three branches test the parameters as well as the name (setfocus
   * needs one, alarmclock two, addon.default.set exactly one, SetStereoMode a
   * non-empty first one, ...). When the test fails the chain goes on past
   * them; no later branch compares the same name, so the call ends at Unknown.
   * GuardedNotIn<J> shows that segment J compares none of these names except
   * its own (split in parts where one proof would be too large),
   * OnlyInSegment<K> collects that for the names of segment K,
   * DecidedInSegment<K> reduces the chain to segment K for such a name, and
   * GuardedIn<K> gives the result of Classify for each of them.
   */

  lemma GuardedNotIn1(e: string, ignoreCase: bool)
    requires e == "setfocus" || e == "control.setfocus" || e == "activatewindowandfocus" || e == "replacewindowandfocus" || e == "runscript" || e == "extract" || e == "alarmclock" || e == "skin.setbool" || e == "skin.setaddon" || e == "dialog.close" || e == "updatelibrary" || e == "control.move" || e == "container.update" || e == "control.message" || e == "sendclick" || e == "action" || e == "setproperty" || e == "clearproperty" || e == "addon.default.opensettings" || e == "addon.default.set" || e == "addon.opensettings" || e == "startandroidactivity" || e == "setstereomode"
    ensures !NamedInSegment1(e, ignoreCase)
  {
  }

  lemma GuardedNotIn2(e: string, ignoreCase: bool)
    requires e == "setfocus" || e == "control.setfocus" || e == "activatewindowandfocus" || e == "replacewindowandfocus" || e == "runscript" || e == "extract" || e == "alarmclock" || e == "skin.setbool" || e == "skin.setaddon" || e == "dialog.close" || e == "updatelibrary" || e == "control.move" || e == "container.update" || e == "control.message" || e == "sendclick" || e == "action" || e == "setproperty" || e == "clearproperty" || e == "addon.default.opensettings" || e == "addon.default.set" || e == "addon.opensettings" || e == "startandroidactivity" || e == "setstereomode"
    ensures !NamedInSegment2(e, ignoreCase)
  {
  }

  lemma GuardedNotIn3(e: string, ignoreCase: bool)
    requires e == "setfocus" || e == "control.setfocus" || e == "activatewindowandfocus" || e == "replacewindowandfocus" || e == "runscript" || e == "extract" || e == "alarmclock" || e == "skin.setbool" || e == "skin.setaddon" || e == "dialog.close" || e == "updatelibrary" || e == "control.move" || e == "container.update" || e == "control.message" || e == "sendclick" || e == "action" || e == "setproperty" || e == "clearproperty" || e == "addon.default.opensettings" || e == "addon.default.set" || e == "addon.opensettings" || e == "startandroidactivity" || e == "setstereomode"
    ensures !NamedInSegment3(e, ignoreCase)
  {
  }

  lemma GuardedNotIn4(e: string, ignoreCase: bool)
    requires e == "extract" || e == "alarmclock" || e == "skin.setbool" || e == "skin.setaddon" || e == "dialog.close" || e == "updatelibrary" || e == "control.move" || e == "container.update" || e == "control.message" || e == "sendclick" || e == "action" || e == "setproperty" || e == "clearproperty" || e == "addon.default.opensettings" || e == "addon.default.set" || e == "addon.opensettings" || e == "startandroidactivity" || e == "setstereomode"
    ensures !NamedInSegment4(e, ignoreCase)
  {
  }

  lemma GuardedNotIn5(e: string, ignoreCase: bool)
    requires e == "setfocus" || e == "control.setfocus" || e == "activatewindowandfocus" || e == "replacewindowandfocus" || e == "runscript" || e == "alarmclock" || e == "skin.setbool" || e == "skin.setaddon" || e == "dialog.close" || e == "updatelibrary" || e == "control.move" || e == "container.update" || e == "control.message" || e == "sendclick" || e == "action" || e == "setproperty" || e == "clearproperty" || e == "addon.default.opensettings" || e == "addon.default.set" || e == "addon.opensettings" || e == "startandroidactivity" || e == "setstereomode"
    ensures !NamedInSegment5(e, ignoreCase)
  {
  }

  lemma GuardedNotIn6a(e: string, ignoreCase: bool)
    requires e == "setfocus" || e == "control.setfocus" || e == "activatewindowandfocus" || e == "replacewindowandfocus" || e == "runscript" || e == "extract" || e == "alarmclock" || e == "skin.setbool"
    ensures !NamedInSegment6(e, ignoreCase)
  {
    if e == "runscript" { DifferAt(e, "slideShow", 0, ignoreCase); }
  }

  lemma GuardedNotIn6b(e: string, ignoreCase: bool)
    requires e == "skin.setaddon" || e == "dialog.close" || e == "updatelibrary" || e == "control.move" || e == "container.update" || e == "control.message" || e == "sendclick" || e == "action"
    ensures !NamedInSegment6(e, ignoreCase)
  {
    if e == "sendclick" { DifferAt(e, "slideShow", 1, ignoreCase); }
  }

  lemma GuardedNotIn6c(e: string, ignoreCase: bool)
    requires e == "setproperty" || e == "clearproperty" || e == "addon.default.opensettings" || e == "addon.default.set" || e == "addon.opensettings" || e == "startandroidactivity" || e == "setstereomode"
    ensures !NamedInSegment6(e, ignoreCase)
  {
    if e == "setproperty" { DifferAt(e, "showPicture", 1, ignoreCase); }
    if e == "addon.opensettings" { DifferAt(e, "recursiveslideShow", 0, ignoreCase); }
  }

  lemma GuardedNotIn7(e: string, ignoreCase: bool)
    requires e == "setfocus" || e == "control.setfocus" || e == "activatewindowandfocus" || e == "replacewindowandfocus" || e == "runscript" || e == "extract" || e == "alarmclock" || e == "skin.setbool" || e == "skin.setaddon" || e == "dialog.close" || e == "updatelibrary" || e == "control.move" || e == "container.update" || e == "control.message" || e == "sendclick" || e == "action" || e == "setproperty" || e == "clearproperty" || e == "addon.default.opensettings" || e == "addon.default.set" || e == "addon.opensettings" || e == "startandroidactivity" || e == "setstereomode"
    ensures !NamedInSegment7(e, ignoreCase)
  {
  }

  lemma GuardedNotIn8(e: string, ignoreCase: bool)
    requires e == "setfocus" || e == "control.setfocus" || e == "activatewindowandfocus" || e == "replacewindowandfocus" || e == "runscript" || e == "extract" || e == "skin.setbool" || e == "skin.setaddon" || e == "dialog.close" || e == "updatelibrary" || e == "control.move" || e == "container.update" || e == "control.message" || e == "sendclick" || e == "action" || e == "setproperty" || e == "clearproperty" || e == "addon.default.opensettings" || e == "addon.default.set" || e == "addon.opensettings" || e == "startandroidactivity" || e == "setstereomode"
    ensures !NamedInSegment8(e, ignoreCase)
  {
  }

  lemma GuardedNotIn9(e: string, ignoreCase: bool)
    requires e == "setfocus" || e == "control.setfocus" || e == "activatewindowandfocus" || e == "replacewindowandfocus" || e == "runscript" || e == "extract" || e == "alarmclock" || e == "skin.setbool" || e == "skin.setaddon" || e == "dialog.close" || e == "updatelibrary" || e == "control.move" || e == "container.update" || e == "control.message" || e == "sendclick" || e == "action" || e == "setproperty" || e == "clearproperty" || e == "addon.default.opensettings" || e == "addon.default.set" || e == "addon.opensettings" || e == "startandroidactivity" || e == "setstereomode"
    ensures !NamedInSegment9(e, ignoreCase)
  {
  }

  lemma GuardedNotIn10(e: string, ignoreCase: bool)
    requires e == "setfocus" || e == "control.setfocus" || e == "activatewindowandfocus" || e == "replacewindowandfocus" || e == "runscript" || e == "extract" || e == "alarmclock" || e == "skin.setaddon" || e == "dialog.close" || e == "updatelibrary" || e == "control.move" || e == "container.update" || e == "control.message" || e == "sendclick" || e == "action" || e == "setproperty" || e == "clearproperty" || e == "addon.default.opensettings" || e == "addon.default.set" || e == "addon.opensettings" || e == "startandroidactivity" || e == "setstereomode"
    ensures !NamedInSegment10(e, ignoreCase)
  {
  }

  lemma GuardedNotIn11(e: string, ignoreCase: bool)
    requires e == "setfocus" || e == "control.setfocus" || e == "activatewindowandfocus" || e == "replacewindowandfocus" || e == "runscript" || e == "extract" || e == "alarmclock" || e == "skin.setbool" || e == "skin.setaddon" || e == "dialog.close" || e == "updatelibrary" || e == "control.move" || e == "container.update" || e == "control.message" || e == "sendclick" || e == "action" || e == "setproperty" || e == "clearproperty" || e == "addon.default.opensettings" || e == "addon.default.set" || e == "addon.opensettings" || e == "startandroidactivity" || e == "setstereomode"
    ensures !NamedInSegment11(e, ignoreCase)
  {
  }

  lemma GuardedNotIn12(e: string, ignoreCase: bool)
    requires e == "setfocus" || e == "control.setfocus" || e == "activatewindowandfocus" || e == "replacewindowandfocus" || e == "runscript" || e == "extract" || e == "alarmclock" || e == "skin.setbool" || e == "updatelibrary" || e == "control.move" || e == "container.update" || e == "control.message" || e == "sendclick" || e == "action" || e == "setproperty" || e == "clearproperty" || e == "addon.default.opensettings" || e == "addon.default.set" || e == "addon.opensettings" || e == "startandroidactivity" || e == "setstereomode"
    ensures !NamedInSegment12(e, ignoreCase)
  {
  }

  lemma GuardedNotIn13(e: string, ignoreCase: bool)
    requires e == "setfocus" || e == "control.setfocus" || e == "activatewindowandfocus" || e == "replacewindowandfocus" || e == "runscript" || e == "extract" || e == "alarmclock" || e == "skin.setbool" || e == "skin.setaddon" || e == "dialog.close" || e == "container.update" || e == "control.message" || e == "sendclick" || e == "action" || e == "setproperty" || e == "clearproperty" || e == "addon.default.opensettings" || e == "addon.default.set" || e == "addon.opensettings" || e == "startandroidactivity" || e == "setstereomode"
    ensures !NamedInSegment13(e, ignoreCase)
  {
  }

  lemma GuardedNotIn14(e: string, ignoreCase: bool)
    requires e == "setfocus" || e == "control.setfocus" || e == "activatewindowandfocus" || e == "replacewindowandfocus" || e == "runscript" || e == "extract" || e == "alarmclock" || e == "skin.setbool" || e == "skin.setaddon" || e == "dialog.close" || e == "updatelibrary" || e == "control.move" || e == "control.message" || e == "sendclick" || e == "action" || e == "setproperty" || e == "clearproperty" || e == "addon.default.opensettings" || e == "addon.default.set" || e == "addon.opensettings" || e == "startandroidactivity" || e == "setstereomode"
    ensures !NamedInSegment14(e, ignoreCase)
  {
  }

  lemma GuardedNotIn15(e: string, ignoreCase: bool)
    requires e == "setfocus" || e == "control.setfocus" || e == "activatewindowandfocus" || e == "replacewindowandfocus" || e == "runscript" || e == "extract" || e == "alarmclock" || e == "skin.setbool" || e == "skin.setaddon" || e == "dialog.close" || e == "updatelibrary" || e == "control.move" || e == "container.update" || e == "action" || e == "setproperty" || e == "clearproperty" || e == "addon.default.opensettings" || e == "addon.default.set" || e == "addon.opensettings" || e == "startandroidactivity" || e == "setstereomode"
    ensures !NamedInSegment15(e, ignoreCase)
  {
  }

  lemma GuardedNotIn16(e: string, ignoreCase: bool)
    requires e == "setfocus" || e == "control.setfocus" || e == "activatewindowandfocus" || e == "replacewindowandfocus" || e == "runscript" || e == "extract" || e == "alarmclock" || e == "skin.setbool" || e == "skin.setaddon" || e == "dialog.close" || e == "updatelibrary" || e == "control.move" || e == "container.update" || e == "control.message" || e == "sendclick" || e == "addon.default.set" || e == "addon.opensettings" || e == "startandroidactivity" || e == "setstereomode"
    ensures !NamedInSegment16(e, ignoreCase)
  {
  }

  lemma GuardedNotIn17(e: string, ignoreCase: bool)
    requires e == "setfocus" || e == "control.setfocus" || e == "activatewindowandfocus" || e == "replacewindowandfocus" || e == "runscript" || e == "extract" || e == "alarmclock" || e == "skin.setbool" || e == "skin.setaddon" || e == "dialog.close" || e == "updatelibrary" || e == "control.move" || e == "container.update" || e == "control.message" || e == "sendclick" || e == "action" || e == "setproperty" || e == "clearproperty" || e == "addon.default.opensettings" || e == "startandroidactivity" || e == "setstereomode"
    ensures !NamedInSegment17(e, ignoreCase)
  {
  }

  lemma GuardedNotIn18(e: string, ignoreCase: bool)
    requires e == "setfocus" || e == "control.setfocus" || e == "activatewindowandfocus" || e == "replacewindowandfocus" || e == "runscript" || e == "extract" || e == "alarmclock" || e == "skin.setbool" || e == "skin.setaddon" || e == "dialog.close" || e == "updatelibrary" || e == "control.move" || e == "container.update" || e == "control.message" || e == "sendclick" || e == "action" || e == "setproperty" || e == "clearproperty" || e == "addon.default.opensettings" || e == "addon.default.set" || e == "addon.opensettings" || e == "startandroidactivity" || e == "setstereomode"
    ensures !NamedInSegment18(e, ignoreCase)
  {
  }

  lemma GuardedNotIn19(e: string, ignoreCase: bool)
    requires e == "setfocus" || e == "control.setfocus" || e == "activatewindowandfocus" || e == "replacewindowandfocus" || e == "runscript" || e == "extract" || e == "alarmclock" || e == "skin.setbool" || e == "skin.setaddon" || e == "dialog.close" || e == "updatelibrary" || e == "control.move" || e == "container.update" || e == "control.message" || e == "sendclick" || e == "action" || e == "setproperty" || e == "clearproperty" || e == "addon.default.opensettings" || e == "addon.default.set" || e == "addon.opensettings" || e == "startandroidactivity" || e == "setstereomode"
    ensures !NamedInSegment19(e, ignoreCase)
  {
  }

  lemma GuardedNotIn20a(e: string, ignoreCase: bool)
    requires e == "setfocus" || e == "control.setfocus" || e == "activatewindowandfocus" || e == "replacewindowandfocus" || e == "runscript" || e == "extract" || e == "alarmclock" || e == "skin.setbool" || e == "skin.setaddon" || e == "dialog.close" || e == "updatelibrary"
    ensures !NamedInSegment20(e, ignoreCase)
  {
    if e == "skin.setaddon" { DifferAt(e, "SetStereoMode", 1, ignoreCase); }
    if e == "updatelibrary" { DifferAt(e, "SetStereoMode", 0, ignoreCase); }
  }

  lemma GuardedNotIn20b(e: string, ignoreCase: bool)
    requires e == "control.move" || e == "container.update" || e == "control.message" || e == "sendclick" || e == "action" || e == "setproperty" || e == "clearproperty" || e == "addon.default.opensettings" || e == "addon.default.set" || e == "addon.opensettings"
    ensures !NamedInSegment20(e, ignoreCase)
  {
    if e == "clearproperty" { DifferAt(e, "SetStereoMode", 0, ignoreCase); }
  }

  /** No segment but segment 4 compares `e`. */
  predicate NotNamedOutside4(e: string, ignoreCase: bool) {
    !NamedInSegment1(e, ignoreCase) && !NamedInSegment2(e, ignoreCase) && !NamedInSegment3(e, ignoreCase) && !NamedInSegment5(e, ignoreCase) && !NamedInSegment6(e, ignoreCase) && !NamedInSegment7(e, ignoreCase) && !NamedInSegment8(e, ignoreCase) && !NamedInSegment9(e, ignoreCase) && !NamedInSegment10(e, ignoreCase) && !NamedInSegment11(e, ignoreCase) && !NamedInSegment12(e, ignoreCase) && !NamedInSegment13(e, ignoreCase) && !NamedInSegment14(e, ignoreCase) && !NamedInSegment15(e, ignoreCase) && !NamedInSegment16(e, ignoreCase) && !NamedInSegment17(e, ignoreCase) && !NamedInSegment18(e, ignoreCase) && !NamedInSegment19(e, ignoreCase) && !NamedInSegment20(e, ignoreCase)
  }

  /** setfocus, control.setfocus, activatewindowandfocus, replacewindowandfocus, runscript: compared in no branch outside segment 4. */
  lemma OnlyInSegment4(e: string, ignoreCase: bool)
    requires e == "setfocus" || e == "control.setfocus" || e == "activatewindowandfocus" || e == "replacewindowandfocus" || e == "runscript"
    ensures NotNamedOutside4(e, ignoreCase)
  {
    GuardedNotIn1(e, ignoreCase);
    GuardedNotIn2(e, ignoreCase);
    GuardedNotIn3(e, ignoreCase);
    GuardedNotIn5(e, ignoreCase);
    GuardedNotIn6a(e, ignoreCase);
    GuardedNotIn7(e, ignoreCase);
    GuardedNotIn8(e, ignoreCase);
    GuardedNotIn9(e, ignoreCase);
    GuardedNotIn10(e, ignoreCase);
    GuardedNotIn11(e, ignoreCase);
    GuardedNotIn12(e, ignoreCase);
    GuardedNotIn13(e, ignoreCase);
    GuardedNotIn14(e, ignoreCase);
    GuardedNotIn15(e, ignoreCase);
    GuardedNotIn16(e, ignoreCase);
    GuardedNotIn17(e, ignoreCase);
    GuardedNotIn18(e, ignoreCase);
    GuardedNotIn19(e, ignoreCase);
    GuardedNotIn20a(e, ignoreCase);
  }

  /** When no other segment compares the name, the chain returns what segment 4 selects. */
  lemma DecidedInSegment4(e: string, params: seq<string>, ignoreCase: bool)
    requires NotNamedOutside4(e, ignoreCase)
    ensures Classify(e, params, ignoreCase) == Segment4(e, params, ignoreCase, Unknown)
  {
    var p, ic := params, ignoreCase;
    Segment20FallsThrough(e, p, ic, Unknown);
    var r20 := Segment20(e, p, ic, Unknown);
    Segment19FallsThrough(e, p, ic, r20);
    var r19 := Segment19(e, p, ic, r20);
    Segment18FallsThrough(e, p, ic, r19);
    var r18 := Segment18(e, p, ic, r19);
    Segment17FallsThrough(e, p, ic, r18);
    var r17 := Segment17(e, p, ic, r18);
    Segment16FallsThrough(e, p, ic, r17);
    var r16 := Segment16(e, p, ic, r17);
    Segment15FallsThrough(e, p, ic, r16);
    var r15 := Segment15(e, p, ic, r16);
    Segment14FallsThrough(e, p, ic, r15);
    var r14 := Segment14(e, p, ic, r15);
    Segment13FallsThrough(e, p, ic, r14);
    var r13 := Segment13(e, p, ic, r14);
    Segment12FallsThrough(e, p, ic, r13);
    var r12 := Segment12(e, p, ic, r13);
    Segment11FallsThrough(e, p, ic, r12);
    var r11 := Segment11(e, p, ic, r12);
    Segment10FallsThrough(e, p, ic, r11);
    var r10 := Segment10(e, p, ic, r11);
    Segment9FallsThrough(e, p, ic, r10);
    var r9 := Segment9(e, p, ic, r10);
    Segment8FallsThrough(e, p, ic, r9);
    var r8 := Segment8(e, p, ic, r9);
    Segment7FallsThrough(e, p, ic, r8);
    var r7 := Segment7(e, p, ic, r8);
    Segment6FallsThrough(e, p, ic, r7);
    var r6 := Segment6(e, p, ic, r7);
    Segment5FallsThrough(e, p, ic, r6);
    var r5 := Segment5(e, p, ic, r6);
    var r4 := Segment4(e, p, ic, r5);
    Segment3FallsThrough(e, p, ic, r4);
    var r3 := Segment3(e, p, ic, r4);
    Segment2FallsThrough(e, p, ic, r3);
    var r2 := Segment2(e, p, ic, r3);
    Segment1FallsThrough(e, p, ic, r2);
    var r1 := Segment1(e, p, ic, r2);
  }

  lemma GuardedBranch4(e: string, params: seq<string>, ignoreCase: bool, rest: Handler)
    requires GuardHolds(rest, params)
    ensures e == "setfocus" ==> Segment4(e, params, ignoreCase, rest) == if |params| > 0 then SetFocus else rest
    ensures e == "control.setfocus" ==> Segment4(e, params, ignoreCase, rest) == if |params| > 0 then SetFocus else rest
    ensures e == "activatewindowandfocus" ==> Segment4(e, params, ignoreCase, rest) == if |params| > 0 then ActivateWindowAndFocus(false) else rest
    ensures e == "replacewindowandfocus" ==> Segment4(e, params, ignoreCase, rest) == if |params| > 0 then ActivateWindowAndFocus(true) else rest
    ensures e == "runscript" ==> Segment4(e, params, ignoreCase, rest) == if |params| > 0 then RunScript else rest
  {
  }

  /** The names of segment 4 whose branch also tests the parameters: each selects its handler when the test passes and falls through to Unknown otherwise. */
  lemma GuardedIn4(e: string, params: seq<string>, ignoreCase: bool)
    requires e == "setfocus" || e == "control.setfocus" || e == "activatewindowandfocus" || e == "replacewindowandfocus" || e == "runscript"
    ensures e == "setfocus" ==> Classify(e, params, ignoreCase) == if |params| > 0 then SetFocus else Unknown
    ensures e == "control.setfocus" ==> Classify(e, params, ignoreCase) == if |params| > 0 then SetFocus else Unknown
    ensures e == "activatewindowandfocus" ==> Classify(e, params, ignoreCase) == if |params| > 0 then ActivateWindowAndFocus(false) else Unknown
    ensures e == "replacewindowandfocus" ==> Classify(e, params, ignoreCase) == if |params| > 0 then ActivateWindowAndFocus(true) else Unknown
    ensures e == "runscript" ==> Classify(e, params, ignoreCase) == if |params| > 0 then RunScript else Unknown
  {
    OnlyInSegment4(e, ignoreCase);
    DecidedInSegment4(e, params, ignoreCase);
    GuardedBranch4(e, params, ignoreCase, Unknown);
  }

  /** No segment but segment 5 compares `e`. */
  predicate NotNamedOutside5(e: string, ignoreCase: bool) {
    !NamedInSegment1(e, ignoreCase) && !NamedInSegment2(e, ignoreCase) && !NamedInSegment3(e, ignoreCase) && !NamedInSegment4(e, ignoreCase) && !NamedInSegment6(e, ignoreCase) && !NamedInSegment7(e, ignoreCase) && !NamedInSegment8(e, ignoreCase) && !NamedInSegment9(e, ignoreCase) && !NamedInSegment10(e, ignoreCase) && !NamedInSegment11(e, ignoreCase) && !NamedInSegment12(e, ignoreCase) && !NamedInSegment13(e, ignoreCase) && !NamedInSegment14(e, ignoreCase) && !NamedInSegment15(e, ignoreCase) && !NamedInSegment16(e, ignoreCase) && !NamedInSegment17(e, ignoreCase) && !NamedInSegment18(e, ignoreCase) && !NamedInSegment19(e, ignoreCase) && !NamedInSegment20(e, ignoreCase)
  }

  /** extract: compared in no branch outside segment 5. */
  lemma OnlyInSegment5(e: string, ignoreCase: bool)
    requires e == "extract"
    ensures NotNamedOutside5(e, ignoreCase)
  {
    GuardedNotIn1(e, ignoreCase);
    GuardedNotIn2(e, ignoreCase);
    GuardedNotIn3(e, ignoreCase);
    GuardedNotIn4(e, ignoreCase);
    GuardedNotIn6a(e, ignoreCase);
    GuardedNotIn7(e, ignoreCase);
    GuardedNotIn8(e, ignoreCase);
    GuardedNotIn9(e, ignoreCase);
    GuardedNotIn10(e, ignoreCase);
    GuardedNotIn11(e, ignoreCase);
    GuardedNotIn12(e, ignoreCase);
    GuardedNotIn13(e, ignoreCase);
    GuardedNotIn14(e, ignoreCase);
    GuardedNotIn15(e, ignoreCase);
    GuardedNotIn16(e, ignoreCase);
    GuardedNotIn17(e, ignoreCase);
    GuardedNotIn18(e, ignoreCase);
    GuardedNotIn19(e, ignoreCase);
    GuardedNotIn20a(e, ignoreCase);
  }

  /** When no other segment compares the name, the chain returns what segment 5 selects. */
  lemma DecidedInSegment5(e: string, params: seq<string>, ignoreCase: bool)
    requires NotNamedOutside5(e, ignoreCase)
    ensures Classify(e, params, ignoreCase) == Segment5(e, params, ignoreCase, Unknown)
  {
    var p, ic := params, ignoreCase;
    Segment20FallsThrough(e, p, ic, Unknown);
    var r20 := Segment20(e, p, ic, Unknown);
    Segment19FallsThrough(e, p, ic, r20);
    var r19 := Segment19(e, p, ic, r20);
    Segment18FallsThrough(e, p, ic, r19);
    var r18 := Segment18(e, p, ic, r19);
    Segment17FallsThrough(e, p, ic, r18);
    var r17 := Segment17(e, p, ic, r18);
    Segment16FallsThrough(e, p, ic, r17);
    var r16 := Segment16(e, p, ic, r17);
    Segment15FallsThrough(e, p, ic, r16);
    var r15 := Segment15(e, p, ic, r16);
    Segment14FallsThrough(e, p, ic, r15);
    var r14 := Segment14(e, p, ic, r15);
    Segment13FallsThrough(e, p, ic, r14);
    var r13 := Segment13(e, p, ic, r14);
    Segment12FallsThrough(e, p, ic, r13);
    var r12 := Segment12(e, p, ic, r13);
    Segment11FallsThrough(e, p, ic, r12);
    var r11 := Segment11(e, p, ic, r12);
    Segment10FallsThrough(e, p, ic, r11);
    var r10 := Segment10(e, p, ic, r11);
    Segment9FallsThrough(e, p, ic, r10);
    var r9 := Segment9(e, p, ic, r10);
    Segment8FallsThrough(e, p, ic, r9);
    var r8 := Segment8(e, p, ic, r9);
    Segment7FallsThrough(e, p, ic, r8);
    var r7 := Segment7(e, p, ic, r8);
    Segment6FallsThrough(e, p, ic, r7);
    var r6 := Segment6(e, p, ic, r7);
    var r5 := Segment5(e, p, ic, r6);
    Segment4FallsThrough(e, p, ic, r5);
    var r4 := Segment4(e, p, ic, r5);
    Segment3FallsThrough(e, p, ic, r4);
    var r3 := Segment3(e, p, ic, r4);
    Segment2FallsThrough(e, p, ic, r3);
    var r2 := Segment2(e, p, ic, r3);
    Segment1FallsThrough(e, p, ic, r2);
    var r1 := Segment1(e, p, ic, r2);
  }

  lemma GuardedBranch5(e: string, params: seq<string>, ignoreCase: bool, rest: Handler)
    requires GuardHolds(rest, params)
    ensures e == "extract" ==> Segment5(e, params, ignoreCase, rest) == if |params| > 0 then Extract else rest
  {
  }

  /** The names of segment 5 whose branch also tests the parameters: each selects its handler when the test passes and falls through to Unknown otherwise. */
  lemma GuardedIn5(e: string, params: seq<string>, ignoreCase: bool)
    requires e == "extract"
    ensures Classify(e, params, ignoreCase) == if |params| > 0 then Extract else Unknown
  {
    OnlyInSegment5(e, ignoreCase);
    DecidedInSegment5(e, params, ignoreCase);
    GuardedBranch5(e, params, ignoreCase, Unknown);
  }

  /** No segment but segment 8 compares `e`. */
  predicate NotNamedOutside8(e: string, ignoreCase: bool) {
    !NamedInSegment1(e, ignoreCase) && !NamedInSegment2(e, ignoreCase) && !NamedInSegment3(e, ignoreCase) && !NamedInSegment4(e, ignoreCase) && !NamedInSegment5(e, ignoreCase) && !NamedInSegment6(e, ignoreCase) && !NamedInSegment7(e, ignoreCase) && !NamedInSegment9(e, ignoreCase) && !NamedInSegment10(e, ignoreCase) && !NamedInSegment11(e, ignoreCase) && !NamedInSegment12(e, ignoreCase) && !NamedInSegment13(e, ignoreCase) && !NamedInSegment14(e, ignoreCase) && !NamedInSegment15(e, ignoreCase) && !NamedInSegment16(e, ignoreCase) && !NamedInSegment17(e, ignoreCase) && !NamedInSegment18(e, ignoreCase) && !NamedInSegment19(e, ignoreCase) && !NamedInSegment20(e, ignoreCase)
  }

  /** alarmclock: compared in no branch outside segment 8. */
  lemma OnlyInSegment8(e: string, ignoreCase: bool)
    requires e == "alarmclock"
    ensures NotNamedOutside8(e, ignoreCase)
  {
    GuardedNotIn1(e, ignoreCase);
    GuardedNotIn2(e, ignoreCase);
    GuardedNotIn3(e, ignoreCase);
    GuardedNotIn4(e, ignoreCase);
    GuardedNotIn5(e, ignoreCase);
    GuardedNotIn6a(e, ignoreCase);
    GuardedNotIn7(e, ignoreCase);
    GuardedNotIn9(e, ignoreCase);
    GuardedNotIn10(e, ignoreCase);
    GuardedNotIn11(e, ignoreCase);
    GuardedNotIn12(e, ignoreCase);
    GuardedNotIn13(e, ignoreCase);
    GuardedNotIn14(e, ignoreCase);
    GuardedNotIn15(e, ignoreCase);
    GuardedNotIn16(e, ignoreCase);
    GuardedNotIn17(e, ignoreCase);
    GuardedNotIn18(e, ignoreCase);
    GuardedNotIn19(e, ignoreCase);
    GuardedNotIn20a(e, ignoreCase);
  }

  /** When no other segment compares the name, the chain returns what segment 8 selects. */
  lemma DecidedInSegment8(e: string, params: seq<string>, ignoreCase: bool)
    requires NotNamedOutside8(e, ignoreCase)
    ensures Classify(e, params, ignoreCase) == Segment8(e, params, ignoreCase, Unknown)
  {
    var p, ic := params, ignoreCase;
    Segment20FallsThrough(e, p, ic, Unknown);
    var r20 := Segment20(e, p, ic, Unknown);
    Segment19FallsThrough(e, p, ic, r20);
    var r19 := Segment19(e, p, ic, r20);
    Segment18FallsThrough(e, p, ic, r19);
    var r18 := Segment18(e, p, ic, r19);
    Segment17FallsThrough(e, p, ic, r18);
    var r17 := Segment17(e, p, ic, r18);
    Segment16FallsThrough(e, p, ic, r17);
    var r16 := Segment16(e, p, ic, r17);
    Segment15FallsThrough(e, p, ic, r16);
    var r15 := Segment15(e, p, ic, r16);
    Segment14FallsThrough(e, p, ic, r15);
    var r14 := Segment14(e, p, ic, r15);
    Segment13FallsThrough(e, p, ic, r14);
    var r13 := Segment13(e, p, ic, r14);
    Segment12FallsThrough(e, p, ic, r13);
    var r12 := Segment12(e, p, ic, r13);
    Segment11FallsThrough(e, p, ic, r12);
    var r11 := Segment11(e, p, ic, r12);
    Segment10FallsThrough(e, p, ic, r11);
    var r10 := Segment10(e, p, ic, r11);
    Segment9FallsThrough(e, p, ic, r10);
    var r9 := Segment9(e, p, ic, r10);
    var r8 := Segment8(e, p, ic, r9);
    Segment7FallsThrough(e, p, ic, r8);
    var r7 := Segment7(e, p, ic, r8);
    Segment6FallsThrough(e, p, ic, r7);
    var r6 := Segment6(e, p, ic, r7);
    Segment5FallsThrough(e, p, ic, r6);
    var r5 := Segment5(e, p, ic, r6);
    Segment4FallsThrough(e, p, ic, r5);
    var r4 := Segment4(e, p, ic, r5);
    Segment3FallsThrough(e, p, ic, r4);
    var r3 := Segment3(e, p, ic, r4);
    Segment2FallsThrough(e, p, ic, r3);
    var r2 := Segment2(e, p, ic, r3);
    Segment1FallsThrough(e, p, ic, r2);
    var r1 := Segment1(e, p, ic, r2);
  }

  lemma GuardedBranch8(e: string, params: seq<string>, ignoreCase: bool, rest: Handler)
    requires GuardHolds(rest, params)
    ensures e == "alarmclock" ==> Segment8(e, params, ignoreCase, rest) == if |params| > 1 then AlarmClock else rest
  {
  }

  /** The names of segment 8 whose branch also tests the parameters: each selects its handler when the test passes and falls through to Unknown otherwise. */
  lemma GuardedIn8(e: string, params: seq<string>, ignoreCase: bool)
    requires e == "alarmclock"
    ensures Classify(e, params, ignoreCase) == if |params| > 1 then AlarmClock else Unknown
  {
    OnlyInSegment8(e, ignoreCase);
    DecidedInSegment8(e, params, ignoreCase);
    GuardedBranch8(e, params, ignoreCase, Unknown);
  }

  /** No segment but segment 10 compares `e`. */
  predicate NotNamedOutside10(e: string, ignoreCase: bool) {
    !NamedInSegment1(e, ignoreCase) && !NamedInSegment2(e, ignoreCase) && !NamedInSegment3(e, ignoreCase) && !NamedInSegment4(e, ignoreCase) && !NamedInSegment5(e, ignoreCase) && !NamedInSegment6(e, ignoreCase) && !NamedInSegment7(e, ignoreCase) && !NamedInSegment8(e, ignoreCase) && !NamedInSegment9(e, ignoreCase) && !NamedInSegment11(e, ignoreCase) && !NamedInSegment12(e, ignoreCase) && !NamedInSegment13(e, ignoreCase) && !NamedInSegment14(e, ignoreCase) && !NamedInSegment15(e, ignoreCase) && !NamedInSegment16(e, ignoreCase) && !NamedInSegment17(e, ignoreCase) && !NamedInSegment18(e, ignoreCase) && !NamedInSegment19(e, ignoreCase) && !NamedInSegment20(e, ignoreCase)
  }

  /** skin.setbool: compared in no branch outside segment 10. */
  lemma OnlyInSegment10(e: string, ignoreCase: bool)
    requires e == "skin.setbool"
    ensures NotNamedOutside10(e, ignoreCase)
  {
    GuardedNotIn1(e, ignoreCase);
    GuardedNotIn2(e, ignoreCase);
    GuardedNotIn3(e, ignoreCase);
    GuardedNotIn4(e, ignoreCase);
    GuardedNotIn5(e, ignoreCase);
    GuardedNotIn6a(e, ignoreCase);
    GuardedNotIn7(e, ignoreCase);
    GuardedNotIn8(e, ignoreCase);
    GuardedNotIn9(e, ignoreCase);
    GuardedNotIn11(e, ignoreCase);
    GuardedNotIn12(e, ignoreCase);
    GuardedNotIn13(e, ignoreCase);
    GuardedNotIn14(e, ignoreCase);
    GuardedNotIn15(e, ignoreCase);
    GuardedNotIn16(e, ignoreCase);
    GuardedNotIn17(e, ignoreCase);
    GuardedNotIn18(e, ignoreCase);
    GuardedNotIn19(e, ignoreCase);
    GuardedNotIn20a(e, ignoreCase);
  }

  /** When no other segment compares the name, the chain returns what segment 10 selects. */
  lemma DecidedInSegment10(e: string, params: seq<string>, ignoreCase: bool)
    requires NotNamedOutside10(e, ignoreCase)
    ensures Classify(e, params, ignoreCase) == Segment10(e, params, ignoreCase, Unknown)
  {
    var p, ic := params, ignoreCase;
    Segment20FallsThrough(e, p, ic, Unknown);
    var r20 := Segment20(e, p, ic, Unknown);
    Segment19FallsThrough(e, p, ic, r20);
    var r19 := Segment19(e, p, ic, r20);
    Segment18FallsThrough(e, p, ic, r19);
    var r18 := Segment18(e, p, ic, r19);
    Segment17FallsThrough(e, p, ic, r18);
    var r17 := Segment17(e, p, ic, r18);
    Segment16FallsThrough(e, p, ic, r17);
    var r16 := Segment16(e, p, ic, r17);
    Segment15FallsThrough(e, p, ic, r16);
    var r15 := Segment15(e, p, ic, r16);
    Segment14FallsThrough(e, p, ic, r15);
    var r14 := Segment14(e, p, ic, r15);
    Segment13FallsThrough(e, p, ic, r14);
    var r13 := Segment13(e, p, ic, r14);
    Segment12FallsThrough(e, p, ic, r13);
    var r12 := Segment12(e, p, ic, r13);
    Segment11FallsThrough(e, p, ic, r12);
    var r11 := Segment11(e, p, ic, r12);
    var r10 := Segment10(e, p, ic, r11);
    Segment9FallsThrough(e, p, ic, r10);
    var r9 := Segment9(e, p, ic, r10);
    Segment8FallsThrough(e, p, ic, r9);
    var r8 := Segment8(e, p, ic, r9);
    Segment7FallsThrough(e, p, ic, r8);
    var r7 := Segment7(e, p, ic, r8);
    Segment6FallsThrough(e, p, ic, r7);
    var r6 := Segment6(e, p, ic, r7);
    Segment5FallsThrough(e, p, ic, r6);
    var r5 := Segment5(e, p, ic, r6);
    Segment4FallsThrough(e, p, ic, r5);
    var r4 := Segment4(e, p, ic, r5);
    Segment3FallsThrough(e, p, ic, r4);
    var r3 := Segment3(e, p, ic, r4);
    Segment2FallsThrough(e, p, ic, r3);
    var r2 := Segment2(e, p, ic, r3);
    Segment1FallsThrough(e, p, ic, r2);
    var r1 := Segment1(e, p, ic, r2);
  }

  lemma GuardedBranch10(e: string, params: seq<string>, ignoreCase: bool, rest: Handler)
    requires GuardHolds(rest, params)
    ensures e == "skin.setbool" ==> Segment10(e, params, ignoreCase, rest) == if |params| > 0 then SkinSetBool else rest
  {
  }

  /** The names of segment 10 whose branch also tests the parameters: each selects its handler when the test passes and falls through to Unknown otherwise. */
  lemma GuardedIn10(e: string, params: seq<string>, ignoreCase: bool)
    requires e == "skin.setbool"
    ensures Classify(e, params, ignoreCase) == if |params| > 0 then SkinSetBool else Unknown
  {
    OnlyInSegment10(e, ignoreCase);
    DecidedInSegment10(e, params, ignoreCase);
    GuardedBranch10(e, params, ignoreCase, Unknown);
  }

  /** No segment but segment 12 compares `e`. */
  predicate NotNamedOutside12(e: string, ignoreCase: bool) {
    !NamedInSegment1(e, ignoreCase) && !NamedInSegment2(e, ignoreCase) && !NamedInSegment3(e, ignoreCase) && !NamedInSegment4(e, ignoreCase) && !NamedInSegment5(e, ignoreCase) && !NamedInSegment6(e, ignoreCase) && !NamedInSegment7(e, ignoreCase) && !NamedInSegment8(e, ignoreCase) && !NamedInSegment9(e, ignoreCase) && !NamedInSegment10(e, ignoreCase) && !NamedInSegment11(e, ignoreCase) && !NamedInSegment13(e, ignoreCase) && !NamedInSegment14(e, ignoreCase) && !NamedInSegment15(e, ignoreCase) && !NamedInSegment16(e, ignoreCase) && !NamedInSegment17(e, ignoreCase) && !NamedInSegment18(e, ignoreCase) && !NamedInSegment19(e, ignoreCase) && !NamedInSegment20(e, ignoreCase)
  }

  /** skin.setaddon, dialog.close: compared in no branch outside segment 12. */
  lemma OnlyInSegment12(e: string, ignoreCase: bool)
    requires e == "skin.setaddon" || e == "dialog.close"
    ensures NotNamedOutside12(e, ignoreCase)
  {
    GuardedNotIn1(e, ignoreCase);
    GuardedNotIn2(e, ignoreCase);
    GuardedNotIn3(e, ignoreCase);
    GuardedNotIn4(e, ignoreCase);
    GuardedNotIn5(e, ignoreCase);
    GuardedNotIn6b(e, ignoreCase);
    GuardedNotIn7(e, ignoreCase);
    GuardedNotIn8(e, ignoreCase);
    GuardedNotIn9(e, ignoreCase);
    GuardedNotIn10(e, ignoreCase);
    GuardedNotIn11(e, ignoreCase);
    GuardedNotIn13(e, ignoreCase);
    GuardedNotIn14(e, ignoreCase);
    GuardedNotIn15(e, ignoreCase);
    GuardedNotIn16(e, ignoreCase);
    GuardedNotIn17(e, ignoreCase);
    GuardedNotIn18(e, ignoreCase);
    GuardedNotIn19(e, ignoreCase);
    GuardedNotIn20a(e, ignoreCase);
  }

  /** When no other segment compares the name, the chain returns what segment 12 selects. */
  lemma DecidedInSegment12(e: string, params: seq<string>, ignoreCase: bool)
    requires NotNamedOutside12(e, ignoreCase)
    ensures Classify(e, params, ignoreCase) == Segment12(e, params, ignoreCase, Unknown)
  {
    var p, ic := params, ignoreCase;
    Segment20FallsThrough(e, p, ic, Unknown);
    var r20 := Segment20(e, p, ic, Unknown);
    Segment19FallsThrough(e, p, ic, r20);
    var r19 := Segment19(e, p, ic, r20);
    Segment18FallsThrough(e, p, ic, r19);
    var r18 := Segment18(e, p, ic, r19);
    Segment17FallsThrough(e, p, ic, r18);
    var r17 := Segment17(e, p, ic, r18);
    Segment16FallsThrough(e, p, ic, r17);
    var r16 := Segment16(e, p, ic, r17);
    Segment15FallsThrough(e, p, ic, r16);
    var r15 := Segment15(e, p, ic, r16);
    Segment14FallsThrough(e, p, ic, r15);
    var r14 := Segment14(e, p, ic, r15);
    Segment13FallsThrough(e, p, ic, r14);
    var r13 := Segment13(e, p, ic, r14);
    var r12 := Segment12(e, p, ic, r13);
    Segment11FallsThrough(e, p, ic, r12);
    var r11 := Segment11(e, p, ic, r12);
    Segment10FallsThrough(e, p, ic, r11);
    var r10 := Segment10(e, p, ic, r11);
    Segment9FallsThrough(e, p, ic, r10);
    var r9 := Segment9(e, p, ic, r10);
    Segment8FallsThrough(e, p, ic, r9);
    var r8 := Segment8(e, p, ic, r9);
    Segment7FallsThrough(e, p, ic, r8);
    var r7 := Segment7(e, p, ic, r8);
    Segment6FallsThrough(e, p, ic, r7);
    var r6 := Segment6(e, p, ic, r7);
    Segment5FallsThrough(e, p, ic, r6);
    var r5 := Segment5(e, p, ic, r6);
    Segment4FallsThrough(e, p, ic, r5);
    var r4 := Segment4(e, p, ic, r5);
    Segment3FallsThrough(e, p, ic, r4);
    var r3 := Segment3(e, p, ic, r4);
    Segment2FallsThrough(e, p, ic, r3);
    var r2 := Segment2(e, p, ic, r3);
    Segment1FallsThrough(e, p, ic, r2);
    var r1 := Segment1(e, p, ic, r2);
  }

  lemma GuardedBranch12(e: string, params: seq<string>, ignoreCase: bool, rest: Handler)
    requires GuardHolds(rest, params)
    ensures e == "skin.setaddon" ==> Segment12(e, params, ignoreCase, rest) == if |params| > 1 then SkinSetAddon else rest
    ensures e == "dialog.close" ==> Segment12(e, params, ignoreCase, rest) == if |params| > 0 then DialogClose else rest
  {
  }

  /** The names of segment 12 whose branch also tests the parameters: each selects its handler when the test passes and falls through to Unknown otherwise. */
  lemma GuardedIn12(e: string, params: seq<string>, ignoreCase: bool)
    requires e == "skin.setaddon" || e == "dialog.close"
    ensures e == "skin.setaddon" ==> Classify(e, params, ignoreCase) == if |params| > 1 then SkinSetAddon else Unknown
    ensures e == "dialog.close" ==> Classify(e, params, ignoreCase) == if |params| > 0 then DialogClose else Unknown
  {
    OnlyInSegment12(e, ignoreCase);
    DecidedInSegment12(e, params, ignoreCase);
    GuardedBranch12(e, params, ignoreCase, Unknown);
  }

  /** No segment but segment 13 compares `e`. */
  predicate NotNamedOutside13(e: string, ignoreCase: bool) {
    !NamedInSegment1(e, ignoreCase) && !NamedInSegment2(e, ignoreCase) && !NamedInSegment3(e, ignoreCase) && !NamedInSegment4(e, ignoreCase) && !NamedInSegment5(e, ignoreCase) && !NamedInSegment6(e, ignoreCase) && !NamedInSegment7(e, ignoreCase) && !NamedInSegment8(e, ignoreCase) && !NamedInSegment9(e, ignoreCase) && !NamedInSegment10(e, ignoreCase) && !NamedInSegment11(e, ignoreCase) && !NamedInSegment12(e, ignoreCase) && !NamedInSegment14(e, ignoreCase) && !NamedInSegment15(e, ignoreCase) && !NamedInSegment16(e, ignoreCase) && !NamedInSegment17(e, ignoreCase) && !NamedInSegment18(e, ignoreCase) && !NamedInSegment19(e, ignoreCase) && !NamedInSegment20(e, ignoreCase)
  }

  /** updatelibrary, control.move: compared in no branch outside segment 13. */
  lemma OnlyInSegment13(e: string, ignoreCase: bool)
    requires e == "updatelibrary" || e == "control.move"
    ensures NotNamedOutside13(e, ignoreCase)
  {
    GuardedNotIn1(e, ignoreCase);
    GuardedNotIn2(e, ignoreCase);
    GuardedNotIn3(e, ignoreCase);
    GuardedNotIn4(e, ignoreCase);
    GuardedNotIn5(e, ignoreCase);
    GuardedNotIn6b(e, ignoreCase);
    GuardedNotIn7(e, ignoreCase);
    GuardedNotIn8(e, ignoreCase);
    GuardedNotIn9(e, ignoreCase);
    GuardedNotIn10(e, ignoreCase);
    GuardedNotIn11(e, ignoreCase);
    GuardedNotIn12(e, ignoreCase);
    GuardedNotIn14(e, ignoreCase);
    GuardedNotIn15(e, ignoreCase);
    GuardedNotIn16(e, ignoreCase);
    GuardedNotIn17(e, ignoreCase);
    GuardedNotIn18(e, ignoreCase);
    GuardedNotIn19(e, ignoreCase);
    if e == "updatelibrary" { GuardedNotIn20a(e, ignoreCase); }
    if e == "control.move" { GuardedNotIn20b(e, ignoreCase); }
  }

  /** When no other segment compares the name, the chain returns what segment 13 selects. */
  lemma DecidedInSegment13(e: string, params: seq<string>, ignoreCase: bool)
    requires NotNamedOutside13(e, ignoreCase)
    ensures Classify(e, params, ignoreCase) == Segment13(e, params, ignoreCase, Unknown)
  {
    var p, ic := params, ignoreCase;
    Segment20FallsThrough(e, p, ic, Unknown);
    var r20 := Segment20(e, p, ic, Unknown);
    Segment19FallsThrough(e, p, ic, r20);
    var r19 := Segment19(e, p, ic, r20);
    Segment18FallsThrough(e, p, ic, r19);
    var r18 := Segment18(e, p, ic, r19);
    Segment17FallsThrough(e, p, ic, r18);
    var r17 := Segment17(e, p, ic, r18);
    Segment16FallsThrough(e, p, ic, r17);
    var r16 := Segment16(e, p, ic, r17);
    Segment15FallsThrough(e, p, ic, r16);
    var r15 := Segment15(e, p, ic, r16);
    Segment14FallsThrough(e, p, ic, r15);
    var r14 := Segment14(e, p, ic, r15);
    var r13 := Segment13(e, p, ic, r14);
    Segment12FallsThrough(e, p, ic, r13);
    var r12 := Segment12(e, p, ic, r13);
    Segment11FallsThrough(e, p, ic, r12);
    var r11 := Segment11(e, p, ic, r12);
    Segment10FallsThrough(e, p, ic, r11);
    var r10 := Segment10(e, p, ic, r11);
    Segment9FallsThrough(e, p, ic, r10);
    var r9 := Segment9(e, p, ic, r10);
    Segment8FallsThrough(e, p, ic, r9);
    var r8 := Segment8(e, p, ic, r9);
    Segment7FallsThrough(e, p, ic, r8);
    var r7 := Segment7(e, p, ic, r8);
    Segment6FallsThrough(e, p, ic, r7);
    var r6 := Segment6(e, p, ic, r7);
    Segment5FallsThrough(e, p, ic, r6);
    var r5 := Segment5(e, p, ic, r6);
    Segment4FallsThrough(e, p, ic, r5);
    var r4 := Segment4(e, p, ic, r5);
    Segment3FallsThrough(e, p, ic, r4);
    var r3 := Segment3(e, p, ic, r4);
    Segment2FallsThrough(e, p, ic, r3);
    var r2 := Segment2(e, p, ic, r3);
    Segment1FallsThrough(e, p, ic, r2);
    var r1 := Segment1(e, p, ic, r2);
  }

  lemma GuardedBranch13(e: string, params: seq<string>, ignoreCase: bool, rest: Handler)
    requires GuardHolds(rest, params)
    ensures e == "updatelibrary" ==> Segment13(e, params, ignoreCase, rest) == if |params| > 0 then UpdateLibrary else rest
    ensures e == "control.move" ==> Segment13(e, params, ignoreCase, rest) == if |params| > 1 then ControlMove else rest
  {
  }

  /** The names of segment 13 whose branch also tests the parameters: each selects its handler when the test passes and falls through to Unknown otherwise. */
  lemma GuardedIn13(e: string, params: seq<string>, ignoreCase: bool)
    requires e == "updatelibrary" || e == "control.move"
    ensures e == "updatelibrary" ==> Classify(e, params, ignoreCase) == if |params| > 0 then UpdateLibrary else Unknown
    ensures e == "control.move" ==> Classify(e, params, ignoreCase) == if |params| > 1 then ControlMove else Unknown
  {
    OnlyInSegment13(e, ignoreCase);
    DecidedInSegment13(e, params, ignoreCase);
    GuardedBranch13(e, params, ignoreCase, Unknown);
  }

  /** No segment but segment 14 compares `e`. */
  predicate NotNamedOutside14(e: string, ignoreCase: bool) {
    !NamedInSegment1(e, ignoreCase) && !NamedInSegment2(e, ignoreCase) && !NamedInSegment3(e, ignoreCase) && !NamedInSegment4(e, ignoreCase) && !NamedInSegment5(e, ignoreCase) && !NamedInSegment6(e, ignoreCase) && !NamedInSegment7(e, ignoreCase) && !NamedInSegment8(e, ignoreCase) && !NamedInSegment9(e, ignoreCase) && !NamedInSegment10(e, ignoreCase) && !NamedInSegment11(e, ignoreCase) && !NamedInSegment12(e, ignoreCase) && !NamedInSegment13(e, ignoreCase) && !NamedInSegment15(e, ignoreCase) && !NamedInSegment16(e, ignoreCase) && !NamedInSegment17(e, ignoreCase) && !NamedInSegment18(e, ignoreCase) && !NamedInSegment19(e, ignoreCase) && !NamedInSegment20(e, ignoreCase)
  }

  /** container.update: compared in no branch outside segment 14. */
  lemma OnlyInSegment14(e: string, ignoreCase: bool)
    requires e == "container.update"
    ensures NotNamedOutside14(e, ignoreCase)
  {
    GuardedNotIn1(e, ignoreCase);
    GuardedNotIn2(e, ignoreCase);
    GuardedNotIn3(e, ignoreCase);
    GuardedNotIn4(e, ignoreCase);
    GuardedNotIn5(e, ignoreCase);
    GuardedNotIn6b(e, ignoreCase);
    GuardedNotIn7(e, ignoreCase);
    GuardedNotIn8(e, ignoreCase);
    GuardedNotIn9(e, ignoreCase);
    GuardedNotIn10(e, ignoreCase);
    GuardedNotIn11(e, ignoreCase);
    GuardedNotIn12(e, ignoreCase);
    GuardedNotIn13(e, ignoreCase);
    GuardedNotIn15(e, ignoreCase);
    GuardedNotIn16(e, ignoreCase);
    GuardedNotIn17(e, ignoreCase);
    GuardedNotIn18(e, ignoreCase);
    GuardedNotIn19(e, ignoreCase);
    GuardedNotIn20b(e, ignoreCase);
  }

  /** When no other segment compares the name, the chain returns what segment 14 selects. */
  lemma DecidedInSegment14(e: string, params: seq<string>, ignoreCase: bool)
    requires NotNamedOutside14(e, ignoreCase)
    ensures Classify(e, params, ignoreCase) == Segment14(e, params, ignoreCase, Unknown)
  {
    var p, ic := params, ignoreCase;
    Segment20FallsThrough(e, p, ic, Unknown);
    var r20 := Segment20(e, p, ic, Unknown);
    Segment19FallsThrough(e, p, ic, r20);
    var r19 := Segment19(e, p, ic, r20);
    Segment18FallsThrough(e, p, ic, r19);
    var r18 := Segment18(e, p, ic, r19);
    Segment17FallsThrough(e, p, ic, r18);
    var r17 := Segment17(e, p, ic, r18);
    Segment16FallsThrough(e, p, ic, r17);
    var r16 := Segment16(e, p, ic, r17);
    Segment15FallsThrough(e, p, ic, r16);
    var r15 := Segment15(e, p, ic, r16);
    var r14 := Segment14(e, p, ic, r15);
    Segment13FallsThrough(e, p, ic, r14);
    var r13 := Segment13(e, p, ic, r14);
    Segment12FallsThrough(e, p, ic, r13);
    var r12 := Segment12(e, p, ic, r13);
    Segment11FallsThrough(e, p, ic, r12);
    var r11 := Segment11(e, p, ic, r12);
    Segment10FallsThrough(e, p, ic, r11);
    var r10 := Segment10(e, p, ic, r11);
    Segment9FallsThrough(e, p, ic, r10);
    var r9 := Segment9(e, p, ic, r10);
    Segment8FallsThrough(e, p, ic, r9);
    var r8 := Segment8(e, p, ic, r9);
    Segment7FallsThrough(e, p, ic, r8);
    var r7 := Segment7(e, p, ic, r8);
    Segment6FallsThrough(e, p, ic, r7);
    var r6 := Segment6(e, p, ic, r7);
    Segment5FallsThrough(e, p, ic, r6);
    var r5 := Segment5(e, p, ic, r6);
    Segment4FallsThrough(e, p, ic, r5);
    var r4 := Segment4(e, p, ic, r5);
    Segment3FallsThrough(e, p, ic, r4);
    var r3 := Segment3(e, p, ic, r4);
    Segment2FallsThrough(e, p, ic, r3);
    var r2 := Segment2(e, p, ic, r3);
    Segment1FallsThrough(e, p, ic, r2);
    var r1 := Segment1(e, p, ic, r2);
  }

  lemma GuardedBranch14(e: string, params: seq<string>, ignoreCase: bool, rest: Handler)
    requires GuardHolds(rest, params)
    ensures e == "container.update" ==> Segment14(e, params, ignoreCase, rest) == if |params| > 0 then ContainerUpdate else rest
  {
  }

  /** The names of segment 14 whose branch also tests the parameters: each selects its handler when the test passes and falls through to Unknown otherwise. */
  lemma GuardedIn14(e: string, params: seq<string>, ignoreCase: bool)
    requires e == "container.update"
    ensures Classify(e, params, ignoreCase) == if |params| > 0 then ContainerUpdate else Unknown
  {
    OnlyInSegment14(e, ignoreCase);
    DecidedInSegment14(e, params, ignoreCase);
    GuardedBranch14(e, params, ignoreCase, Unknown);
  }

  /** No segment but segment 15 compares `e`. */
  predicate NotNamedOutside15(e: string, ignoreCase: bool) {
    !NamedInSegment1(e, ignoreCase) && !NamedInSegment2(e, ignoreCase) && !NamedInSegment3(e, ignoreCase) && !NamedInSegment4(e, ignoreCase) && !NamedInSegment5(e, ignoreCase) && !NamedInSegment6(e, ignoreCase) && !NamedInSegment7(e, ignoreCase) && !NamedInSegment8(e, ignoreCase) && !NamedInSegment9(e, ignoreCase) && !NamedInSegment10(e, ignoreCase) && !NamedInSegment11(e, ignoreCase) && !NamedInSegment12(e, ignoreCase) && !NamedInSegment13(e, ignoreCase) && !NamedInSegment14(e, ignoreCase) && !NamedInSegment16(e, ignoreCase) && !NamedInSegment17(e, ignoreCase) && !NamedInSegment18(e, ignoreCase) && !NamedInSegment19(e, ignoreCase) && !NamedInSegment20(e, ignoreCase)
  }

  /** control.message, sendclick: compared in no branch outside segment 15. */
  lemma OnlyInSegment15(e: string, ignoreCase: bool)
    requires e == "control.message" || e == "sendclick"
    ensures NotNamedOutside15(e, ignoreCase)
  {
    GuardedNotIn1(e, ignoreCase);
    GuardedNotIn2(e, ignoreCase);
    GuardedNotIn3(e, ignoreCase);
    GuardedNotIn4(e, ignoreCase);
    GuardedNotIn5(e, ignoreCase);
    GuardedNotIn6b(e, ignoreCase);
    GuardedNotIn7(e, ignoreCase);
    GuardedNotIn8(e, ignoreCase);
    GuardedNotIn9(e, ignoreCase);
    GuardedNotIn10(e, ignoreCase);
    GuardedNotIn11(e, ignoreCase);
    GuardedNotIn12(e, ignoreCase);
    GuardedNotIn13(e, ignoreCase);
    GuardedNotIn14(e, ignoreCase);
    GuardedNotIn16(e, ignoreCase);
    GuardedNotIn17(e, ignoreCase);
    GuardedNotIn18(e, ignoreCase);
    GuardedNotIn19(e, ignoreCase);
    GuardedNotIn20b(e, ignoreCase);
  }

  /** When no other segment compares the name, the chain returns what segment 15 selects. */
  lemma DecidedInSegment15(e: string, params: seq<string>, ignoreCase: bool)
    requires NotNamedOutside15(e, ignoreCase)
    ensures Classify(e, params, ignoreCase) == Segment15(e, params, ignoreCase, Unknown)
  {
    var p, ic := params, ignoreCase;
    Segment20FallsThrough(e, p, ic, Unknown);
    var r20 := Segment20(e, p, ic, Unknown);
    Segment19FallsThrough(e, p, ic, r20);
    var r19 := Segment19(e, p, ic, r20);
    Segment18FallsThrough(e, p, ic, r19);
    var r18 := Segment18(e, p, ic, r19);
    Segment17FallsThrough(e, p, ic, r18);
    var r17 := Segment17(e, p, ic, r18);
    Segment16FallsThrough(e, p, ic, r17);
    var r16 := Segment16(e, p, ic, r17);
    var r15 := Segment15(e, p, ic, r16);
    Segment14FallsThrough(e, p, ic, r15);
    var r14 := Segment14(e, p, ic, r15);
    Segment13FallsThrough(e, p, ic, r14);
    var r13 := Segment13(e, p, ic, r14);
    Segment12FallsThrough(e, p, ic, r13);
    var r12 := Segment12(e, p, ic, r13);
    Segment11FallsThrough(e, p, ic, r12);
    var r11 := Segment11(e, p, ic, r12);
    Segment10FallsThrough(e, p, ic, r11);
    var r10 := Segment10(e, p, ic, r11);
    Segment9FallsThrough(e, p, ic, r10);
    var r9 := Segment9(e, p, ic, r10);
    Segment8FallsThrough(e, p, ic, r9);
    var r8 := Segment8(e, p, ic, r9);
    Segment7FallsThrough(e, p, ic, r8);
    var r7 := Segment7(e, p, ic, r8);
    Segment6FallsThrough(e, p, ic, r7);
    var r6 := Segment6(e, p, ic, r7);
    Segment5FallsThrough(e, p, ic, r6);
    var r5 := Segment5(e, p, ic, r6);
    Segment4FallsThrough(e, p, ic, r5);
    var r4 := Segment4(e, p, ic, r5);
    Segment3FallsThrough(e, p, ic, r4);
    var r3 := Segment3(e, p, ic, r4);
    Segment2FallsThrough(e, p, ic, r3);
    var r2 := Segment2(e, p, ic, r3);
    Segment1FallsThrough(e, p, ic, r2);
    var r1 := Segment1(e, p, ic, r2);
  }

  lemma GuardedBranch15(e: string, params: seq<string>, ignoreCase: bool, rest: Handler)
    requires GuardHolds(rest, params)
    ensures e == "control.message" ==> Segment15(e, params, ignoreCase, rest) == if |params| > 1 then ControlMessage else rest
    ensures e == "sendclick" ==> Segment15(e, params, ignoreCase, rest) == if |params| > 0 then SendClick else rest
  {
  }

  /** The names of segment 15 whose branch also tests the parameters: each selects its handler when the test passes and falls through to Unknown otherwise. */
  lemma GuardedIn15(e: string, params: seq<string>, ignoreCase: bool)
    requires e == "control.message" || e == "sendclick"
    ensures e == "control.message" ==> Classify(e, params, ignoreCase) == if |params| > 1 then ControlMessage else Unknown
    ensures e == "sendclick" ==> Classify(e, params, ignoreCase) == if |params| > 0 then SendClick else Unknown
  {
    OnlyInSegment15(e, ignoreCase);
    DecidedInSegment15(e, params, ignoreCase);
    GuardedBranch15(e, params, ignoreCase, Unknown);
  }

  /** No segment but segment 16 compares `e`. */
  predicate NotNamedOutside16(e: string, ignoreCase: bool) {
    !NamedInSegment1(e, ignoreCase) && !NamedInSegment2(e, ignoreCase) && !NamedInSegment3(e, ignoreCase) && !NamedInSegment4(e, ignoreCase) && !NamedInSegment5(e, ignoreCase) && !NamedInSegment6(e, ignoreCase) && !NamedInSegment7(e, ignoreCase) && !NamedInSegment8(e, ignoreCase) && !NamedInSegment9(e, ignoreCase) && !NamedInSegment10(e, ignoreCase) && !NamedInSegment11(e, ignoreCase) && !NamedInSegment12(e, ignoreCase) && !NamedInSegment13(e, ignoreCase) && !NamedInSegment14(e, ignoreCase) && !NamedInSegment15(e, ignoreCase) && !NamedInSegment17(e, ignoreCase) && !NamedInSegment18(e, ignoreCase) && !NamedInSegment19(e, ignoreCase) && !NamedInSegment20(e, ignoreCase)
  }

  /** action, setproperty, clearproperty, addon.default.opensettings: compared in no branch outside segment 16. */
  lemma OnlyInSegment16(e: string, ignoreCase: bool)
    requires e == "action" || e == "setproperty" || e == "clearproperty" || e == "addon.default.opensettings"
    ensures NotNamedOutside16(e, ignoreCase)
  {
    GuardedNotIn1(e, ignoreCase);
    GuardedNotIn2(e, ignoreCase);
    GuardedNotIn3(e, ignoreCase);
    GuardedNotIn4(e, ignoreCase);
    GuardedNotIn5(e, ignoreCase);
    if e == "action" { GuardedNotIn6b(e, ignoreCase); }
    if e == "setproperty" || e == "clearproperty" || e == "addon.default.opensettings" { GuardedNotIn6c(e, ignoreCase); }
    GuardedNotIn7(e, ignoreCase);
    GuardedNotIn8(e, ignoreCase);
    GuardedNotIn9(e, ignoreCase);
    GuardedNotIn10(e, ignoreCase);
    GuardedNotIn11(e, ignoreCase);
    GuardedNotIn12(e, ignoreCase);
    GuardedNotIn13(e, ignoreCase);
    GuardedNotIn14(e, ignoreCase);
    GuardedNotIn15(e, ignoreCase);
    GuardedNotIn17(e, ignoreCase);
    GuardedNotIn18(e, ignoreCase);
    GuardedNotIn19(e, ignoreCase);
    GuardedNotIn20b(e, ignoreCase);
  }

  /** When no other segment compares the name, the chain returns what segment 16 selects. */
  lemma DecidedInSegment16(e: string, params: seq<string>, ignoreCase: bool)
    requires NotNamedOutside16(e, ignoreCase)
    ensures Classify(e, params, ignoreCase) == Segment16(e, params, ignoreCase, Unknown)
  {
    var p, ic := params, ignoreCase;
    Segment20FallsThrough(e, p, ic, Unknown);
    var r20 := Segment20(e, p, ic, Unknown);
    Segment19FallsThrough(e, p, ic, r20);
    var r19 := Segment19(e, p, ic, r20);
    Segment18FallsThrough(e, p, ic, r19);
    var r18 := Segment18(e, p, ic, r19);
    Segment17FallsThrough(e, p, ic, r18);
    var r17 := Segment17(e, p, ic, r18);
    var r16 := Segment16(e, p, ic, r17);
    Segment15FallsThrough(e, p, ic, r16);
    var r15 := Segment15(e, p, ic, r16);
    Segment14FallsThrough(e, p, ic, r15);
    var r14 := Segment14(e, p, ic, r15);
    Segment13FallsThrough(e, p, ic, r14);
    var r13 := Segment13(e, p, ic, r14);
    Segment12FallsThrough(e, p, ic, r13);
    var r12 := Segment12(e, p, ic, r13);
    Segment11FallsThrough(e, p, ic, r12);
    var r11 := Segment11(e, p, ic, r12);
    Segment10FallsThrough(e, p, ic, r11);
    var r10 := Segment10(e, p, ic, r11);
    Segment9FallsThrough(e, p, ic, r10);
    var r9 := Segment9(e, p, ic, r10);
    Segment8FallsThrough(e, p, ic, r9);
    var r8 := Segment8(e, p, ic, r9);
    Segment7FallsThrough(e, p, ic, r8);
    var r7 := Segment7(e, p, ic, r8);
    Segment6FallsThrough(e, p, ic, r7);
    var r6 := Segment6(e, p, ic, r7);
    Segment5FallsThrough(e, p, ic, r6);
    var r5 := Segment5(e, p, ic, r6);
    Segment4FallsThrough(e, p, ic, r5);
    var r4 := Segment4(e, p, ic, r5);
    Segment3FallsThrough(e, p, ic, r4);
    var r3 := Segment3(e, p, ic, r4);
    Segment2FallsThrough(e, p, ic, r3);
    var r2 := Segment2(e, p, ic, r3);
    Segment1FallsThrough(e, p, ic, r2);
    var r1 := Segment1(e, p, ic, r2);
  }

  lemma GuardedBranch16a(e: string, params: seq<string>, ignoreCase: bool, rest: Handler)
    requires GuardHolds(rest, params)
    ensures e == "action" ==> Segment16(e, params, ignoreCase, rest) == if |params| > 0 then Action else rest
    ensures e == "setproperty" ==> Segment16(e, params, ignoreCase, rest) == if |params| > 1 then SetProperty else rest
  {
  }

  lemma GuardedBranch16b(e: string, params: seq<string>, ignoreCase: bool, rest: Handler)
    requires GuardHolds(rest, params)
    ensures e == "clearproperty" ==> Segment16(e, params, ignoreCase, rest) == if |params| > 0 then ClearProperty else rest
    ensures e == "addon.default.opensettings" ==> Segment16(e, params, ignoreCase, rest) == if |params| == 1 then AddonDefaultOpenSettings else rest
  {
  }

  /** The names of segment 16 whose branch also tests the parameters: each selects its handler when the test passes and falls through to Unknown otherwise. */
  lemma GuardedIn16(e: string, params: seq<string>, ignoreCase: bool)
    requires e == "action" || e == "setproperty" || e == "clearproperty" || e == "addon.default.opensettings"
    ensures e == "action" ==> Classify(e, params, ignoreCase) == if |params| > 0 then Action else Unknown
    ensures e == "setproperty" ==> Classify(e, params, ignoreCase) == if |params| > 1 then SetProperty else Unknown
    ensures e == "clearproperty" ==> Classify(e, params, ignoreCase) == if |params| > 0 then ClearProperty else Unknown
    ensures e == "addon.default.opensettings" ==> Classify(e, params, ignoreCase) == if |params| == 1 then AddonDefaultOpenSettings else Unknown
  {
    OnlyInSegment16(e, ignoreCase);
    DecidedInSegment16(e, params, ignoreCase);
    GuardedBranch16a(e, params, ignoreCase, Unknown);
    GuardedBranch16b(e, params, ignoreCase, Unknown);
  }

  /** No segment but segment 17 compares `e`. */
  predicate NotNamedOutside17(e: string, ignoreCase: bool) {
    !NamedInSegment1(e, ignoreCase) && !NamedInSegment2(e, ignoreCase) && !NamedInSegment3(e, ignoreCase) && !NamedInSegment4(e, ignoreCase) && !NamedInSegment5(e, ignoreCase) && !NamedInSegment6(e, ignoreCase) && !NamedInSegment7(e, ignoreCase) && !NamedInSegment8(e, ignoreCase) && !NamedInSegment9(e, ignoreCase) && !NamedInSegment10(e, ignoreCase) && !NamedInSegment11(e, ignoreCase) && !NamedInSegment12(e, ignoreCase) && !NamedInSegment13(e, ignoreCase) && !NamedInSegment14(e, ignoreCase) && !NamedInSegment15(e, ignoreCase) && !NamedInSegment16(e, ignoreCase) && !NamedInSegment18(e, ignoreCase) && !NamedInSegment19(e, ignoreCase) && !NamedInSegment20(e, ignoreCase)
  }

  /** addon.default.set, addon.opensettings: compared in no branch outside segment 17. */
  lemma OnlyInSegment17(e: string, ignoreCase: bool)
    requires e == "addon.default.set" || e == "addon.opensettings"
    ensures NotNamedOutside17(e, ignoreCase)
  {
    GuardedNotIn1(e, ignoreCase);
    GuardedNotIn2(e, ignoreCase);
    GuardedNotIn3(e, ignoreCase);
    GuardedNotIn4(e, ignoreCase);
    GuardedNotIn5(e, ignoreCase);
    GuardedNotIn6c(e, ignoreCase);
    GuardedNotIn7(e, ignoreCase);
    GuardedNotIn8(e, ignoreCase);
    GuardedNotIn9(e, ignoreCase);
    GuardedNotIn10(e, ignoreCase);
    GuardedNotIn11(e, ignoreCase);
    GuardedNotIn12(e, ignoreCase);
    GuardedNotIn13(e, ignoreCase);
    GuardedNotIn14(e, ignoreCase);
    GuardedNotIn15(e, ignoreCase);
    GuardedNotIn16(e, ignoreCase);
    GuardedNotIn18(e, ignoreCase);
    GuardedNotIn19(e, ignoreCase);
    GuardedNotIn20b(e, ignoreCase);
  }

  /** When no other segment compares the name, the chain returns what segment 17 selects. */
  lemma DecidedInSegment17(e: string, params: seq<string>, ignoreCase: bool)
    requires NotNamedOutside17(e, ignoreCase)
    ensures Classify(e, params, ignoreCase) == Segment17(e, params, ignoreCase, Unknown)
  {
    var p, ic := params, ignoreCase;
    Segment20FallsThrough(e, p, ic, Unknown);
    var r20 := Segment20(e, p, ic, Unknown);
    Segment19FallsThrough(e, p, ic, r20);
    var r19 := Segment19(e, p, ic, r20);
    Segment18FallsThrough(e, p, ic, r19);
    var r18 := Segment18(e, p, ic, r19);
    var r17 := Segment17(e, p, ic, r18);
    Segment16FallsThrough(e, p, ic, r17);
    var r16 := Segment16(e, p, ic, r17);
    Segment15FallsThrough(e, p, ic, r16);
    var r15 := Segment15(e, p, ic, r16);
    Segment14FallsThrough(e, p, ic, r15);
    var r14 := Segment14(e, p, ic, r15);
    Segment13FallsThrough(e, p, ic, r14);
    var r13 := Segment13(e, p, ic, r14);
    Segment12FallsThrough(e, p, ic, r13);
    var r12 := Segment12(e, p, ic, r13);
    Segment11FallsThrough(e, p, ic, r12);
    var r11 := Segment11(e, p, ic, r12);
    Segment10FallsThrough(e, p, ic, r11);
    var r10 := Segment10(e, p, ic, r11);
    Segment9FallsThrough(e, p, ic, r10);
    var r9 := Segment9(e, p, ic, r10);
    Segment8FallsThrough(e, p, ic, r9);
    var r8 := Segment8(e, p, ic, r9);
    Segment7FallsThrough(e, p, ic, r8);
    var r7 := Segment7(e, p, ic, r8);
    Segment6FallsThrough(e, p, ic, r7);
    var r6 := Segment6(e, p, ic, r7);
    Segment5FallsThrough(e, p, ic, r6);
    var r5 := Segment5(e, p, ic, r6);
    Segment4FallsThrough(e, p, ic, r5);
    var r4 := Segment4(e, p, ic, r5);
    Segment3FallsThrough(e, p, ic, r4);
    var r3 := Segment3(e, p, ic, r4);
    Segment2FallsThrough(e, p, ic, r3);
    var r2 := Segment2(e, p, ic, r3);
    Segment1FallsThrough(e, p, ic, r2);
    var r1 := Segment1(e, p, ic, r2);
  }

  lemma GuardedBranch17(e: string, params: seq<string>, ignoreCase: bool, rest: Handler)
    requires GuardHolds(rest, params)
    ensures e == "addon.default.set" ==> Segment17(e, params, ignoreCase, rest) == if |params| == 1 then AddonDefaultSet else rest
    ensures e == "addon.opensettings" ==> Segment17(e, params, ignoreCase, rest) == if |params| == 1 then AddonOpenSettings else rest
  {
  }

  /** The names of segment 17 whose branch also tests the parameters: each selects its handler when the test passes and falls through to Unknown otherwise. */
  lemma GuardedIn17(e: string, params: seq<string>, ignoreCase: bool)
    requires e == "addon.default.set" || e == "addon.opensettings"
    ensures e == "addon.default.set" ==> Classify(e, params, ignoreCase) == if |params| == 1 then AddonDefaultSet else Unknown
    ensures e == "addon.opensettings" ==> Classify(e, params, ignoreCase) == if |params| == 1 then AddonOpenSettings else Unknown
  {
    OnlyInSegment17(e, ignoreCase);
    DecidedInSegment17(e, params, ignoreCase);
    GuardedBranch17(e, params, ignoreCase, Unknown);
  }

  /** No segment but segment 20 compares `e`. */
  predicate NotNamedOutside20(e: string, ignoreCase: bool) {
    !NamedInSegment1(e, ignoreCase) && !NamedInSegment2(e, ignoreCase) && !NamedInSegment3(e, ignoreCase) && !NamedInSegment4(e, ignoreCase) && !NamedInSegment5(e, ignoreCase) && !NamedInSegment6(e, ignoreCase) && !NamedInSegment7(e, ignoreCase) && !NamedInSegment8(e, ignoreCase) && !NamedInSegment9(e, ignoreCase) && !NamedInSegment10(e, ignoreCase) && !NamedInSegment11(e, ignoreCase) && !NamedInSegment12(e, ignoreCase) && !NamedInSegment13(e, ignoreCase) && !NamedInSegment14(e, ignoreCase) && !NamedInSegment15(e, ignoreCase) && !NamedInSegment16(e, ignoreCase) && !NamedInSegment17(e, ignoreCase) && !NamedInSegment18(e, ignoreCase) && !NamedInSegment19(e, ignoreCase)
  }

  /** startandroidactivity, setstereomode: compared in no branch outside segment 20. */
  lemma OnlyInSegment20(e: string, ignoreCase: bool)
    requires e == "startandroidactivity" || e == "setstereomode"
    ensures NotNamedOutside20(e, ignoreCase)
  {
    GuardedNotIn1(e, ignoreCase);
    GuardedNotIn2(e, ignoreCase);
    GuardedNotIn3(e, ignoreCase);
    GuardedNotIn4(e, ignoreCase);
    GuardedNotIn5(e, ignoreCase);
    GuardedNotIn6c(e, ignoreCase);
    GuardedNotIn7(e, ignoreCase);
    GuardedNotIn8(e, ignoreCase);
    GuardedNotIn9(e, ignoreCase);
    GuardedNotIn10(e, ignoreCase);
    GuardedNotIn11(e, ignoreCase);
    GuardedNotIn12(e, ignoreCase);
    GuardedNotIn13(e, ignoreCase);
    GuardedNotIn14(e, ignoreCase);
    GuardedNotIn15(e, ignoreCase);
    GuardedNotIn16(e, ignoreCase);
    GuardedNotIn17(e, ignoreCase);
    GuardedNotIn18(e, ignoreCase);
    GuardedNotIn19(e, ignoreCase);
  }

  /** When no other segment compares the name, the chain returns what segment 20 selects. */
  lemma DecidedInSegment20(e: string, params: seq<string>, ignoreCase: bool)
    requires NotNamedOutside20(e, ignoreCase)
    ensures Classify(e, params, ignoreCase) == Segment20(e, params, ignoreCase, Unknown)
  {
    var p, ic := params, ignoreCase;
    var r20 := Segment20(e, p, ic, Unknown);
    Segment19FallsThrough(e, p, ic, r20);
    var r19 := Segment19(e, p, ic, r20);
    Segment18FallsThrough(e, p, ic, r19);
    var r18 := Segment18(e, p, ic, r19);
    Segment17FallsThrough(e, p, ic, r18);
    var r17 := Segment17(e, p, ic, r18);
    Segment16FallsThrough(e, p, ic, r17);
    var r16 := Segment16(e, p, ic, r17);
    Segment15FallsThrough(e, p, ic, r16);
    var r15 := Segment15(e, p, ic, r16);
    Segment14FallsThrough(e, p, ic, r15);
    var r14 := Segment14(e, p, ic, r15);
    Segment13FallsThrough(e, p, ic, r14);
    var r13 := Segment13(e, p, ic, r14);
    Segment12FallsThrough(e, p, ic, r13);
    var r12 := Segment12(e, p, ic, r13);
    Segment11FallsThrough(e, p, ic, r12);
    var r11 := Segment11(e, p, ic, r12);
    Segment10FallsThrough(e, p, ic, r11);
    var r10 := Segment10(e, p, ic, r11);
    Segment9FallsThrough(e, p, ic, r10);
    var r9 := Segment9(e, p, ic, r10);
    Segment8FallsThrough(e, p, ic, r9);
    var r8 := Segment8(e, p, ic, r9);
    Segment7FallsThrough(e, p, ic, r8);
    var r7 := Segment7(e, p, ic, r8);
    Segment6FallsThrough(e, p, ic, r7);
    var r6 := Segment6(e, p, ic, r7);
    Segment5FallsThrough(e, p, ic, r6);
    var r5 := Segment5(e, p, ic, r6);
    Segment4FallsThrough(e, p, ic, r5);
    var r4 := Segment4(e, p, ic, r5);
    Segment3FallsThrough(e, p, ic, r4);
    var r3 := Segment3(e, p, ic, r4);
    Segment2FallsThrough(e, p, ic, r3);
    var r2 := Segment2(e, p, ic, r3);
    Segment1FallsThrough(e, p, ic, r2);
    var r1 := Segment1(e, p, ic, r2);
  }

  lemma GuardedBranch20a(e: string, params: seq<string>, ignoreCase: bool, rest: Handler)
    requires GuardHolds(rest, params)
    ensures ignoreCase && e == "startandroidactivity" ==> Segment20(e, params, ignoreCase, rest) == if |params| > 0 then StartAndroidActivity else rest
  {
    if ignoreCase && e == "startandroidactivity" {
      assert EqualsNoCase(e, "StartAndroidActivity");
    }
  }

  lemma GuardedBranch20b(e: string, params: seq<string>, ignoreCase: bool, rest: Handler)
    requires GuardHolds(rest, params)
    ensures ignoreCase && e == "setstereomode" ==> Segment20(e, params, ignoreCase, rest) == if |params| > 0 && params[0] != "" then SetStereoMode else rest
  {
    if ignoreCase && e == "setstereomode" {
      assert EqualsNoCase(e, "SetStereoMode");
    }
  }

  /** The names of segment 20 whose branch also tests the parameters: each selects its handler when the test passes and falls through to Unknown otherwise. */
  lemma GuardedStartAndroidActivity(e: string, params: seq<string>, ignoreCase: bool)
    requires ignoreCase && e == "startandroidactivity"
    ensures Classify(e, params, ignoreCase) == if |params| > 0 then StartAndroidActivity else Unknown
  {
    OnlyInSegment20(e, ignoreCase);
    DecidedInSegment20(e, params, ignoreCase);
    GuardedBranch20a(e, params, ignoreCase, Unknown);
  }

  /** The names of segment 20 whose branch also tests the parameters: each selects its handler when the test passes and falls through to Unknown otherwise. */
  lemma GuardedSetStereoMode(e: string, params: seq<string>, ignoreCase: bool)
    requires ignoreCase && e == "setstereomode"
    ensures Classify(e, params, ignoreCase) == if |params| > 0 && params[0] != "" then SetStereoMode else Unknown
  {
    OnlyInSegment20(e, ignoreCase);
    DecidedInSegment20(e, params, ignoreCase);
    GuardedBranch20b(e, params, ignoreCase, Unknown);
  }
}
