/**
 * What CBuiltins::Execute sees of the rest of the application. The player,
 * the playlist player, the skin settings, the window manager, the alarm
 * clock and the password manager keep the state Execute reads and changes
 * (State); every other call into a collaborator is an Event appended to a
 * log. Helpers whose code is not part of this model are the fields of Env,
 * and the answers a user gives to the dialogs Execute opens are Prompts.
 */
module Collaborators {
  import opened Wrappers
  import opened PlayerRules
  import opened OptionScans
  import opened AddonRules

  // Window identifiers of the window manager. Execute only compares them for
  // equality with what TranslateWindow and the window manager return.
  const WINDOW_INVALID: int := 9999
  const WINDOW_LOGIN_SCREEN: int := 10029
  const WINDOW_SLIDESHOW: int := 12007
  const WINDOW_FULLSCREEN_VIDEO: int := 12005
  const WINDOW_VISUALISATION: int := 12006
  const WINDOW_WEATHER: int := 10014
  const WINDOW_VIDEO_NAV: int := 10025

  /** An argument of a logged collaborator call. */
  datatype Arg =
    | Str(s: string)
    | Int(i: int)
    | Flag(b: bool)
    | Num(r: real)
    | Strs(ss: seq<string>)
    | Entries(items: seq<MediaEntry>)

  /** One call into a collaborator: what was asked and with which arguments. */
  datatype Event = Event(operation: string, args: seq<Arg>)

  datatype PlaylistSettings = PlaylistSettings(shuffled: bool, repeat: RepeatState)

  /** An alarm of the alarm clock: the command it runs, when, and how. */
  datatype Alarm = Alarm(command: string, seconds: int, silent: bool, loop: bool)

  /** The kinds of add-on TranslateType distinguishes where Execute looks at the kind. */
  datatype AddonType = UnknownAddonType | VisualisationAddon | ScriptAddonType | OtherAddonType(name: string)

  /** The screen modes of the Resolution built-in. */
  datatype Resolution =
    | Pal4x3 | Pal16x9 | Ntsc4x3 | Ntsc16x9 | Hdtv720p | Hdtv720pSbs | Hdtv720pTb
    | Hdtv1080pSbs | Hdtv1080pTb | Hdtv1080i

  /** The collaborator state that Execute reads and changes. */
  datatype State = State(
    playing: bool,
    paused: bool,
    playSpeed: int,
    recording: bool,
    canRecord: bool,
    muted: bool,
    volume: real,
    currentPlaylist: PlaylistId,
    playlists: map<PlaylistId, PlaylistSettings>,
    partyMode: bool,
    skinTheme: string,
    skinColors: string,
    skinBools: map<int, bool>,
    skinStrings: map<int, string>,
    showLogInfo: bool,
    musicScanning: bool,
    videoScanning: bool,
    activeWindow: int,
    focusedWindow: int,
    masterUser: bool,
    alarms: map<string, Alarm>)

  /** The settings of a playlist; one never touched is neither shuffled nor repeated. */
  function Settings(s: State, p: PlaylistId): PlaylistSettings {
    if p in s.playlists then s.playlists[p] else PlaylistSettings(false, RepeatNone)
  }

  /** CSkinSettings::GetBool: an unset setting reads false. */
  function SkinBool(s: State, setting: int): bool {
    if setting in s.skinBools then s.skinBools[setting] else false
  }

  /**
   * Helpers and queries whose code is not part of this model, as functions
   * of their arguments.
   */
  datatype Env = Env(
    translateWindow: string -> int,
    profileIndex: string -> int,
    everyoneMayLoadProfiles: bool,
    directoryExists: string -> bool,
    nextScreenshotFile: string -> string,
    addonLibPath: string -> Option<string>,
    validResolution: Resolution -> bool,
    directoryOf: string -> string,
    addSlashAtEnd: string -> string,
    hasSlashAtEnd: string -> bool,
    isFolder: string -> bool,
    addonLookup: string -> AddonLookup,
    splitParams: string -> seq<string>,
    parseJson: string -> string,
    isAudio: string -> bool,
    directoryItems: string -> seq<MediaEntry>,
    addFileToFolder: (string, string) -> string,
    atof: string -> real,
    playerCore: string -> int,
    timeStringToSeconds: string -> int,
    discPath: string,
    translateBool: string -> int,
    translateString: string -> int,
    skinThemes: seq<string>,
    removeExtension: string -> string,
    withXmlExtension: string -> string,
    addonType: string -> AddonType,
    fileName: string -> string,
    isDialog: int -> bool,
    windowExists: int -> bool,
    translateAction: string -> Option<int>,
    hasDefaultAddon: AddonType -> bool,
    addonExists: string -> bool,
    stereoAction: string -> Option<int>,
    eventServerStarts: bool)

  /** The answer to a yes/no dialog, which may also be cancelled. */
  datatype YesNo = YesNo(answer: bool, cancelled: bool)

  /** What the user answers to the dialogs one Execute call may open. */
  datatype Prompts = Prompts(
    profileUnlocked: bool,
    masterUnlocked: bool,
    resumeChosen: bool,
    alarmMinutes: Option<string>,
    value: Option<string>,
    addonChoice: Option<string>,
    singleFile: YesNo,
    thumbs: YesNo,
    actorThumbs: YesNo,
    overwrite: YesNo,
    exportDirectory: Option<string>)
}
