# Kodi built-in commands, modelled in Dafny

This project models `CBuiltins`, the component of Kodi (XBMC) that runs
"built-in" commands such as `PlayMedia(path,resume)`, `Skin.Theme(1)` or
`PlayerControl(repeat)`. These commands come from skins, keymaps, scripts and
remote controls. The component has three entry points:

- `HasCommand` checks a command name and its parameters against the table of
  registered built-ins.
- `GetHelp` prints that table as help text.
- `Execute` lower-cases the command name and walks a long if/else chain of
  name comparisons. The chosen branch calls into the rest of the application
  and returns a status code:
  - `-3`: a media built-in was called without parameters;
  - `-2`: a picture, slideshow or stereo-mode command got no usable argument;
  - `-1`: the name is unknown, or a handler refused;
  - `0`: otherwise.

The model is split into modules:

- `Text`: the string helpers the component depends on. These are ASCII
  lower-casing, the case-sensitive and case-insensitive comparisons,
  `TrimRight`, `JoinString` and the C library's `atoi`.
- `Registry`: the command table and the two table lookups, with the help text
  proved to read back into the table.
- `Dispatch`: `Execute`'s if/else chain as a pure classifier from
  (lower-cased name, parameters) to a `Handler`. It is cut into twenty
  segments that follow the source order.
- `PlayerRules`, `SkinRules`, `AddonRules`, `OptionScans`, `Handlers`: the
  computations inside the branches, one module per concern:
  - the play-speed ladder;
  - the shuffle and repeat cycles;
  - the `seekpercentage(N)` and `partymode(...)` argument slicing;
  - `Playlist.PlayOffset`;
  - skin-theme stepping;
  - the command string `RunAddon` builds;
  - the option loops of `SlideShow`, `PlayMedia`, `AlarmClock` and
    `ActivateWindowAndFocus`;
  - the folder scan of `PlayMedia`.
- `Collaborators`: the rest of the application, which the model does not see.
  - `State` is the part of the application state the branches read and write:
    - the player;
    - the playlists;
    - the volume;
    - the skin settings;
    - the alarms;
    - the active window;
    - the master-user flag.
  - `Env` holds everything else as uninterpreted functions. Examples are window
    translation, directory listings, the add-on manager and `atof`.
  - `Prompts` holds the user's answers to the dialogs a branch may open.
  - Every call into a collaborator is recorded as an `Event`.
- `HostSpec`: the specification of each branch. For each one it gives the
  return code, the new `State` and the events it emits. It also holds the
  lemmas that relate several commands (for example, rewind then forward, or
  `Skin.Theme(1)` then `Skin.Theme(-1)`).
- `Host`: the class `Builtins`. Its fields are the abstract application
  `state` and the event `log`.
  - `Execute` dispatches to one method per branch.
  - Each method updates the state and appends to the log, and is proved
    against `HostSpec`.
  - `RunAddon` hands the command it builds back to `Execute`, exactly once.
  - The comparison `CStdString::Equals` performs is a constructor parameter
    (`ignoreCase`). Only the branches whose literal contains capitals depend
    on it: `showPicture`, `slideShow`, `recursiveslideShow`,
    `StartAndroidActivity` and `SetStereoMode`. With a case-sensitive
    comparison those branches can never be taken, because the name was
    lower-cased first (`Dispatch.CapitalizedBranchesNeedIgnoreCase`).

## Model

| member | source | states |
|---|---|---|
| Text.Lower | xbmc/interfaces/Builtins.cpp:261 | the lower-cased name has the input's length and no upper-case letter; a name already without capitals is unchanged |
| Text.LowerIdempotent | xbmc/interfaces/Builtins.cpp:261 | lower-casing twice equals lower-casing once |
| Text.EqualsNoCaseMeansLowerEqual | xbmc/interfaces/Builtins.cpp:237 | the case-insensitive comparison holds exactly when both lower-cased strings are equal |
| Text.EqualsNoCaseAppend | xbmc/interfaces/Builtins.cpp:888-908 | appending the same character to two equal-length strings keeps their case-insensitive comparison |
| Text.EqualsOnLowerCase | xbmc/interfaces/Builtins.cpp:261-265 | on strings without capitals the case-sensitive and case-insensitive comparisons both mean equality |
| Text.TrimRight | xbmc/interfaces/Builtins.cpp:870 | the result is a prefix that does not end in the trimmed character, and everything removed was that character |
| Text.IndexOf | xbmc/interfaces/Builtins.cpp:597 | the result is the position of the first occurrence of the character, or the length when there is none |
| Text.IndexOfBehindPrefix | xbmc/interfaces/Builtins.cpp:246-252 | in a string whose prefix lacks the character and whose rest starts with it, the first occurrence is at the end of the prefix |
| Text.NatToString | xbmc/interfaces/Builtins.cpp:1067 | the decimal rendering is non-empty and consists of digits |
| Text.DigitsValueAppend | xbmc/interfaces/Builtins.cpp:1067 | reading one more digit multiplies the value so far by ten and adds the digit |
| Text.DigitsValueOfNat | xbmc/interfaces/Builtins.cpp:1067 | reading the digits of a natural number gives the number back |
| Text.AtoiRoundTrip | xbmc/interfaces/Builtins.cpp:659 | `atoi` reads back the signed decimal rendering of every integer |
| Text.AtoiNonNumeric | xbmc/interfaces/Builtins.cpp:1188 | a string starting with neither white space, sign nor digit reads as 0 |
| Registry.SearchFrom | xbmc/interfaces/Builtins.cpp:235-239 | the search from entry i succeeds exactly when some entry at or after i accepts the name and the parameters |
| Registry.HasCommand | xbmc/interfaces/Builtins.cpp:230-241 | true exactly when some registered entry has the name (ignoring case) and either does not need parameters or at least one was given |
| Registry.HasCommandDependsOnlyOnFoldedName | xbmc/interfaces/Builtins.cpp:230-241 | names equal up to case, and parameter lists that are both empty or both non-empty, give the same answer |
| Registry.GetHelp | xbmc/interfaces/Builtins.cpp:243-253 | the help text is one line per registered entry, in table order |
| Registry.HelpOf | xbmc/interfaces/Builtins.cpp:246-252 | the loop appends the help line of every entry of the table, in order |
| Registry.HelpTextCons | xbmc/interfaces/Builtins.cpp:246-252 | the help text of a table is its first entry's line followed by the help text of the rest |
| Registry.Pairs | xbmc/interfaces/Builtins.cpp:105-228 | one (name, description) pair per entry, in table order |
| Registry.ParseLine | xbmc/interfaces/Builtins.cpp:248-251 | one help line reads back as its entry's name and description, and the parse then continues behind the line |
| Registry.HelpRoundTrip | xbmc/interfaces/Builtins.cpp:243-253 | for a table whose names have no tab or newline and whose descriptions have no newline, the help text reads back as the table's names and descriptions in order |
| Dispatch.Segment1 | xbmc/interfaces/Builtins.cpp:265-284 | the handler chosen by these branches satisfies the parameter guard of its `if` (as does the fall-through handler) |
| Dispatch.Segment2 | xbmc/interfaces/Builtins.cpp:285-305 | the handler chosen by these branches satisfies the parameter guard of its `if` |
| Dispatch.Segment3 | xbmc/interfaces/Builtins.cpp:306-399 | the handler chosen by these branches satisfies the parameter guard of its `if` |
| Dispatch.Segment4 | xbmc/interfaces/Builtins.cpp:400-486 | the handler chosen by these branches satisfies the parameter guard of its `if` (`setfocus`, `activatewindowandfocus` and `runscript` need a parameter) |
| Dispatch.Segment5 | xbmc/interfaces/Builtins.cpp:487-602 | the handler chosen by these branches satisfies the parameter guard of its `if` |
| Dispatch.Segment6 | xbmc/interfaces/Builtins.cpp:603-775 | the handler chosen by these branches satisfies the parameter guard of its `if` |
| Dispatch.Segment7 | xbmc/interfaces/Builtins.cpp:776-994 | the handler chosen by these branches satisfies the parameter guard of its `if` |
| Dispatch.Segment8 | xbmc/interfaces/Builtins.cpp:995-1101 | the handler chosen by these branches satisfies the parameter guard of its `if` (`alarmclock` needs two parameters) |
| Dispatch.Segment9 | xbmc/interfaces/Builtins.cpp:1102-1140 | the handler chosen by these branches satisfies the parameter guard of its `if` |
| Dispatch.Segment10 | xbmc/interfaces/Builtins.cpp:1141-1211 | the handler chosen by these branches satisfies the parameter guard of its `if` |
| Dispatch.Segment11 | xbmc/interfaces/Builtins.cpp:1210-1321 | the handler chosen by these branches satisfies the parameter guard of its `if` |
| Dispatch.Segment12 | xbmc/interfaces/Builtins.cpp:1322-1391 | the handler chosen by these branches satisfies the parameter guard of its `if` (`skin.setaddon` needs two parameters) |
| Dispatch.Segment13 | xbmc/interfaces/Builtins.cpp:1392-1524 | the handler chosen by these branches satisfies the parameter guard of its `if` |
| Dispatch.Segment14 | xbmc/interfaces/Builtins.cpp:1525-1552 | the handler chosen by these branches satisfies the parameter guard of its `if` |
| Dispatch.Segment15 | xbmc/interfaces/Builtins.cpp:1553-1597 | the handler chosen by these branches satisfies the parameter guard of its `if` |
| Dispatch.Segment16 | xbmc/interfaces/Builtins.cpp:1598-1634 | the handler chosen by these branches satisfies the parameter guard of its `if` (the add-on settings branches need exactly one parameter) |
| Dispatch.Segment17 | xbmc/interfaces/Builtins.cpp:1635-1668 | the handler chosen by these branches satisfies the parameter guard of its `if` |
| Dispatch.Segment18 | xbmc/interfaces/Builtins.cpp:1669-1714 | the handler chosen by these branches satisfies the parameter guard of its `if` |
| Dispatch.Segment19 | xbmc/interfaces/Builtins.cpp:1715-1739 | the handler chosen by these branches satisfies the parameter guard of its `if` |
| Dispatch.Segment20 | xbmc/interfaces/Builtins.cpp:1740-1762 | the handler chosen by these branches satisfies the parameter guard of its `if` (`SetStereoMode` needs a non-empty first parameter) |
| Dispatch.Classify | xbmc/interfaces/Builtins.cpp:255-1762 | the handler `Execute` selects always has the parameters its branch's guard demands |
| Dispatch.UnnamedIsUnknown | xbmc/interfaces/Builtins.cpp:1758-1762 | a name that no branch compares equal selects the final `-1`, whatever the parameters |
| Dispatch.RegisteredButUnhandled | xbmc/interfaces/Builtins.cpp:105-228 | `help` and `allowidleshutdown` are registered, yet `Execute` has no branch for them |
| Dispatch.EmptyNameIsUnknown | xbmc/interfaces/Builtins.cpp:255-1762 | the empty name selects no branch |
| Dispatch.NotNamed | xbmc/interfaces/Builtins.cpp:255-1762 | no branch compares `help`, `allowidleshutdown` or the empty name |
| Dispatch.GuardedIn4 | xbmc/interfaces/Builtins.cpp:400-436 | `setfocus` and `control.setfocus` select SetFocus, `activatewindowandfocus` and `replacewindowandfocus` select ActivateWindowAndFocus (replacing for the second), `runscript` selects RunScript, each when given a parameter; without one each selects Unknown |
| Dispatch.GuardedIn5 | xbmc/interfaces/Builtins.cpp:511 | `extract` selects Extract when given a parameter, Unknown otherwise |
| Dispatch.GuardedIn8 | xbmc/interfaces/Builtins.cpp:1060 | `alarmclock` selects AlarmClock when given at least two parameters, Unknown otherwise |
| Dispatch.GuardedIn10 | xbmc/interfaces/Builtins.cpp:1141 | `skin.setbool` selects Skin.SetBool when given a parameter, Unknown otherwise |
| Dispatch.GuardedIn12 | xbmc/interfaces/Builtins.cpp:1322-1339 | `skin.setaddon` needs two parameters and `dialog.close` one; with them each selects its handler, without them Unknown |
| Dispatch.GuardedIn13 | xbmc/interfaces/Builtins.cpp:1392-1513 | `updatelibrary` needs one parameter and `control.move` two; with them each selects its handler, without them Unknown |
| Dispatch.GuardedIn14 | xbmc/interfaces/Builtins.cpp:1525 | `container.update` selects Container.Update when given a parameter, Unknown otherwise |
| Dispatch.GuardedIn15 | xbmc/interfaces/Builtins.cpp:1568-1583 | `control.message` needs two parameters and `sendclick` one; with them each selects its handler, without them Unknown |
| Dispatch.GuardedIn16 | xbmc/interfaces/Builtins.cpp:1598-1624 | `action` and `clearproperty` need one parameter, `setproperty` two and `addon.default.opensettings` exactly one; with them each selects its handler, otherwise Unknown |
| Dispatch.GuardedIn17 | xbmc/interfaces/Builtins.cpp:1635-1651 | `addon.default.set` and `addon.opensettings` select their handlers with exactly one parameter, Unknown with any other number |
| Dispatch.GuardedStartAndroidActivity | xbmc/interfaces/Builtins.cpp:1744 | under a case-insensitive `Equals`, `startandroidactivity` selects StartAndroidActivity when given a parameter, Unknown otherwise |
| Dispatch.GuardedSetStereoMode | xbmc/interfaces/Builtins.cpp:1748 | under a case-insensitive `Equals`, `setstereomode` selects SetStereoMode when its first parameter is present and non-empty, Unknown otherwise |
| Dispatch.CapitalizedBranchesNeedIgnoreCase | xbmc/interfaces/Builtins.cpp:261 | under a case-sensitive `Equals`, a lower-case name never reaches the branches whose literal has capitals |
| Dispatch.ClassifyDistinguished | xbmc/interfaces/Builtins.cpp:255-1762 | only the names of the early-returning branches, `runaddon` and the branches that index a missing `params[0]` select such a handler |
| Handlers.ResolutionNamesSelectTheirMode | xbmc/interfaces/Builtins.cpp:492-506 | under either reading of `Equals`, each mode name of `Resolution` selects its own mode, so no earlier test shadows a later one |
| Handlers.AfterLast | xbmc/interfaces/Builtins.cpp:453-455 | the last component of a split path is a suffix without the separator, preceded by the separator when shorter than the path |
| Handlers.ScriptArguments | xbmc/interfaces/Builtins.cpp:446-455 | `RunScript`'s argument vector keeps every parameter but the first, which is reduced to its last `\` component |
| PlayerRules.HalfTowardZero | xbmc/interfaces/Builtins.cpp:815-820 | C++ integer halving truncates toward zero, for both signs |
| PlayerRules.NextSpeed | xbmc/interfaces/Builtins.cpp:808-829 | the new play speed stays within -32..32 |
| PlayerRules.LadderClosed | xbmc/interfaces/Builtins.cpp:808-829 | rewind and forward map the speed ladder 1, ±2 .. ±32 into itself |
| PlayerRules.ForwardUndoesRewind | xbmc/interfaces/Builtins.cpp:808-829 | forward undoes rewind on the ladder except at -32, where rewind resets to 1 |
| PlayerRules.RewindUndoesForward | xbmc/interfaces/Builtins.cpp:808-829 | rewind undoes forward on the ladder except at 32 |
| PlayerRules.RewindSequence | xbmc/interfaces/Builtins.cpp:808-829 | from normal play, rewinding gives -2, -4, -8, -16, -32, then 1 |
| PlayerRules.ForwardSequence | xbmc/interfaces/Builtins.cpp:808-829 | from normal play, forwarding gives 2, 4, 8, 16, 32, then 1 |
| PlayerRules.ForwardFromMinusOne | xbmc/interfaces/Builtins.cpp:815-820 | off the ladder, forward from -1 gives 0 and from -2 gives 1 (truncating division) |
| PlayerRules.StepsStayOnLadder | xbmc/interfaces/Builtins.cpp:808-829 | any number of presses of one key stays on the ladder |
| PlayerRules.RepeatCycle | xbmc/interfaces/Builtins.cpp:942-984 | plain `repeat` always changes the state and three of them return to it |
| PlayerRules.RepeatNamed | xbmc/interfaces/Builtins.cpp:949-954 | `repeatall`, `repeatone` and `repeatoff` ask for their state whatever the current one |
| PlayerRules.ShuffleTarget | xbmc/interfaces/Builtins.cpp:909-941 | when the handler does not return early, it flips the shuffle flag |
| PlayerRules.ShuffleOutcome | xbmc/interfaces/Builtins.cpp:909-941 | afterwards the playlist is shuffled after `randomon`, unshuffled after `randomoff`, and toggled by `random` |
| PlayerRules.SeekPercentageArgument | xbmc/interfaces/Builtins.cpp:859-877 | an accepted argument is the text from the 16th character on, without trailing `)` |
| PlayerRules.SeekPercentageRoundTrip | xbmc/interfaces/Builtins.cpp:859-877 | `seekpercentage(N)` reads back `N` |
| PlayerRules.PartyModeArgument | xbmc/interfaces/Builtins.cpp:888-908 | only an argument that names neither music nor video carries a smart-playlist path |
| PlayerRules.PartyModeRoundTrip | xbmc/interfaces/Builtins.cpp:888-908 | `partymode(x)` reads back video, music (either case) or the path `x` |
| PlayerRules.PartyModeDefault | xbmc/interfaces/Builtins.cpp:888-908 | `partymode` without an argument starts music party mode |
| PlayerRules.OffsetRequestOf | xbmc/interfaces/Builtins.cpp:1009-1049 | the request fails exactly when there are two or more parameters and the first is neither music nor video; with two or more, music selects the music playlist and otherwise video the video playlist, at `atoi` of the second parameter; with fewer, no playlist is named and the position is `atoi` of the only parameter (or of the empty string) |
| SkinRules.NextThemeIndex | xbmc/interfaces/Builtins.cpp:1188-1197 | the new index lies in -1..count-1; a step other than 0, 1 and -1 keeps a valid index |
| SkinRules.AdvanceWithoutWrap | xbmc/interfaces/Builtins.cpp:1188-1197 | below the last theme, k forward presses move k places |
| SkinRules.AdvanceCompose | xbmc/interfaces/Builtins.cpp:1188-1197 | a+b forward presses are a presses followed by b presses |
| SkinRules.ThemeCycle | xbmc/interfaces/Builtins.cpp:1188-1197 | with n themes, n+1 forward presses return to the start |
| SkinRules.BackUndoesAdvance | xbmc/interfaces/Builtins.cpp:1188-1197 | `Skin.Theme(-1)` undoes `Skin.Theme(1)` from every index |
| SkinRules.ThemeName | xbmc/interfaces/Builtins.cpp:1198-1200 | the name written is always one of the themes or SKINDEFAULT: the theme at a valid index, SKINDEFAULT at any other; `HostSpec.ThemeNameIndex` reads it back as the same index |
| SkinRules.ColorTheme | xbmc/interfaces/Builtins.cpp:1203-1207 | the saved colour theme is never Textures.xml: that name becomes defaults.xml and every other name is kept |
| SkinRules.ColorThemeIdempotent | xbmc/interfaces/Builtins.cpp:1203-1207 | applying the Textures.xml substitution to its own result changes nothing |
| SkinRules.FirstTheme | xbmc/interfaces/Builtins.cpp:1176-1185 | the result is the first matching theme at or after the start, or -1 when none matches |
| SkinRules.ThemeIndex | xbmc/interfaces/Builtins.cpp:1171-1186 | -1 for SKINDEFAULT or when no theme matches, otherwise the first theme equal to the setting without its extension |
| SkinRules.CurrentThemeIndex | xbmc/interfaces/Builtins.cpp:1171-1186 | the search loop returns `ThemeIndex` |
| AddonRules.UrlSuffix | xbmc/interfaces/Builtins.cpp:559-574 | the query part starts with `/` or `?`: it is `/` when the add-on id is the only parameter, the second parameter itself when it is the only other one and starts with `/` or `?`, and otherwise `?` followed by the other parameters joined with `&` |
| AddonRules.AddonCommand | xbmc/interfaces/Builtins.cpp:549-602 | the command RunAddon builds, as stated part by part by `AddonRules.AddonCommandParts` |
| AddonRules.AddonCommandParts | xbmc/interfaces/Builtins.cpp:549-602 | the command is empty exactly for an unknown id; a script gives name RunScript with the parameters joined by commas; a plugin of no known content gives RunPlugin with the same arguments; any other plugin gives ActivateWindow with its window, the plugin URL of the id and query part, and `return` |
| AddonRules.CommandArgumentsOf | xbmc/interfaces/Builtins.cpp:597-600 | the text between the first `(` and the closing `)` of a command is read back as its arguments |
| AddonRules.CommandName | xbmc/interfaces/Builtins.cpp:597 | the name of a command string is its prefix before the first `(` |
| AddonRules.CategoryOrder | xbmc/interfaces/Builtins.cpp:575-588 | video wins over audio, executable and image, and so on down; no window exactly when the plugin declares no content |
| AddonRules.CommandNameOf | xbmc/interfaces/Builtins.cpp:597-600 | a name followed by `(` is read back as the name |
| AddonRules.RedispatchIsNotRunAddon | xbmc/interfaces/Builtins.cpp:597-600 | the command RunAddon hands back never names RunAddon, so the re-dispatch runs once |
| AddonRules.RedispatchNames | xbmc/interfaces/Builtins.cpp:575-596 | the command built names ActivateWindow, RunPlugin, RunScript or nothing |
| AddonRules.ScriptCommandName | xbmc/interfaces/Builtins.cpp:589-594 | a script add-on gives a RunScript command |
| AddonRules.PluginCommandName | xbmc/interfaces/Builtins.cpp:575-588 | a plugin gives RunPlugin without a window, ActivateWindow with one |
| AddonRules.QueryStart | xbmc/interfaces/Builtins.cpp:577-583 | the end of the add-on id is the first `/` or `?` of the URL tail |
| AddonRules.QueryStartBehindId | xbmc/interfaces/Builtins.cpp:577-583 | behind an id without `/` or `?`, the query starts exactly where the id ends |
| AddonRules.PluginUrlRoundTrip | xbmc/interfaces/Builtins.cpp:559-583 | the plugin URL RunAddon opens splits back into the add-on id and its query part |
| AddonRules.VideoPluginWithoutParameters | xbmc/interfaces/Builtins.cpp:569-577 | a video plugin run with its id alone opens the Videos window on the plugin URL of the id with query `/`, returning afterwards |
| OptionScans.SlideShowOptions | xbmc/interfaces/Builtins.cpp:745-762 | the options loop yields the flags and first slide of the specification functions over all options |
| OptionScans.SlideShowOption | xbmc/interfaces/Builtins.cpp:750-761 | one option ORs in its flag bit and a beginslide= option replaces the first slide |
| OptionScans.FlagsUpToMeans | xbmc/interfaces/Builtins.cpp:745-762 | a flag bit is set exactly when some option names it, and no bit above the four flags is ever set |
| OptionScans.BeginSlideNone | xbmc/interfaces/Builtins.cpp:758-760 | without a beginslide= option the first slide is empty |
| OptionScans.BeginSlideLast | xbmc/interfaces/Builtins.cpp:758-760 | the first slide is the text behind the last beginslide= option |
| OptionScans.AlarmOptions | xbmc/interfaces/Builtins.cpp:1084-1094 | silent exactly when some option from the fourth on is true or silent; looping exactly when some such option is loop |
| OptionScans.FocusRequests | xbmc/interfaces/Builtins.cpp:419-431 | one focus request per complete (control, item) pair behind the window, with the item plus one; an unpaired last parameter is ignored |
| OptionScans.PlayMediaOptions | xbmc/interfaces/Builtins.cpp:639-661 | the options loop yields the settings of the specification function over all options |
| OptionScans.MediaFlagsUpTo | xbmc/interfaces/Builtins.cpp:641-661 | each flag reflects whether its option occurs; the user is asked to resume exactly when neither resume nor noresume occurs |
| OptionScans.HasOptionStep | xbmc/interfaces/Builtins.cpp:641-661 | an option occurs among the first n exactly when it occurs among the first n-1 or is the n-th |
| OptionScans.OtherOptionKeepsOffset | xbmc/interfaces/Builtins.cpp:658-660 | only a playoffset= option changes the start track |
| OptionScans.OffsetOptionLength | xbmc/interfaces/Builtins.cpp:658-659 | a playoffset= option is at least as long as its prefix |
| OptionScans.MediaOffsetNone | xbmc/interfaces/Builtins.cpp:639-661 | without a playoffset= option the start track is 0 |
| OptionScans.MediaOffsetLast | xbmc/interfaces/Builtins.cpp:658-660 | the start track is one less than the number behind the last playoffset= option |
| OptionScans.VideosOfMembers | xbmc/interfaces/Builtins.cpp:690-697 | the video entries of a listing are exactly its entries that are videos, and no more than the listing |
| OptionScans.ScanFolder | xbmc/interfaces/Builtins.cpp:678-688 | the folder holds video exactly when some entry is a video, and music exactly when some entry is not |
| OptionScans.RemoveMusic | xbmc/interfaces/Builtins.cpp:690-697 | the backwards removal loop leaves exactly the video entries, in their order |
| OptionScans.RemoveStep | xbmc/interfaces/Builtins.cpp:692-696 | deciding entry i extends the filtered suffix by that entry when it is a video and by nothing otherwise |
| HostSpec.PlainHandlerCode | xbmc/interfaces/Builtins.cpp:1758-1762 | every branch without an early return leaves `Execute` with 0 |
| HostSpec.BranchCodeValues | xbmc/interfaces/Builtins.cpp:255-1762 | a branch returns only -3, -2, -1 or 0; -3 exactly for PlayMedia and PlayerControl without parameters; -2 only from ShowPicture, SlideShow and SetStereoMode; outside the early-returning branches and ExportLibrary, -1 exactly for an unknown name |
| HostSpec.ExportCode | xbmc/interfaces/Builtins.cpp:1432-1512 | ExportLibrary returns -1 or 0 |
| HostSpec.AddonCode | xbmc/interfaces/Builtins.cpp:597-600 | RunAddon returns -1 or 0 |
| HostSpec.RunAddonWithoutAddon | xbmc/interfaces/Builtins.cpp:549-602 | RunAddon with an id that is neither plugin nor script hands back an empty command and fails with -1 |
| HostSpec.HelpFails | xbmc/interfaces/Builtins.cpp:105-228 | the registered `help` built-in reaches no branch and returns -1 |
| HostSpec.SetFocusWithoutControl | xbmc/interfaces/Builtins.cpp:400 | `setfocus` and `control.setfocus` without parameters reach no branch and return -1 |
| HostSpec.AlarmClockWithoutCommand | xbmc/interfaces/Builtins.cpp:1060 | `alarmclock` with fewer than two parameters reaches no branch and returns -1 |
| HostSpec.ControlMessageWithoutTarget | xbmc/interfaces/Builtins.cpp:1568 | `control.message` with fewer than two parameters reaches no branch and returns -1 |
| HostSpec.SetStereoModeWithoutMode | xbmc/interfaces/Builtins.cpp:1748 | `SetStereoMode` with no first parameter, or an empty one, reaches no branch and returns -1, not the -2 of an unknown mode |
| HostSpec.RedispatchNotDistinguished | xbmc/interfaces/Builtins.cpp:597-600 | the command RunAddon hands back never selects an early-returning or parameter-indexing handler |
| HostSpec.RedispatchShapesNotDistinguished | xbmc/interfaces/Builtins.cpp:597-600 | no such handler name has the length and first letter of the names RunAddon builds |
| HostSpec.ExportChoiceOf | xbmc/interfaces/Builtins.cpp:1432-1512 | thumbnails, actor thumbnails and overwrite need a single file; actor thumbnails need thumbnails of a video export; a cancellation comes from a cancelled question; with five parameters no question is asked |
| HostSpec.DocumentedPlayerCommands | xbmc/interfaces/Builtins.cpp:793-984 | each documented PlayerControl argument selects its own command |
| HostSpec.TransportCommands | xbmc/interfaces/Builtins.cpp:793-829 | play, stop, rewind and forward select their own commands |
| HostSpec.NextCommand | xbmc/interfaces/Builtins.cpp:830-833 | `next` selects the next-item action |
| HostSpec.PreviousCommand | xbmc/interfaces/Builtins.cpp:834-837 | `previous` selects the previous-item action |
| HostSpec.RecordCommand | xbmc/interfaces/Builtins.cpp:883-887 | `record` selects recording |
| HostSpec.PartyModeCommand | xbmc/interfaces/Builtins.cpp:888-908 | `partymode` selects party mode |
| HostSpec.ShuffleCommand | xbmc/interfaces/Builtins.cpp:909-941 | `random` selects the shuffle branch |
| HostSpec.RepeatCommand | xbmc/interfaces/Builtins.cpp:942-984 | `repeat` selects the repeat branch |
| HostSpec.DocumentedSkips | xbmc/interfaces/Builtins.cpp:839-858 | each of the four skip names selects its own direction and size |
| HostSpec.SeekCommandLength | xbmc/interfaces/Builtins.cpp:859-877 | the seekpercentage branch is reached only with an argument at least as long as its keyword |
| HostSpec.WithSettings | xbmc/interfaces/Builtins.cpp:909-984 | updating one playlist's settings changes that playlist and no other |
| HostSpec.RewindThenForward | xbmc/interfaces/Builtins.cpp:808-829 | PlayerControl(rewind) then PlayerControl(forward) restores the whole state while playing on the ladder |
| HostSpec.PlayPauseTwice | xbmc/interfaces/Builtins.cpp:793-803 | at normal speed, play toggles pause and two of them restore the state |
| HostSpec.PartyModeTwice | xbmc/interfaces/Builtins.cpp:888-908 | `partymode` toggles party mode and two of them restore the state |
| HostSpec.RepeatThrice | xbmc/interfaces/Builtins.cpp:942-984 | each `repeat` changes the current playlist's repeat state and three restore it |
| HostSpec.RepeatStep | xbmc/interfaces/Builtins.cpp:942-984 | one `repeat` moves the current playlist one step along the cycle and changes nothing else of it |
| HostSpec.RandomTwice | xbmc/interfaces/Builtins.cpp:909-941 | `random` flips the current playlist's shuffle flag and two restore it |
| HostSpec.RandomStep | xbmc/interfaces/Builtins.cpp:909-941 | `random` flips the shuffle flag of the current playlist and changes nothing else |
| HostSpec.IdleCommandsChangeNothing | xbmc/interfaces/Builtins.cpp:793-984 | while nothing plays, only stop, party mode, random and repeat change the state |
| HostSpec.QueuedItemsBelong | xbmc/interfaces/Builtins.cpp:678-699 | the queued entries of a folder are its entries whose kind matches the chosen playlist |
| HostSpec.PlayMediaDeclined | xbmc/interfaces/Builtins.cpp:666-671 | when the user dismisses the resume menu, PlayMedia changes nothing and only leaves full screen and wakes the screensaver |
| HostSpec.AlarmClockState | xbmc/interfaces/Builtins.cpp:1060-1101 | without a time nothing changes; otherwise only the named alarm changes: it is stopped and restarted with the command and the time exactly when the time is accepted |
| HostSpec.RefusedAlarmStopsOldOne | xbmc/interfaces/Builtins.cpp:1094-1099 | a negative time, or a zero time with looping, removes the alarm of that name and starts none |
| HostSpec.AlarmThenCancel | xbmc/interfaces/Builtins.cpp:1060-1119 | CancelAlarm after AlarmClock leaves the other alarms as they were |
| HostSpec.ThemeForwardThenBack | xbmc/interfaces/Builtins.cpp:1165-1209 | Skin.Theme(1) then Skin.Theme(-1) writes back the theme the setting named before |
| HostSpec.ThemeNameIndex | xbmc/interfaces/Builtins.cpp:1171-1200 | the index of the theme Skin.Theme writes reads back as the same index |
| HostSpec.KnownTypes | xbmc/interfaces/Builtins.cpp:1326-1331 | the known add-on kinds are at most the parameters and never the unknown kind |
| HostSpec.KnownTypesNonEmpty | xbmc/interfaces/Builtins.cpp:1326-1333 | the add-on browser opens exactly when some parameter names a known kind |
| HostSpec.FocusMessages | xbmc/interfaces/Builtins.cpp:419-431 | one focus message per complete pair of parameters behind the window |
| HostSpec.LogoffEndsAtLogin | xbmc/interfaces/Builtins.cpp:1356-1379 | logging off succeeds away from the login screen, and a second logoff then returns -1 |
| Host.HandlerGroups | xbmc/interfaces/Builtins.cpp:255-1762 | every handler is unknown, RunAddon, or in one group of branches; the simple group never refuses |
| Host.Builtins.constructor | xbmc/interfaces/Builtins.cpp:255-259 | starts from the given state with an empty log |
| Host.Builtins.Execute | xbmc/interfaces/Builtins.cpp:255-1762 | returns the code of the branch the lower-cased name selects; the log only grows; an unknown name changes nothing |
| Host.Builtins.RunHandler | xbmc/interfaces/Builtins.cpp:265-1762 | runs one handler and returns its code; an unknown handler changes nothing |
| Host.Builtins.RunBuiltin | xbmc/interfaces/Builtins.cpp:265-1762 | runs one branch other than RunAddon and returns its code |
| Host.Builtins.RunAddonCommand | xbmc/interfaces/Builtins.cpp:549-602 | runs the command RunAddon builds through Execute and returns -1 exactly when it names no branch |
| Host.Builtins.RunSimple | xbmc/interfaces/Builtins.cpp:265-1762 | a branch that only calls collaborators returns 0, keeps the state and logs its calls |
| Host.Builtins.RunPlayback | xbmc/interfaces/Builtins.cpp:603-1119 | runs a playback or player-state branch and returns its code |
| Host.Builtins.RunStart | xbmc/interfaces/Builtins.cpp:603-1112 | runs PlayMedia, ShowPicture, SlideShow, PlayerControl or Notification and returns its code |
| Host.Builtins.RunPlayerState | xbmc/interfaces/Builtins.cpp:991-1119 | runs Mute, SetVolume, PlayOffset, AlarmClock or CancelAlarm; all return 0 |
| Host.Builtins.RunPlayMedia | xbmc/interfaces/Builtins.cpp:616-717 | -3 without parameters and no change; otherwise 0 with the state and calls of the PlayMedia specification |
| Host.Builtins.PlayMediaPreludeCalls | xbmc/interfaces/Builtins.cpp:622-634 | the calls before the media is looked at are those of the specification |
| Host.Builtins.StartMedia | xbmc/interfaces/Builtins.cpp:673-716 | queues a folder into the playlist its content selects, or plays the item |
| Host.Builtins.ScanMediaFolder | xbmc/interfaces/Builtins.cpp:675-699 | the folder's playlist and queued entries are those of the specification |
| Host.Builtins.RunShowPicture | xbmc/interfaces/Builtins.cpp:718-729 | -2 without parameters; otherwise 0 and one show-picture message |
| Host.Builtins.RunSlideShow | xbmc/interfaces/Builtins.cpp:730-770 | -2 without parameters; otherwise 0 and one slideshow message with the scanned flags and first slide (recursive only for RecursiveSlideShow) |
| Host.Builtins.RunPlayerControl | xbmc/interfaces/Builtins.cpp:784-985 | wakes the screensaver, then -3 without parameters, else 0 with the state and calls of the PlayerControl specification |
| Host.Builtins.PlayerStep | xbmc/interfaces/Builtins.cpp:793-984 | one PlayerControl command yields the state and calls of the specification |
| Host.Builtins.NavigationEvents | xbmc/interfaces/Builtins.cpp:830-887 | next, previous, skips, seek and the video menu change no state and emit the specified calls |
| Host.Builtins.PlaylistModeStep | xbmc/interfaces/Builtins.cpp:909-984 | random and repeat yield the state and calls of the specification |
| Host.Builtins.RunMute | xbmc/interfaces/Builtins.cpp:991-994 | toggles mute and changes nothing else |
| Host.Builtins.RunSetVolume | xbmc/interfaces/Builtins.cpp:995-1008 | sets the volume and shows the volume bar only on a change with showVolumeBar |
| Host.Builtins.RunPlayOffset | xbmc/interfaces/Builtins.cpp:1009-1049 | an unknown playlist changes nothing; a different named playlist is reset and played from the offset; otherwise the offset plays next, or is played when nothing plays |
| Host.Builtins.RunAlarmClock | xbmc/interfaces/Builtins.cpp:1060-1101 | the alarms become those of the AlarmClock specification |
| Host.Builtins.RunCancelAlarm | xbmc/interfaces/Builtins.cpp:1113-1119 | removes the named alarm and nothing else |
| Host.Builtins.RunSettings | xbmc/interfaces/Builtins.cpp:318-1757 | runs a window, skin or library branch and returns its code |
| Host.Builtins.RunWindowState | xbmc/interfaces/Builtins.cpp:318-1379 | runs MasterMode, ActivateWindow, ActivateWindowAndFocus or System.LogOff and returns its code |
| Host.Builtins.RunSkin | xbmc/interfaces/Builtins.cpp:1135-1338 | runs a skin branch; all return 0 |
| Host.Builtins.RunLibrary | xbmc/interfaces/Builtins.cpp:1392-1757 | runs UpdateLibrary, ExportLibrary, ToggleDebug or SetStereoMode and returns its code |
| Host.Builtins.RunMasterMode | xbmc/interfaces/Builtins.cpp:318-336 | leaves master mode, or enters it only when the master code is given, locking or unlocking the sources |
| Host.Builtins.RunActivateWindow | xbmc/interfaces/Builtins.cpp:376-399 | an invalid window changes nothing; otherwise it becomes active and focused with the remaining parameters |
| Host.Builtins.RunActivateWindowAndFocus | xbmc/interfaces/Builtins.cpp:407-435 | an invalid window changes nothing; otherwise it becomes active and the focus pairs are sent to it |
| Host.Builtins.RunSkinToggleSetting | xbmc/interfaces/Builtins.cpp:1135-1140 | negates the skin boolean and saves |
| Host.Builtins.RunSkinSetBool | xbmc/interfaces/Builtins.cpp:1141-1154 | sets the skin boolean to true without a second parameter, else to whether it says true (any case), and saves |
| Host.Builtins.RunSkinReset | xbmc/interfaces/Builtins.cpp:1155-1159 | removes the named skin boolean and string and saves |
| Host.Builtins.RunSkinResetSettings | xbmc/interfaces/Builtins.cpp:1160-1164 | clears all skin settings and saves |
| Host.Builtins.RunSkinTheme | xbmc/interfaces/Builtins.cpp:1165-1209 | sets theme and colours as the specification says and reloads the skin |
| Host.Builtins.RunSkinSetValue | xbmc/interfaces/Builtins.cpp:1210-1321 | stores the chosen value when there is one and saves |
| Host.Builtins.RunSkinSetAddon | xbmc/interfaces/Builtins.cpp:1322-1338 | stores the chosen add-on only when some parameter names a known kind and the user picked one |
| Host.Builtins.RunSystemLogoff | xbmc/interfaces/Builtins.cpp:1356-1379 | -1 and no change at the login screen; otherwise 0, playback and running scans stopped, no master user and the login screen, with the calls in source order |
| Host.Builtins.RunUpdateLibrary | xbmc/interfaces/Builtins.cpp:1392-1408 | toggles the named library's scan: starts it when idle, stops it when running, and logs the start or stop call |
| Host.Builtins.RunExportLibrary | xbmc/interfaces/Builtins.cpp:1432-1512 | keeps the state, returns -1 exactly when a question was cancelled, and logs the export |
| Host.Builtins.RunToggleDebug | xbmc/interfaces/Builtins.cpp:1730-1735 | toggles the debug log setting and applies it |
| Host.Builtins.RunSetStereoMode | xbmc/interfaces/Builtins.cpp:1748-1757 | -2 for a mode with no action, otherwise 0 and the action is sent |

## Left out

- Splitting a command string into a name and parameters (`CUtil::SplitExecFunction`) is not part of this model. `Execute` takes the name and the parameters already split. For the command `RunAddon` builds, the name is read up to the first `(` and the parameters come from an uninterpreted splitter in `Env`.
- `HasCommand` takes the split name and parameters for the same reason.
- Floating point is left out. `atof`, the seek percentage range test and the alarm's time-string parsing are functions of `Env`, and the volume is a `real`.
- The application's collaborators are uninterpreted. This covers the window manager, the player, the playlist player, the add-on manager, the databases, the profile manager and the settings. `State` holds only what the branches read or write, and every other call is an `Event` in the log. The one exception is `RunAddon`, whose nested `Execute` is modelled.
- Dialogs are not modelled. Their answers are given in advance as `Prompts`.
- Platform-specific code is left out:
  - the `TARGET_DARWIN`, LIRC/IRSS and Android-only registry entries and branches are not part of this model;
  - `HAS_DVD_DRIVE` and `HAS_CDDA_RIPPER` are taken as defined;
  - the Darwin AppleScript path of `RunScript` is not modelled.
- Threading is left out. `SendThreadMessage` and the job queue are recorded as ordinary events in call order.
- `Host.Builtins.Execute`: several branches index `params[0]` without checking that it exists (`StopScript`, `CancelAlarm`, `ExportLibrary`, `WakeOnLan`, `Weather.LocationSet` and the `Skin.Set*` family). In C++ that is undefined behaviour. The model requires a parameter for those names instead of modelling it.
- `CStdString::Equals` is not shown, so whether it ignores case is the parameter `ignoreCase`. The claims are stated for both choices, except where a row names one: `Dispatch.CapitalizedBranchesNeedIgnoreCase` is about the case-sensitive reading, and `Dispatch.GuardedStartAndroidActivity`, `Dispatch.GuardedSetStereoMode` and `HostSpec.SetStereoModeWithoutMode` about the case-insensitive one, the only reading under which those branches are reached.
- Text.Atoi: the out-of-range behaviour of the C `atoi` is not modelled, because integers are unbounded.
- The alarm clock's running state is modelled as membership in the `alarms` map. Its timers are not modelled.
- `SetShuffle` and `SetRepeat` with `notify` are events only. The toast they may show is not modelled.
- `PreviousWindow` and `Back` do not change `activeWindow`, because the window history is not modelled.
- Host.Builtins.RunActivateWindow: sets both the active and the focused window to the new window. The window manager's own focus rules are not modelled.
- Host.Builtins.StartMedia: starting playback emits events but does not set `playing`. Whether the player starts is up to the player.
- Handlers whose `return false;` leaves `Execute` return 0, as the C++ conversion of `false` to `int` gives. This applies to every such return in `Execute`:
  - ActivateWindow and ReplaceWindow with an invalid window (Builtins.cpp:397);
  - ActivateWindowAndFocus and ReplaceWindowAndFocus with an invalid window (433);
  - PlayMedia when the resume menu is dismissed (670);
  - PlayMedia when the player refuses the item (714). The model records the `PlayMedia` call as an event and does not decide whether the player accepts it, so the code is 0 either way;
  - PlayOffset with an unknown playlist (1030);
  - AlarmClock when the time dialog is dismissed (1082);
  - AlarmClock with a refused time (1099).

  The code is followed here, not a reading where such a refusal returns -1.
- Host.Builtins.Execute: its contract states the return code, that the log only grows, and that an unknown name changes nothing. What each branch does to the state is stated by the per-branch methods it calls, which carry the full contract.
- Host.Builtins.RunAddonCommand: states the code and the growth of the log. The state change is that of the nested `Execute`.
- HostSpec.BranchCodeValues: RunAddon is excluded here. Its code is stated by `HostSpec.AddonCode` and `HostSpec.RunAddonWithoutAddon`.
- The `*Branch` methods of `Host.Builtins` are wrappers that keep each group method small. Of the contract of the `Run*` method they call, they keep only the return code and the growth of the log, and drop what it says about the new state. This is why the group methods above them say nothing about the new state.
- Host.Builtins.RunHandler: states the return code, the growth of the log and that `Unknown` changes nothing. The new state of each branch is given only by the per-branch `Run*` methods.
- Host.Builtins.RunBuiltin: states the return code and the growth of the log. The new state is given only by the per-branch `Run*` methods.
- Host.Builtins.RunPlayback: states the return code and the growth of the log. The new state is given only by the per-branch `Run*` methods.
- Host.Builtins.RunStart: states the return code and the growth of the log. The new state is given only by the per-branch `Run*` methods.
- Host.Builtins.RunPlayerState: states the return code and the growth of the log. The new state is given only by the per-branch `Run*` methods.
- Host.Builtins.RunSettings: states the return code and the growth of the log. The new state is given only by the per-branch `Run*` methods.
- Host.Builtins.RunWindowState: states the return code and the growth of the log. The new state is given only by the per-branch `Run*` methods.
- Host.Builtins.RunSkin: states the return code and the growth of the log. The new state is given only by the per-branch `Run*` methods.
- Host.Builtins.RunLibrary: states the return code and the growth of the log. The new state is given only by the per-branch `Run*` methods.
- Host.Builtins.RunMute: the call to `ToggleMute` is represented by the change of `muted` alone, without an event in the log. The same holds for these other calls whose whole effect is a field of `State`:
  - `SetVolume`;
  - the alarm clock's `Start` and `Stop` (`RunAlarmClock`, `RunCancelAlarm`);
  - the setting of a skin value, whose following `SaveSettings` call is logged;
  - the player calls of `Host.Builtins.PlayerStep`: `SetPlaySpeed`, `Pause`, `StopPlaying` and `ToggleRecord`.

  `Host.Builtins.RunUpdateLibrary` and `Host.Builtins.RunSystemLogoff` log their calls as well as changing the state. These are the scan starts and stops, logoff's `StopPlaying`, and its `ActivateWindow` of the login screen.
- Host.Builtins.PlayMediaPreludeCalls: `SetVideoStartWindowed(true)` is logged once however many `1` options are given, while the source calls it once per such option. The call sets a flag, so the repeats have no further effect.
