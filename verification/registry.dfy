/**
 * The static table of built-in commands (`commands[]`) and the two read-only
 * queries on it: CBuiltins::HasCommand and CBuiltins::GetHelp.
 *
 * The table is the one compiled without TARGET_DARWIN, HAS_LIRC,
 * HAS_IRSERVERSUITE and TARGET_ANDROID, so RunAppleScript, the three LIRC
 * entries and StartAndroidActivity are absent.
 */
module Registry {
  import opened Text

  /** One entry of `commands[]`. */
  datatype BuiltIn = BuiltIn(command: string, needsParameters: bool, description: string)

  /**
   * `commands[]`, in table order. The table is written in parts of about
   * twenty entries only so that the verifier can index into it.
   */
  const Commands: seq<BuiltIn> := Part0 + Part1 + Part2 + Part3 + Part4 + Part5

  const Part0: seq<BuiltIn> := [
    BuiltIn("Help",                       false,  "This help message"),
    BuiltIn("Reboot",                     false,  "Reboot the system"),
    BuiltIn("Restart",                    false,  "Restart the system (same as reboot)"),
    BuiltIn("ShutDown",                   false,  "Shutdown the system"),
    BuiltIn("Powerdown",                  false,  "Powerdown system"),
    BuiltIn("Quit",                       false,  "Quit XBMC"),
    BuiltIn("Hibernate",                  false,  "Hibernates the system"),
    BuiltIn("Suspend",                    false,  "Suspends the system"),
    BuiltIn("InhibitIdleShutdown",        false,  "Inhibit idle shutdown"),
    BuiltIn("AllowIdleShutdown",          false,  "Allow idle shutdown"),
    BuiltIn("ActivateScreensaver",        false,  "Activate Screensaver"),
    BuiltIn("RestartApp",                 false,  "Restart XBMC"),
    BuiltIn("Minimize",                   false,  "Minimize XBMC"),
    BuiltIn("Reset",                      false,  "Reset the system (same as reboot)"),
    BuiltIn("Mastermode",                 false,  "Control master mode"),
    BuiltIn("SetGUILanguage",             true,   "Set GUI Language"),
    BuiltIn("ActivateWindow",             true,   "Activate the specified window"),
    BuiltIn("ActivateWindowAndFocus",     true,   "Activate the specified window and sets focus to the specified id"),
    BuiltIn("ReplaceWindowAndFocus",      true,   "Replaces the current window with the new one and sets focus to the specified id"),
    BuiltIn("ReplaceWindow",              true,   "Replaces the current window with the new one")
  ]

  const Part1: seq<BuiltIn> := [
    BuiltIn("TakeScreenshot",             false,  "Takes a Screenshot"),
    BuiltIn("RunScript",                  true,   "Run the specified script"),
    BuiltIn("StopScript",                 true,   "Stop the script by ID or path, if running"),
    BuiltIn("RunPlugin",                  true,   "Run the specified plugin"),
    BuiltIn("RunAddon",                   true,   "Run the specified plugin/script"),
    BuiltIn("NotifyAll",                  true,   "Notify all connected clients"),
    BuiltIn("Extract",                    true,   "Extracts the specified archive"),
    BuiltIn("PlayMedia",                  true,   "Play the specified media file (or playlist)"),
    BuiltIn("SlideShow",                  true,   "Run a slideshow from the specified directory"),
    BuiltIn("RecursiveSlideShow",         true,   "Run a slideshow from the specified directory, including all subdirs"),
    BuiltIn("ReloadSkin",                 false,  "Reload XBMC's skin"),
    BuiltIn("UnloadSkin",                 false,  "Unload XBMC's skin"),
    BuiltIn("RefreshRSS",                 false,  "Reload RSS feeds from RSSFeeds.xml"),
    BuiltIn("PlayerControl",              true,   "Control the music or video player"),
    BuiltIn("Playlist.PlayOffset",        true,   "Start playing from a particular offset in the playlist"),
    BuiltIn("Playlist.Clear",             false,  "Clear the current playlist"),
    BuiltIn("EjectTray",                  false,  "Close or open the DVD tray"),
    BuiltIn("AlarmClock",                 true,   "Prompt for a length of time and start an alarm clock"),
    BuiltIn("CancelAlarm",                true,   "Cancels an alarm"),
    BuiltIn("Action",                     true,   "Executes an action for the active window (same as in keymap)")
  ]

  const Part2: seq<BuiltIn> := [
    BuiltIn("Notification",               true,   "Shows a notification on screen, specify header, then message, and optionally time in milliseconds and a icon."),
    BuiltIn("PlayDVD",                    false,  "Plays the inserted CD or DVD media from the DVD-ROM Drive!"),
    BuiltIn("RipCD",                      false,  "Rip the currently inserted audio CD"),
    BuiltIn("Skin.ToggleSetting",         true,   "Toggles a skin setting on or off"),
    BuiltIn("Skin.SetString",             true,   "Prompts and sets skin string"),
    BuiltIn("Skin.SetNumeric",            true,   "Prompts and sets numeric input"),
    BuiltIn("Skin.SetPath",               true,   "Prompts and sets a skin path"),
    BuiltIn("Skin.Theme",                 true,   "Control skin theme"),
    BuiltIn("Skin.SetImage",              true,   "Prompts and sets a skin image"),
    BuiltIn("Skin.SetLargeImage",         true,   "Prompts and sets a large skin images"),
    BuiltIn("Skin.SetFile",               true,   "Prompts and sets a file"),
    BuiltIn("Skin.SetAddon",              true,   "Prompts and set an addon"),
    BuiltIn("Skin.SetBool",               true,   "Sets a skin setting on"),
    BuiltIn("Skin.Reset",                 true,   "Resets a skin setting to default"),
    BuiltIn("Skin.ResetSettings",         false,  "Resets all skin settings"),
    BuiltIn("Mute",                       false,  "Mute the player"),
    BuiltIn("SetVolume",                  true,   "Set the current volume"),
    BuiltIn("Dialog.Close",               true,   "Close a dialog"),
    BuiltIn("System.LogOff",              false,  "Log off current user"),
    BuiltIn("System.Exec",                true,   "Execute shell commands")
  ]

  const Part3: seq<BuiltIn> := [
    BuiltIn("System.ExecWait",            true,   "Execute shell commands and freezes XBMC until shell is closed"),
    BuiltIn("Resolution",                 true,   "Change XBMC's Resolution"),
    BuiltIn("SetFocus",                   true,   "Change current focus to a different control id"),
    BuiltIn("UpdateLibrary",              true,   "Update the selected library (music or video)"),
    BuiltIn("CleanLibrary",               true,   "Clean the video/music library"),
    BuiltIn("ExportLibrary",              true,   "Export the video/music library"),
    BuiltIn("PageDown",                   true,   "Send a page down event to the pagecontrol with given id"),
    BuiltIn("PageUp",                     true,   "Send a page up event to the pagecontrol with given id"),
    BuiltIn("Container.Refresh",          false,  "Refresh current listing"),
    BuiltIn("Container.Update",           false,  "Update current listing. Send Container.Update(path,replace) to reset the path history"),
    BuiltIn("Container.NextViewMode",     false,  "Move to the next view type (and refresh the listing)"),
    BuiltIn("Container.PreviousViewMode", false,  "Move to the previous view type (and refresh the listing)"),
    BuiltIn("Container.SetViewMode",      true,   "Move to the view with the given id"),
    BuiltIn("Container.NextSortMethod",   false,  "Change to the next sort method"),
    BuiltIn("Container.PreviousSortMethod", false, "Change to the previous sort method"),
    BuiltIn("Container.SetSortMethod",    true,   "Change to the specified sort method"),
    BuiltIn("Container.SortDirection",    false,  "Toggle the sort direction"),
    BuiltIn("Control.Move",               true,   "Tells the specified control to 'move' to another entry specified by offset"),
    BuiltIn("Control.SetFocus",           true,   "Change current focus to a different control id"),
    BuiltIn("Control.Message",            true,   "Send a given message to a control within a given window"),
    BuiltIn("SendClick",                  true,   "Send a click message from the given control to the given window")
  ]

  const Part4: seq<BuiltIn> := [
    BuiltIn("LoadProfile",                true,   "Load the specified profile (note; if locks are active it won't work)"),
    BuiltIn("SetProperty",                true,   "Sets a window property for the current focused window/dialog (key,value)"),
    BuiltIn("ClearProperty",              true,   "Clears a window property for the current focused window/dialog (key,value)"),
    BuiltIn("PlayWith",                   true,   "Play the selected item with the specified core"),
    BuiltIn("WakeOnLan",                  true,   "Sends the wake-up packet to the broadcast address for the specified MAC address"),
    BuiltIn("Addon.Default.OpenSettings", true,   "Open a settings dialog for the default addon of the given type"),
    BuiltIn("Addon.Default.Set",          true,   "Open a select dialog to allow choosing the default addon of the given type"),
    BuiltIn("Addon.OpenSettings",         true,   "Open a settings dialog for the addon of the given id"),
    BuiltIn("UpdateAddonRepos",           false,  "Check add-on repositories for updates"),
    BuiltIn("UpdateLocalAddons",          false,  "Check for local add-on changes"),
    BuiltIn("ToggleDPMS",                 false,  "Toggle DPMS mode manually"),
    BuiltIn("CECToggleState",             false,  "Toggle state of playing device via a CEC peripheral"),
    BuiltIn("CECActivateSource",          false,  "Wake up playing device via a CEC peripheral"),
    BuiltIn("CECStandby",                 false,  "Put playing device on standby via a CEC peripheral"),
    BuiltIn("Weather.Refresh",            false,  "Force weather data refresh"),
    BuiltIn("Weather.LocationNext",       false,  "Switch to next weather location"),
    BuiltIn("Weather.LocationPrevious",   false,  "Switch to previous weather location"),
    BuiltIn("Weather.LocationSet",        true,   "Switch to given weather location (parameter can be 1-3)"),
    BuiltIn("VideoLibrary.Search",        false,  "Brings up a search dialog which will search the library"),
    BuiltIn("ToggleDebug",                false,  "Enables/disables debug mode")
  ]

  const Part5: seq<BuiltIn> := [
    BuiltIn("StartPVRManager",            false,  "(Re)Starts the PVR manager"),
    BuiltIn("StopPVRManager",             false,  "Stops the PVR manager"),
    BuiltIn("SetStereoMode",              true,   "Changes the stereo mode of the GUI. Params can be: toggle, next, previous, select, tomono or any of the supported stereomodes (off, split_vertical, split_horizontal, row_interleaved, hardware_based, anaglyph_cyan_red, anaglyph_green_magenta, monoscopic)")
  ]

  /** The test HasCommand applies to one entry: the name matches ignoring case and the arity gate passes. */
  predicate Accepts(entry: BuiltIn, name: string, parameters: seq<string>) {
    EqualsNoCase(name, entry.command) && (!entry.needsParameters || |parameters| > 0)
  }

  /** The loop of HasCommand from entry `i` on: it stops at the first entry that accepts. */
  function SearchFrom(table: seq<BuiltIn>, name: string, parameters: seq<string>, i: nat): (found: bool)
    requires i <= |table|
    decreases |table| - i
    ensures found <==> exists j :: i <= j < |table| && Accepts(table[j], name, parameters)
  {
    if i == |table| then false
    else if Accepts(table[i], name, parameters) then true
    else SearchFrom(table, name, parameters, i + 1)
  }

  /**
   * CBuiltins::HasCommand, given the function name and parameters that the
   * command splitter produced.
   */
  function HasCommand(name: string, parameters: seq<string>): (r: bool)
    ensures r <==> exists j :: 0 <= j < |Commands| && Accepts(Commands[j], name, parameters)
  {
    SearchFrom(Commands, name, parameters, 0)
  }

  /** Only the letters' case-insensitive form of the name and whether any parameter was given matter. */
  lemma HasCommandDependsOnlyOnFoldedName(f: string, g: string, p: seq<string>, q: seq<string>)
    requires Lower(f) == Lower(g)
    requires (|p| > 0) == (|q| > 0)
    ensures HasCommand(f, p) == HasCommand(g, q)
  {
    forall j | 0 <= j < |Commands|
      ensures Accepts(Commands[j], f, p) == Accepts(Commands[j], g, q)
    {
      EqualsNoCaseMeansLowerEqual(f, Commands[j].command);
      EqualsNoCaseMeansLowerEqual(g, Commands[j].command);
    }
  }

  /** One line of the help text. */
  function HelpLine(entry: BuiltIn): string {
    entry.command + "\t" + entry.description + "\n"
  }

  /** The help text of a table: its lines in table order. */
  function HelpText(table: seq<BuiltIn>): string {
    if |table| == 0 then "" else HelpText(table[..|table| - 1]) + HelpLine(table[|table| - 1])
  }

  /**
   * CBuiltins::GetHelp: the output is first cleared, then every entry appends
   * name, tab, description and newline, in table order.
   */
  method GetHelp() returns (help: string)
    ensures help == HelpText(Commands)
  {
    help := HelpOf(Commands);
  }

  /** The loop of GetHelp, over any table. */
  method HelpOf(table: seq<BuiltIn>) returns (help: string)
    ensures help == HelpText(table)
  {
    help := "";
    var i := 0;
    while i < |table|
      invariant 0 <= i <= |table|
      invariant help == HelpText(table[..i])
    {
      assert table[..i + 1][..i] == table[..i];
      help := help + table[i].command;
      help := help + "\t";
      help := help + table[i].description;
      help := help + "\n";
      i := i + 1;
    }
    assert table[..i] == table;
  }

  lemma {:induction false} HelpTextCons(table: seq<BuiltIn>)
    requires |table| > 0
    ensures HelpText(table) == HelpLine(table[0]) + HelpText(table[1..])
  {
    if |table| > 1 {
      var init := table[..|table| - 1];
      HelpTextCons(init);
      assert init[1..] == table[1..][..|table[1..]| - 1];
      assert init[0] == table[0];
    } else {
      assert table[..0] == [];
      assert table[1..] == [];
    }
  }

  /** Reads help text back: one (name, description) pair per line, split at the line's first tab. */
  function ParseHelp(s: string): seq<(string, string)>
    decreases |s|
  {
    if |s| == 0 then []
    else
      var nl := IndexOf(s, '\n');
      var line := s[..nl];
      var tab := IndexOf(line, '\t');
      var entry := (line[..tab], if tab < |line| then line[tab + 1..] else "");
      [entry] + (if nl < |s| then ParseHelp(s[nl + 1..]) else [])
  }

  /** Names without tab or newline and descriptions without newline make the help text readable back. */
  predicate Printable(table: seq<BuiltIn>) {
    forall j :: 0 <= j < |table| ==>
      '\t' !in table[j].command && '\n' !in table[j].command && '\n' !in table[j].description
  }

  function Pairs(table: seq<BuiltIn>): (r: seq<(string, string)>)
    ensures |r| == |table|
    ensures forall j :: 0 <= j < |table| ==> r[j] == (table[j].command, table[j].description)
  {
    if |table| == 0 then [] else [(table[0].command, table[0].description)] + Pairs(table[1..])
  }

  lemma ParseLine(e: BuiltIn, rest: string)
    requires '\t' !in e.command && '\n' !in e.command && '\n' !in e.description
    ensures ParseHelp(HelpLine(e) + rest) == [(e.command, e.description)] + ParseHelp(rest)
  {
    var s := HelpLine(e) + rest;
    var line := e.command + ("\t" + e.description);
    assert s == line + ("\n" + rest);
    IndexOfBehindPrefix(line, "\n" + rest, '\n');
    assert s[..|line|] == line && s[|line| + 1..] == rest;
    IndexOfBehindPrefix(e.command, "\t" + e.description, '\t');
    assert line[..|e.command|] == e.command && line[|e.command| + 1..] == e.description;
  }

  /** GetHelp's output determines the table's names and descriptions, in order. */
  lemma {:induction false} HelpRoundTrip(table: seq<BuiltIn>)
    requires Printable(table)
    ensures ParseHelp(HelpText(table)) == Pairs(table)
  {
    if |table| > 0 {
      HelpTextCons(table);
      HelpRoundTrip(table[1..]);
      ParseLine(table[0], HelpText(table[1..]));
    }
  }
}
