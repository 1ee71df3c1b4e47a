/**
 * The RunAddon handler of CBuiltins::Execute: from the add-on's kind and the
 * parameters it builds one new built-in command string, which Execute then
 * runs once.
 */
module AddonRules {
  import opened Text

  /** The content kinds a plugin add-on may declare it provides (CPluginSource::Content). */
  datatype Content = VideoContent | AudioContent | ExecutableContent | ImageContent

  /** What the add-on manager finds under an id: a plugin, a script (plain, weather or lyrics), or nothing. */
  datatype AddonLookup = PluginAddon(kinds: set<Content>) | ScriptAddon | NoAddon

  /**
   * The query part appended to plugin://<id>: a single parameter that already
   * starts with '/' or '?' is used verbatim, further parameters are joined with
   * '&' behind a '?', and no parameters give "/".
   */
  function UrlSuffix(params: seq<string>): (r: string)
    requires |params| >= 1
    ensures |r| >= 1 && (r[0] == '/' || r[0] == '?')
    ensures |params| == 1 ==> r == "/"
    ensures |params| == 2 && (StartsWith(params[1], "/") || StartsWith(params[1], "?")) ==> r == params[1]
    ensures |params| > 1 && !(|params| == 2 && (StartsWith(params[1], "/") || StartsWith(params[1], "?"))) ==>
      r == "?" + Join(params[1..], "&")
  {
    if |params| == 2 && (StartsWith(params[1], "/") || StartsWith(params[1], "?")) then params[1]
    else if |params| > 1 then "?" + Join(params[1..], "&")
    else "/"
  }

  /** The window a plugin opens: the first of video, audio, executable, image that it provides. */
  function PluginWindow(kinds: set<Content>): string {
    if VideoContent in kinds then "Videos"
    else if AudioContent in kinds then "Music"
    else if ExecutableContent in kinds then "Programs"
    else if ImageContent in kinds then "Pictures"
    else ""
  }

  function PluginUrl(id: string, suffix: string): string {
    "plugin://" + id + suffix
  }

  /** The command string RunAddon(params) executes; empty when no add-on has the id params[0]. */
  function AddonCommand(lookup: AddonLookup, params: seq<string>): (r: string)
    requires |params| >= 1
    ensures lookup == NoAddon ==> r == ""
    ensures lookup.ScriptAddon? ==> r == "RunScript(" + Join(params, ",") + ")"
    ensures lookup.PluginAddon? && PluginWindow(lookup.kinds) == "" ==> r == "RunPlugin(" + Join(params, ",") + ")"
    ensures lookup.PluginAddon? && PluginWindow(lookup.kinds) != "" ==>
      r == "ActivateWindow(" + (PluginWindow(lookup.kinds) + "," + PluginUrl(params[0], UrlSuffix(params)) + ",return") + ")"
  {
    match lookup
    case NoAddon => ""
    case ScriptAddon => "RunScript(" + Join(params, ",") + ")"
    case PluginAddon(kinds) =>
      var window := PluginWindow(kinds);
      if window == "" then "RunPlugin(" + Join(params, ",") + ")"
      else "ActivateWindow(" + (window + "," + PluginUrl(params[0], UrlSuffix(params)) + ",return") + ")"
  }

  /** The built-in name of a command string: the text before its first '('. */
  function CommandName(command: string): (r: string)
    ensures |r| <= |command| && r == command[..|r|]
    ensures '(' !in r
  {
    command[..IndexOf(command, '(')]
  }

  /** Video wins over every other kind, audio over executable and image, executable over image. */
  lemma CategoryOrder(kinds: set<Content>)
    ensures VideoContent in kinds ==> PluginWindow(kinds) == "Videos"
    ensures VideoContent !in kinds && AudioContent in kinds ==> PluginWindow(kinds) == "Music"
    ensures VideoContent !in kinds && AudioContent !in kinds && ExecutableContent in kinds ==> PluginWindow(kinds) == "Programs"
    ensures kinds == {ImageContent} ==> PluginWindow(kinds) == "Pictures"
    ensures PluginWindow(kinds) == "" <==> kinds == {}
  {
    if PluginWindow(kinds) == "" {
      forall c: Content | c in kinds ensures false {
        match c
        case VideoContent =>
        case AudioContent =>
        case ExecutableContent =>
        case ImageContent =>
      }
    }
  }

  /** The arguments of a command string: the text between its first '(' and a closing ')' at its end. */
  function CommandArguments(command: string): string {
    var k := IndexOf(command, '(');
    if k + 2 <= |command| && command[|command| - 1] == ')' then command[k + 1..|command| - 1] else ""
  }

  /** `opening` is a built-in name followed by its '('. */
  lemma CommandArgumentsOf(opening: string, arguments: string)
    requires |opening| > 0 && opening[|opening| - 1] == '(' && '(' !in opening[..|opening| - 1]
    ensures CommandArguments(opening + arguments + ")") == arguments
  {
    var name := opening[..|opening| - 1];
    var command := opening + arguments + ")";
    assert command == name + ("(" + arguments + ")");
    IndexOfBehindPrefix(name, "(" + arguments + ")", '(');
    assert command[|name| + 1..|command| - 1] == arguments;
  }

  /**
   * The command RunAddon builds, read back as a built-in name and its
   * arguments: a script or a windowless plugin receives all parameters joined
   * with ',', any other plugin opens its window on its plugin:// URL and
   * returns there.
   */
  lemma AddonCommandParts(lookup: AddonLookup, params: seq<string>)
    requires |params| >= 1
    ensures lookup == NoAddon <==> AddonCommand(lookup, params) == ""
    ensures lookup.ScriptAddon? ==>
      CommandName(AddonCommand(lookup, params)) == "RunScript" && CommandArguments(AddonCommand(lookup, params)) == Join(params, ",")
    ensures lookup.PluginAddon? && PluginWindow(lookup.kinds) == "" ==>
      CommandName(AddonCommand(lookup, params)) == "RunPlugin" && CommandArguments(AddonCommand(lookup, params)) == Join(params, ",")
    ensures lookup.PluginAddon? && PluginWindow(lookup.kinds) != "" ==>
      CommandName(AddonCommand(lookup, params)) == "ActivateWindow" &&
      CommandArguments(AddonCommand(lookup, params)) == PluginWindow(lookup.kinds) + "," + PluginUrl(params[0], UrlSuffix(params)) + ",return"
  {
    match lookup
    case NoAddon =>
    case ScriptAddon =>
      ScriptCommandName(params);
      ScriptCommandArguments(params);
    case PluginAddon(kinds) =>
      PluginCommandName(kinds, params);
      if PluginWindow(kinds) == "" {
        RunPluginArguments(kinds, params);
      } else {
        ActivateWindowArguments(kinds, params);
      }
  }

  lemma ScriptCommandArguments(params: seq<string>)
    requires |params| >= 1
    ensures CommandArguments(AddonCommand(ScriptAddon, params)) == Join(params, ",")
  {
    CommandArgumentsOf("RunScript(", Join(params, ","));
  }

  lemma RunPluginArguments(kinds: set<Content>, params: seq<string>)
    requires |params| >= 1 && PluginWindow(kinds) == ""
    ensures CommandArguments(AddonCommand(PluginAddon(kinds), params)) == Join(params, ",")
  {
    CommandArgumentsOf("RunPlugin(", Join(params, ","));
  }

  lemma ActivateWindowArguments(kinds: set<Content>, params: seq<string>)
    requires |params| >= 1 && PluginWindow(kinds) != ""
    ensures CommandArguments(AddonCommand(PluginAddon(kinds), params)) == PluginWindow(kinds) + "," + PluginUrl(params[0], UrlSuffix(params)) + ",return"
  {
    var arguments := PluginWindow(kinds) + "," + PluginUrl(params[0], UrlSuffix(params)) + ",return";
    assert AddonCommand(PluginAddon(kinds), params) == "ActivateWindow(" + arguments + ")";
    CommandArgumentsOf("ActivateWindow(", arguments);
  }

  lemma CommandNameOf(name: string, rest: string)
    requires '(' !in name
    ensures CommandName(name + "(" + rest) == name
  {
    IndexOfBehindPrefix(name, "(" + rest, '(');
    assert name + "(" + rest == name + ("(" + rest);
    assert (name + ("(" + rest))[..|name|] == name;
  }

  /**
   * The command RunAddon builds names ActivateWindow, RunPlugin, RunScript or
   * nothing, so the one nested Execute cannot reach RunAddon again.
   */
  lemma RedispatchIsNotRunAddon(lookup: AddonLookup, params: seq<string>)
    requires |params| >= 1
    ensures CommandName(AddonCommand(lookup, params)) in {"ActivateWindow", "RunPlugin", "RunScript", ""}
    ensures Lower(CommandName(AddonCommand(lookup, params))) != "runaddon"
  {
    RedispatchNames(lookup, params);
    var n := CommandName(AddonCommand(lookup, params));
    assert |Lower(n)| != |"runaddon"|;
  }

  /** The name of the command RunAddon builds, by the kind of add-on. */
  lemma RedispatchNames(lookup: AddonLookup, params: seq<string>)
    requires |params| >= 1
    ensures CommandName(AddonCommand(lookup, params)) in {"ActivateWindow", "RunPlugin", "RunScript", ""}
  {
    match lookup
    case NoAddon =>
    case ScriptAddon => ScriptCommandName(params);
    case PluginAddon(kinds) => PluginCommandName(kinds, params);
  }

  lemma ScriptCommandName(params: seq<string>)
    requires |params| >= 1
    ensures CommandName(AddonCommand(ScriptAddon, params)) == "RunScript"
  {
    assert AddonCommand(ScriptAddon, params) == "RunScript" + "(" + (Join(params, ",") + ")");
    CommandNameOf("RunScript", Join(params, ",") + ")");
  }

  lemma PluginCommandName(kinds: set<Content>, params: seq<string>)
    requires |params| >= 1
    ensures CommandName(AddonCommand(PluginAddon(kinds), params)) == if PluginWindow(kinds) == "" then "RunPlugin" else "ActivateWindow"
  {
    var r := AddonCommand(PluginAddon(kinds), params);
    if PluginWindow(kinds) == "" {
      assert r == "RunPlugin" + "(" + (Join(params, ",") + ")");
      CommandNameOf("RunPlugin", Join(params, ",") + ")");
    } else {
      var tail := PluginWindow(kinds) + "," + PluginUrl(params[0], UrlSuffix(params)) + ",return)";
      assert r == "ActivateWindow" + "(" + tail;
      CommandNameOf("ActivateWindow", tail);
    }
  }

  /** Position of the first '/' or '?' in `s`, or `|s|`. */
  function QueryStart(s: string): (k: nat)
    ensures k <= |s|
    ensures forall i :: 0 <= i < k ==> s[i] != '/' && s[i] != '?'
  {
    if |s| == 0 || s[0] == '/' || s[0] == '?' then 0 else 1 + QueryStart(s[1..])
  }

  /** Splits a plugin:// URL into the add-on id and what follows it. */
  function ParsePluginUrl(url: string): (string, string) {
    if |url| >= 9 && url[..9] == "plugin://" then
      var rest := url[9..];
      var k := QueryStart(rest);
      (rest[..k], rest[k..])
    else ("", url)
  }

  lemma {:induction false} QueryStartBehindId(id: string, suffix: string)
    requires forall i :: 0 <= i < |id| ==> id[i] != '/' && id[i] != '?'
    requires |suffix| >= 1 && (suffix[0] == '/' || suffix[0] == '?')
    ensures QueryStart(id + suffix) == |id|
    decreases |id|
  {
    if |id| > 0 {
      assert (id + suffix)[1..] == id[1..] + suffix;
      QueryStartBehindId(id[1..], suffix);
    }
  }

  /** The URL RunAddon opens gives back the add-on id and the parameters it was built from. */
  lemma PluginUrlRoundTrip(id: string, params: seq<string>)
    requires |params| >= 1
    requires forall i :: 0 <= i < |id| ==> id[i] != '/' && id[i] != '?'
    ensures ParsePluginUrl(PluginUrl(id, UrlSuffix(params))) == (id, UrlSuffix(params))
  {
    var suffix := UrlSuffix(params);
    var url := PluginUrl(id, suffix);
    assert url[..9] == "plugin://";
    assert url[9..] == id + suffix;
    QueryStartBehindId(id, suffix);
    assert (id + suffix)[..|id|] == id;
    assert (id + suffix)[|id|..] == suffix;
  }

  /** A video plugin run with only its id opens the Videos window on the plugin's root, with a trailing '/'. */
  lemma VideoPluginWithoutParameters(id: string)
    ensures AddonCommand(PluginAddon({VideoContent}), [id]) == "ActivateWindow(" + ("Videos" + "," + PluginUrl(id, "/") + ",return") + ")"
  {
    assert PluginWindow({VideoContent}) == "Videos";
    assert UrlSuffix([id]) == "/";
  }
}
