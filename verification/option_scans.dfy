/**
 * The loops of CBuiltins::Execute that read optional parameters or walk a
 * list: SlideShow's flags, AlarmClock's flags, the focus pairs of
 * ReplaceWindowAndFocus/ActivateWindowAndFocus, PlayMedia's options and the
 * folder filtering of PlayMedia.
 */
module OptionScans {
  import opened Text

  // ---------------------------------------------------------------- SlideShow

  /** The flag bit one SlideShow option sets: recursive 1, random 2, notrandom 4, pause 8, anything else 0. */
  function SlideFlag(option: string, ignoreCase: bool): bv8 {
    if Equals(option, "recursive", ignoreCase) then 1
    else if Equals(option, "random", ignoreCase) then 2
    else if Equals(option, "notrandom", ignoreCase) then 4
    else if Equals(option, "pause", ignoreCase) then 8
    else 0
  }

  /** An option that names the first slide: it sets no flag and starts with beginslide= in any case. */
  predicate IsBeginSlide(option: string, ignoreCase: bool) {
    SlideFlag(option, ignoreCase) == 0 && StartsWithNoCase(option, "beginslide=")
  }

  /** The flags after the options params[1..n]: each one adds its bit. */
  function FlagsUpTo(params: seq<string>, n: nat, ignoreCase: bool): bv8
    requires n <= |params|
    decreases n
  {
    if n <= 1 then 0 else FlagsUpTo(params, n - 1, ignoreCase) | SlideFlag(params[n - 1], ignoreCase)
  }

  /** The first slide after the options params[1..n]: the text behind beginslide= of the last such option. */
  function BeginSlideUpTo(params: seq<string>, n: nat, ignoreCase: bool): string
    requires n <= |params|
    decreases n
  {
    if n <= 1 then ""
    else if IsBeginSlide(params[n - 1], ignoreCase) then params[n - 1][11..]
    else BeginSlideUpTo(params, n - 1, ignoreCase)
  }

  /** The options loop of SlideShow(dir, ...). */
  method SlideShowOptions(params: seq<string>, ignoreCase: bool) returns (flags: bv8, beginSlide: string)
    ensures flags == FlagsUpTo(params, |params|, ignoreCase)
    ensures beginSlide == BeginSlideUpTo(params, |params|, ignoreCase)
  {
    flags := 0;
    beginSlide := "";
    var i := 1;
    while i < |params|
      invariant 1 <= i && (i <= |params| || |params| == 0)
      invariant |params| > 0 ==> flags == FlagsUpTo(params, i, ignoreCase)
      invariant |params| > 0 ==> beginSlide == BeginSlideUpTo(params, i, ignoreCase)
      invariant |params| == 0 ==> flags == 0 && beginSlide == ""
    {
      flags, beginSlide := SlideShowOption(flags, beginSlide, params[i], ignoreCase);
      i := i + 1;
    }
  }

  /** One pass of the options loop: a flag option sets its bit, a beginslide= option replaces the first slide. */
  method SlideShowOption(flags: bv8, beginSlide: string, option: string, ignoreCase: bool)
    returns (flags': bv8, beginSlide': string)
    ensures flags' == flags | SlideFlag(option, ignoreCase)
    ensures beginSlide' == if IsBeginSlide(option, ignoreCase) then option[11..] else beginSlide
  {
    flags', beginSlide' := flags, beginSlide;
    if Equals(option, "recursive", ignoreCase) {
      flags' := flags | 1;
    } else if Equals(option, "random", ignoreCase) {
      flags' := flags | 2;
    } else if Equals(option, "notrandom", ignoreCase) {
      flags' := flags | 4;
    } else if Equals(option, "pause", ignoreCase) {
      flags' := flags | 8;
    } else if StartsWithNoCase(option, "beginslide=") {
      beginSlide' := option[11..];
    }
  }

  /** A flag bit is set exactly when some option names it, and no bit above the four flags is ever set. */
  lemma {:induction false} FlagsUpToMeans(params: seq<string>, n: nat, ignoreCase: bool, bit: bv8)
    requires n <= |params|
    requires bit == 1 || bit == 2 || bit == 4 || bit == 8
    ensures FlagsUpTo(params, n, ignoreCase) & 0xF0 == 0
    ensures (FlagsUpTo(params, n, ignoreCase) & bit != 0) <==> exists k :: 1 <= k < n && SlideFlag(params[k], ignoreCase) == bit
    decreases n
  {
    if n > 1 {
      FlagsUpToMeans(params, n - 1, ignoreCase, bit);
      var f := SlideFlag(params[n - 1], ignoreCase);
      assert f == 0 || f == 1 || f == 2 || f == 4 || f == 8;
      assert (f & bit != 0) <==> f == bit;
    }
  }

  /** Without a beginslide= option the first slide stays empty. */
  lemma {:induction false} BeginSlideNone(params: seq<string>, n: nat, ignoreCase: bool)
    requires n <= |params|
    requires forall k :: 1 <= k < n ==> !IsBeginSlide(params[k], ignoreCase)
    ensures BeginSlideUpTo(params, n, ignoreCase) == ""
    decreases n
  {
    if n > 1 {
      BeginSlideNone(params, n - 1, ignoreCase);
    }
  }

  /** The first slide is the one named by the last beginslide= option. */
  lemma {:induction false} BeginSlideLast(params: seq<string>, n: nat, ignoreCase: bool, k: nat)
    requires 1 <= k < n <= |params| && IsBeginSlide(params[k], ignoreCase)
    requires forall m :: k < m < n ==> !IsBeginSlide(params[m], ignoreCase)
    ensures |params[k]| >= 11 && BeginSlideUpTo(params, n, ignoreCase) == params[k][11..]
    decreases n
  {
    if k < n - 1 {
      BeginSlideLast(params, n - 1, ignoreCase, k);
    }
  }

  // --------------------------------------------------------------- AlarmClock

  predicate IsSilentWord(option: string) {
    EqualsNoCase(option, "true") || EqualsNoCase(option, "silent")
  }

  /** AlarmClock's flags from the fourth parameter on: "true" or "silent" ask for silence, "loop" for a repeating alarm. */
  method AlarmOptions(params: seq<string>) returns (silent: bool, loop: bool)
    ensures silent <==> exists k :: 3 <= k < |params| && IsSilentWord(params[k])
    ensures loop <==> exists k :: 3 <= k < |params| && !IsSilentWord(params[k]) && EqualsNoCase(params[k], "loop")
  {
    silent, loop := false, false;
    var i := 3;
    while i < |params|
      invariant 3 <= i
      invariant silent <==> exists k :: 3 <= k < i && k < |params| && IsSilentWord(params[k])
      invariant loop <==> exists k :: 3 <= k < i && k < |params| && !IsSilentWord(params[k]) && EqualsNoCase(params[k], "loop")
    {
      if EqualsNoCase(params[i], "true") || EqualsNoCase(params[i], "silent") {
        silent := true;
      } else if EqualsNoCase(params[i], "loop") {
        loop := true;
      }
      i := i + 1;
    }
  }

  /** An alarm is started only for a time that is not negative, and positive when it loops. */
  predicate AlarmAccepted(seconds: int, loop: bool) {
    !(seconds < 0 || (seconds == 0 && loop))
  }

  // ------------------------------------------------------------ focus pairs

  /**
   * The focus messages of ReplaceWindowAndFocus/ActivateWindowAndFocus: from
   * the second parameter on, each pair (control id, item) becomes one
   * message with the control id and the item plus one; an unpaired last
   * parameter is ignored.
   */
  method FocusRequests(params: seq<string>) returns (requests: seq<(int, int)>)
    ensures |params| >= 1 ==> |requests| == (|params| - 1) / 2
    ensures |params| == 0 ==> requests == []
    ensures forall k :: 0 <= k < |requests| ==>
      2 * k + 2 < |params| && requests[k] == (Atoi(params[2 * k + 1]), Atoi(params[2 * k + 2]) + 1)
  {
    requests := [];
    var next := 1;
    while |params| > next + 1
      invariant next == 2 * |requests| + 1
      invariant |params| >= 1 ==> next <= |params|
      invariant forall k :: 0 <= k < |requests| ==>
        2 * k + 2 < |params| && requests[k] == (Atoi(params[2 * k + 1]), Atoi(params[2 * k + 2]) + 1)
    {
      var item := if |params| >= next + 2 then Atoi(params[next + 1]) + 1 else 0;
      requests := requests + [(Atoi(params[next]), item)];
      next := next + 2;
    }
    if |params| >= 1 {
      assert |params| == next || |params| == next + 1;
    }
  }

  // ---------------------------------------------------------------- PlayMedia

  /** What one PlayMedia option does; the first matching test wins. */
  datatype MediaOption = IsDirOption | WindowedOption | ResumeOption | NoResumeOption | PlayOffsetOption | OtherOption

  function MediaOptionOf(option: string, ignoreCase: bool): MediaOption {
    if Equals(option, "isdir", ignoreCase) then IsDirOption
    else if Equals(option, "1", ignoreCase) then WindowedOption
    else if Equals(option, "resume", ignoreCase) then ResumeOption
    else if Equals(option, "noresume", ignoreCase) then NoResumeOption
    else if StartsWithNoCase(option, "playoffset=") then PlayOffsetOption
    else OtherOption
  }

  /** The settings PlayMedia reads from its options. */
  datatype MediaSettings = MediaSettings(
    isDirectory: bool,       // isdir given
    startWindowed: bool,     // "1" given
    resume: bool,            // resume given: start from the resume point
    askToResume: bool,       // neither resume nor noresume given
    playOffset: int,         // zero-based start track
    offsetGiven: bool)       // a playoffset= option was seen

  /** The effect of one option on the settings. */
  function ApplyMediaOption(s: MediaSettings, option: string, ignoreCase: bool): MediaSettings {
    match MediaOptionOf(option, ignoreCase)
    case IsDirOption => s.(isDirectory := true)
    case WindowedOption => s.(startWindowed := true)
    case ResumeOption => s.(resume := true, askToResume := false)
    case NoResumeOption => s.(askToResume := false)
    case PlayOffsetOption => s.(playOffset := Atoi(option[11..]) - 1, offsetGiven := true)
    case OtherOption => s
  }

  const NoMediaOptions := MediaSettings(false, false, false, true, 0, false)

  /** The settings after the options params[1..n]. */
  function MediaSettingsUpTo(params: seq<string>, n: nat, ignoreCase: bool): MediaSettings
    requires n <= |params|
    decreases n
  {
    if n <= 1 then NoMediaOptions
    else ApplyMediaOption(MediaSettingsUpTo(params, n - 1, ignoreCase), params[n - 1], ignoreCase)
  }

  /** The options loop of PlayMedia(media, ...). */
  method PlayMediaOptions(params: seq<string>, ignoreCase: bool) returns (s: MediaSettings)
    ensures s == MediaSettingsUpTo(params, |params|, ignoreCase)
  {
    s := NoMediaOptions;
    var i := 1;
    while i < |params|
      invariant 1 <= i && (i <= |params| || |params| == 0)
      invariant |params| > 0 ==> s == MediaSettingsUpTo(params, i, ignoreCase)
      invariant |params| == 0 ==> s == NoMediaOptions
    {
      var option := params[i];
      if Equals(option, "isdir", ignoreCase) {
        s := s.(isDirectory := true);
      } else if Equals(option, "1", ignoreCase) {
        s := s.(startWindowed := true);
      } else if Equals(option, "resume", ignoreCase) {
        s := s.(resume := true, askToResume := false);
      } else if Equals(option, "noresume", ignoreCase) {
        s := s.(askToResume := false);
      } else if StartsWithNoCase(option, "playoffset=") {
        s := s.(playOffset := Atoi(option[11..]) - 1, offsetGiven := true);
      }
      i := i + 1;
    }
  }

  predicate HasOptionBefore(params: seq<string>, n: nat, kind: MediaOption, ignoreCase: bool)
    requires n <= |params|
  {
    exists k :: 1 <= k < n && MediaOptionOf(params[k], ignoreCase) == kind
  }

  /** Each flag of the settings reflects whether its option occurs among params[1..n]. */
  lemma {:induction false} MediaFlagsUpTo(params: seq<string>, n: nat, ignoreCase: bool)
    requires n <= |params|
    ensures var s := MediaSettingsUpTo(params, n, ignoreCase);
      && (s.isDirectory <==> HasOptionBefore(params, n, IsDirOption, ignoreCase))
      && (s.startWindowed <==> HasOptionBefore(params, n, WindowedOption, ignoreCase))
      && (s.resume <==> HasOptionBefore(params, n, ResumeOption, ignoreCase))
      && (s.askToResume <==> !HasOptionBefore(params, n, ResumeOption, ignoreCase) && !HasOptionBefore(params, n, NoResumeOption, ignoreCase))
      && (s.offsetGiven <==> HasOptionBefore(params, n, PlayOffsetOption, ignoreCase))
    decreases n
  {
    if n > 1 {
      MediaFlagsUpTo(params, n - 1, ignoreCase);
      HasOptionStep(params, n, IsDirOption, ignoreCase);
      HasOptionStep(params, n, WindowedOption, ignoreCase);
      HasOptionStep(params, n, ResumeOption, ignoreCase);
      HasOptionStep(params, n, NoResumeOption, ignoreCase);
      HasOptionStep(params, n, PlayOffsetOption, ignoreCase);
    }
  }

  lemma HasOptionStep(params: seq<string>, n: nat, kind: MediaOption, ignoreCase: bool)
    requires 1 < n <= |params|
    ensures HasOptionBefore(params, n, kind, ignoreCase)
            <==> HasOptionBefore(params, n - 1, kind, ignoreCase) || MediaOptionOf(params[n - 1], ignoreCase) == kind
  {
  }

  /** Only a playoffset= option changes the start track. */
  lemma OtherOptionKeepsOffset(s: MediaSettings, option: string, ignoreCase: bool)
    requires MediaOptionOf(option, ignoreCase) != PlayOffsetOption
    ensures ApplyMediaOption(s, option, ignoreCase).playOffset == s.playOffset
  {
  }

  /** A playoffset= option is long enough to hold its prefix. */
  lemma OffsetOptionLength(option: string, ignoreCase: bool)
    requires MediaOptionOf(option, ignoreCase) == PlayOffsetOption
    ensures |option| >= 11
  {
  }

  /** Without a playoffset= option the start track is 0. */
  lemma {:induction false} MediaOffsetNone(params: seq<string>, n: nat, ignoreCase: bool)
    requires n <= |params| && !HasOptionBefore(params, n, PlayOffsetOption, ignoreCase)
    ensures MediaSettingsUpTo(params, n, ignoreCase).playOffset == 0
    decreases n
  {
    if n > 1 {
      assert MediaOptionOf(params[n - 1], ignoreCase) != PlayOffsetOption;
      OtherOptionKeepsOffset(MediaSettingsUpTo(params, n - 1, ignoreCase), params[n - 1], ignoreCase);
      assert !HasOptionBefore(params, n - 1, PlayOffsetOption, ignoreCase);
      MediaOffsetNone(params, n - 1, ignoreCase);
    }
  }

  /** The start track is one less than the number after the last playoffset= option. */
  lemma {:induction false} MediaOffsetLast(params: seq<string>, n: nat, ignoreCase: bool, k: nat)
    requires 1 <= k < n <= |params| && MediaOptionOf(params[k], ignoreCase) == PlayOffsetOption
    requires forall m :: k < m < n ==> MediaOptionOf(params[m], ignoreCase) != PlayOffsetOption
    ensures |params[k]| >= 11 && MediaSettingsUpTo(params, n, ignoreCase).playOffset == Atoi(params[k][11..]) - 1
    decreases n
  {
    OffsetOptionLength(params[k], ignoreCase);
    if k < n - 1 {
      OtherOptionKeepsOffset(MediaSettingsUpTo(params, n - 1, ignoreCase), params[n - 1], ignoreCase);
      MediaOffsetLast(params, n - 1, ignoreCase, k);
    }
  }

  /** One entry of a folder listing, as PlayMedia sees it. */
  datatype MediaEntry = MediaEntry(path: string, isVideo: bool)

  /** The video entries of a listing, in order. */
  function VideosOf(items: seq<MediaEntry>): seq<MediaEntry> {
    if |items| == 0 then []
    else (if items[0].isVideo then [items[0]] else []) + VideosOf(items[1..])
  }

  /** VideosOf keeps exactly the video entries. */
  lemma {:induction false} VideosOfMembers(items: seq<MediaEntry>)
    ensures |VideosOf(items)| <= |items|
    ensures forall e :: e in VideosOf(items) <==> e in items && e.isVideo
    decreases |items|
  {
    if |items| > 0 {
      VideosOfMembers(items[1..]);
      assert items == [items[0]] + items[1..];
    }
  }

  /**
   * The scan of a folder's listing: whether it holds music (a non-video
   * entry) and video; the loop stops as soon as it has seen both.
   */
  method ScanFolder(items: seq<MediaEntry>) returns (containsMusic: bool, containsVideo: bool)
    ensures containsVideo <==> exists k :: 0 <= k < |items| && items[k].isVideo
    ensures containsMusic <==> exists k :: 0 <= k < |items| && !items[k].isVideo
  {
    containsMusic, containsVideo := false, false;
    var i := 0;
    while i < |items|
      invariant 0 <= i <= |items|
      invariant containsVideo <==> exists k :: 0 <= k < i && items[k].isVideo
      invariant containsMusic <==> exists k :: 0 <= k < i && !items[k].isVideo
    {
      var isVideo := items[i].isVideo;
      containsMusic := containsMusic || !isVideo;
      containsVideo := containsVideo || isVideo;
      if containsMusic && containsVideo {
        break;
      }
      i := i + 1;
    }
  }

  /** The removal loop for a mixed folder: walking backwards, every non-video entry is dropped. */
  method RemoveMusic(items: seq<MediaEntry>) returns (kept: seq<MediaEntry>)
    ensures kept == VideosOf(items)
  {
    kept := items;
    var i := |items| - 1;
    while i >= 0
      invariant -1 <= i < |items|
      invariant kept == items[..i + 1] + VideosOf(items[i + 1..])
    {
      RemoveStep(items, i, kept);
      if !kept[i].isVideo {
        kept := kept[..i] + kept[i + 1..];
      }
      i := i - 1;
    }
    assert items[..0] == [] && items[0..] == items;
  }

  /** One step of RemoveMusic: deciding entry i extends the filtered suffix by that entry. */
  lemma RemoveStep(items: seq<MediaEntry>, i: int, kept: seq<MediaEntry>)
    requires 0 <= i < |items| && kept == items[..i + 1] + VideosOf(items[i + 1..])
    ensures kept[i] == items[i]
    ensures (if kept[i].isVideo then kept else kept[..i] + kept[i + 1..]) == items[..i] + VideosOf(items[i..])
  {
    var tail := VideosOf(items[i + 1..]);
    assert items[i..][1..] == items[i + 1..];
    assert VideosOf(items[i..]) == (if items[i].isVideo then [items[i]] else []) + tail;
    assert items[..i + 1] == items[..i] + [items[i]];
    assert kept == items[..i] + [items[i]] + tail;
    if !items[i].isVideo {
      assert kept[..i] == items[..i];
      assert kept[i + 1..] == tail;
    }
  }
}
