/** The popup: its plain-text test-case report, the export and copy guards, the state of its
    controls, clearing the recording, and the browser, OS and resolution it records as system
    information. */
module Popup {
  import opened Common
  import opened Text
  import opened Records

  // ---------------------------------------------------------------- report

  /** The banner and the system information block. */
  function ReportHeader(si: SystemInfo): string
  {
    "============== TEST CASE REPORT ==============\n\n" + "=== SYSTEM INFORMATION ===\n"
    + ("Browser: " + si.browser + "\n") + ("OS: " + si.os + "\n") + ("Resolution: " + si.resolution + "\n")
    + ("Timestamp: " + si.timestamp + "\n\n") + "=== STEPS TO REPRODUCE ===\n"
  }

  /** The `Step n: action` and `Description:` lines of the `n`-th step. */
  function ReportStepLines(n: nat, step: Step): string
  {
    ("Step " + NatToString(n) + ": " + step.action + "\n") + ("Description: " + step.description + "\n")
  }

  /** The `XPath:` and `CSS Selector:` lines of a step that has selectors. */
  function ReportSelectorLines(step: Step): string
  {
    match step.selectors
    case None => ""
    case Some(sel) => ("XPath: " + sel.xpath + "\n") + ("CSS Selector: " + sel.css + "\n")
  }

  /** The entry of the `n`-th step: its two lines, its selector lines, its timestamp and a blank line. */
  function ReportEntry(n: nat, step: Step): string
  {
    ReportStepLines(n, step) + ReportSelectorLines(step) + ("Timestamp: " + Show(step.timestamp) + "\n") + "\n"
  }

  function ReportEntries(steps: seq<Step>): string
  {
    if steps == [] then "" else ReportEntries(steps[..|steps| - 1]) + ReportEntry(|steps|, steps[|steps| - 1])
  }

  /** What generateTestCaseContent returns. It reads the system information without a check, so it
      throws when none is stored. */
  function PopupReport(steps: seq<Step>, info: Option<SystemInfo>): (r: Outcome<string>)
    ensures r.Throws? <==> info.None?
  {
    match info
    case None => Throws("TypeError: Cannot read properties of undefined (reading 'browser')")
    case Some(si) => Returns(ReportHeader(si) + ReportEntries(steps) + "=== END OF TEST CASE ===\n")
  }

  /** generateTestCaseContent: the header, one entry per step in order, the closing line. */
  method GenerateTestCaseContent(steps: seq<Step>, info: Option<SystemInfo>) returns (r: Outcome<string>)
    ensures r == PopupReport(steps, info)
  {
    if info.None? {
      return Throws("TypeError: Cannot read properties of undefined (reading 'browser')");
    }
    var content := ReportText(steps, info.value);
    r := Returns(content);
  }

  /** generateTestCaseContent once the system information is known to be there. */
  method ReportText(steps: seq<Step>, si: SystemInfo) returns (content: string)
    ensures content == ReportHeader(si) + ReportEntries(steps) + "=== END OF TEST CASE ===\n"
  {
    var header := ReportHeaderText(si);
    var entries := AllReportEntries(steps);
    content := header + entries + "=== END OF TEST CASE ===\n";
  }

  /** The `forEach` of generateTestCaseContent: each step's entry, in order. */
  method AllReportEntries(steps: seq<Step>) returns (content: string)
    ensures content == ReportEntries(steps)
  {
    content := "";
    assert steps[..0] == [];
    var index := 0;
    while index < |steps|
      invariant 0 <= index <= |steps|
      invariant content == ReportEntries(steps[..index])
    {
      var entry := ReportStepText(index, steps[index]);
      ReportEntriesPrefix(steps, index);
      content := content + entry;
      index := index + 1;
    }
    assert steps[..index] == steps;
  }

  /** The opening lines of generateTestCaseContent. */
  method ReportHeaderText(si: SystemInfo) returns (content: string)
    ensures content == ReportHeader(si)
  {
    content := "============== TEST CASE REPORT ==============\n\n";
    content := content + "=== SYSTEM INFORMATION ===\n";
    content := content + ("Browser: " + si.browser + "\n");
    content := content + ("OS: " + si.os + "\n");
    content := content + ("Resolution: " + si.resolution + "\n");
    content := content + ("Timestamp: " + si.timestamp + "\n\n");
    content := content + "=== STEPS TO REPRODUCE ===\n";
  }

  /** The body of the `forEach` of generateTestCaseContent for the step at `index`. */
  method ReportStepText(index: nat, step: Step) returns (text: string)
    ensures text == ReportEntry(index + 1, step)
  {
    text := "Step " + NatToString(index + 1) + ": " + step.action + "\n";
    text := text + ("Description: " + step.description + "\n");
    if step.selectors.Some? {
      text := text + ("XPath: " + step.selectors.value.xpath + "\n");
      text := text + ("CSS Selector: " + step.selectors.value.css + "\n");
    }
    text := text + ("Timestamp: " + Show(step.timestamp) + "\n");
    text := text + "\n";
  }

  lemma ReportEntriesPrefix(steps: seq<Step>, i: nat)
    requires i < |steps|
    ensures ReportEntries(steps[..i + 1]) == ReportEntries(steps[..i]) + ReportEntry(i + 1, steps[i])
  {
    assert steps[..i + 1][..i] == steps[..i];
  }

  /** The entries are the steps' entries numbered 1 to n, in the steps' order, and nothing else. */
  lemma {:induction false} ReportEntriesInOrder(steps: seq<Step>)
    ensures ReportEntries(steps) == ConcatAll(Numbered(steps, ReportEntry))
  {
    if steps != [] {
      var n := |steps| - 1;
      ReportEntriesInOrder(steps[..n]);
      NumberedSnoc(steps, n, ReportEntry);
      assert steps[..n + 1] == steps;
    }
  }

  /** Each entry opens with the step's number, action and description and closes with its timestamp
      line and a blank line; the selector lines are there exactly when the step has selectors. */
  lemma ReportEntryShape(n: nat, step: Step)
    ensures StartsWith(ReportEntry(n, step), ReportStepLines(n, step))
    ensures EndsWith(ReportEntry(n, step), ("Timestamp: " + Show(step.timestamp) + "\n") + "\n")
    ensures step.selectors.None? <==>
      ReportEntry(n, step) == ReportStepLines(n, step) + (("Timestamp: " + Show(step.timestamp) + "\n") + "\n")
  {
    var lines := ReportStepLines(n, step);
    var sel := ReportSelectorLines(step);
    var stamp := "Timestamp: " + Show(step.timestamp) + "\n";
    var tail := stamp + "\n";
    assert ReportEntry(n, step) == lines + sel + stamp + "\n";
    assert lines + sel + stamp + "\n" == lines + (sel + tail);
    assert lines + sel + stamp + "\n" == (lines + sel) + tail;
    StartsWithAppend(lines, sel + tail);
    EndsWithAppend(lines + sel, tail);
    if step.selectors.Some? {
      assert |sel| > 0;
      assert |ReportEntry(n, step)| > |lines + tail|;
    }
  }

  /** A report opens with the banner and the system information heading and closes with the end line. */
  lemma ReportFrame(steps: seq<Step>, si: SystemInfo)
    ensures PopupReport(steps, Some(si)).Returns?
    ensures StartsWith(PopupReport(steps, Some(si)).value,
                       "============== TEST CASE REPORT ==============\n\n" + "=== SYSTEM INFORMATION ===\n")
    ensures EndsWith(PopupReport(steps, Some(si)).value, "=== END OF TEST CASE ===\n")
  {
    var a := "============== TEST CASE REPORT ==============\n\n" + "=== SYSTEM INFORMATION ===\n";
    var b1 := a + ("Browser: " + si.browser + "\n");
    var b2 := b1 + ("OS: " + si.os + "\n");
    var b3 := b2 + ("Resolution: " + si.resolution + "\n");
    var b4 := b3 + ("Timestamp: " + si.timestamp + "\n\n");
    var header := b4 + "=== STEPS TO REPRODUCE ===\n";
    var body := header + ReportEntries(steps);
    StartsWithExtend(a, "Browser: " + si.browser + "\n", a);
    StartsWithExtend(b1, "OS: " + si.os + "\n", a);
    StartsWithExtend(b2, "Resolution: " + si.resolution + "\n", a);
    StartsWithExtend(b3, "Timestamp: " + si.timestamp + "\n\n", a);
    StartsWithExtend(b4, "=== STEPS TO REPRODUCE ===\n", a);
    StartsWithExtend(header, ReportEntries(steps), a);
    StartsWithExtend(body, "=== END OF TEST CASE ===\n", a);
    EndsWithAppend(body, "=== END OF TEST CASE ===\n");
  }

  lemma StartsWithExtend(s: string, t: string, p: string)
    requires StartsWith(s, p)
    ensures StartsWith(s + t, p)
  {
    assert (s + t)[..|p|] == s[..|p|];
  }

  // ---------------------------------------------------------------- export and copy

  /** A downloaded report: the file name and its text. */
  datatype Export = Export(fileName: string, content: string)

  /** exportTestCase: nothing when no steps are stored; otherwise the report (or the error it throws),
      saved under a name stamped with the ISO time `isoNow`. */
  function ExportFor(steps: Option<seq<Step>>, info: Option<SystemInfo>, isoNow: string): (r: Option<Outcome<Export>>)
    ensures r.None? <==> NoSteps(steps)
    ensures r.Some? ==> (r.value.Throws? <==> info.None?)
    ensures r.Some? && r.value.Returns? ==> EndsWith(r.value.value.fileName, ".txt")
    ensures r.Some? && r.value.Returns? ==>
      r.value.value == Export(ExportFileName(isoNow, "txt"), PopupReport(steps.value, info).value)
  {
    if NoSteps(steps) then None
    else
      match PopupReport(steps.value, info)
      case Throws(e) => Some(Throws(e))
      case Returns(content) => Some(Returns(Export(ExportFileName(isoNow, "txt"), content)))
  }

  /** copySteps: nothing when no steps are stored; otherwise the report written to the clipboard. */
  function CopyFor(steps: Option<seq<Step>>, info: Option<SystemInfo>): (r: Option<Outcome<string>>)
    ensures r.None? <==> NoSteps(steps)
    ensures r.Some? ==> r.value == PopupReport(steps.value, info)
    ensures r.Some? ==> (r.value.Throws? <==> info.None?)
  {
    if NoSteps(steps) then None else Some(PopupReport(steps.value, info))
  }

  /** Export and copy act on the same stored steps alike: both or neither do something, and the file
      holds exactly the text the clipboard would. */
  lemma ExportMatchesCopy(steps: Option<seq<Step>>, info: Option<SystemInfo>, isoNow: string)
    ensures ExportFor(steps, info, isoNow).Some? <==> CopyFor(steps, info).Some?
    ensures CopyFor(steps, info).Some? && CopyFor(steps, info).value.Returns? ==>
      ExportFor(steps, info, isoNow).value.Returns?
      && ExportFor(steps, info, isoNow).value.value.content == CopyFor(steps, info).value.value
  {
  }

  // ---------------------------------------------------------------- controls

  /** The popup page's buttons and option controls, by whether each is disabled, and the status line. */
  class PopupPage {
    var startDisabled: bool
    var stopDisabled: bool
    var screenshotsDisabled: bool
    var recordScreenDisabled: bool
    var selectorsDisabled: bool
    var languageDisabled: bool
    var status: string
    var statusActive: bool
    var exportDisabled: bool
    var copyDisabled: bool
    var clearDisabled: bool

    /** updateUIForRecording: while recording only stop is enabled and the options are locked. */
    method UpdateForRecording(isRecording: bool)
      modifies this`startDisabled, this`stopDisabled, this`screenshotsDisabled, this`recordScreenDisabled,
               this`selectorsDisabled, this`languageDisabled, this`status, this`statusActive
      ensures startDisabled == isRecording && stopDisabled == !isRecording
      ensures screenshotsDisabled == isRecording && recordScreenDisabled == isRecording
      ensures selectorsDisabled == isRecording && languageDisabled == isRecording
      ensures !startDisabled <==> stopDisabled
      ensures statusActive == isRecording
      ensures status == if isRecording then "Recording in progress..." else "Not Recording"
    {
      startDisabled := isRecording;
      stopDisabled := !isRecording;
      screenshotsDisabled := isRecording;
      recordScreenDisabled := isRecording;
      selectorsDisabled := isRecording;
      languageDisabled := isRecording;
      if isRecording {
        status := "Recording in progress...";
        statusActive := true;
      } else {
        status := "Not Recording";
        statusActive := false;
      }
    }

    /** clearRecording: the stored steps become the empty list and the three buttons that need steps
        are disabled; nothing else changes. */
    method ClearRecording(store: Store)
      modifies store`steps, this`exportDisabled, this`copyDisabled, this`clearDisabled
      ensures store.steps == Some([]) && NoSteps(store.steps)
      ensures exportDisabled && copyDisabled && clearDisabled
      ensures store.systemInfo == old(store.systemInfo)
    {
      store.steps := Some([]);
      exportDisabled := true;
      copyDisabled := true;
      clearDisabled := true;
    }
  }

  /** After clearing there is nothing to export or copy, and clearing again changes nothing. */
  method ClearTwice(page: PopupPage, store: Store, info: Option<SystemInfo>, isoNow: string)
    modifies page, store
    ensures store.steps == Some([])
    ensures ExportFor(store.steps, info, isoNow).None? && CopyFor(store.steps, info).None?
  {
    page.ClearRecording(store);
    var once := store.steps;
    page.ClearRecording(store);
    assert store.steps == once;
  }

  // ---------------------------------------------------------------- system information

  predicate AllDigits(s: string)
  {
    forall i :: 0 <= i < |s| ==> IsDigit(s[i])
  }

  /** The length of the run of digits `s` starts with. */
  function DigitRun(s: string): (n: nat)
    ensures n <= |s| && AllDigits(s[..n])
    ensures n < |s| ==> !IsDigit(s[n])
  {
    if s == [] || !IsDigit(s[0]) then 0
    else
      var n := 1 + DigitRun(s[1..]);
      assert s[..n] == [s[0]] + s[1..][..n - 1];
      n
  }

  lemma {:induction false} DigitRunOf(d: string, rest: string)
    requires AllDigits(d)
    requires rest == [] || !IsDigit(rest[0])
    ensures DigitRun(d + rest) == |d|
  {
    if d == [] {
      assert d + rest == rest;
    } else {
      assert (d + rest)[0] == d[0];
      assert (d + rest)[1..] == d[1..] + rest;
      DigitRunOf(d[1..], rest);
    }
  }

  /** A `major.minor` version, as the pattern `(\d+\.\d+)` captures it. */
  datatype Version = Version(major: string, minor: string)

  function VersionText(v: Version): string
  {
    v.major + "." + v.minor
  }

  /** The version `s` starts with: a run of digits, a dot and the longest run of digits after it. */
  function VersionAfter(s: string): (r: Option<Version>)
    ensures r.Some? ==> r.value.major != "" && AllDigits(r.value.major)
    ensures r.Some? ==> r.value.minor != "" && AllDigits(r.value.minor)
    ensures r.Some? ==> StartsWith(s, VersionText(r.value))
    ensures r.Some? ==> var n := |VersionText(r.value)|; n == |s| || !IsDigit(s[n])
  {
    var a := DigitRun(s);
    if a == 0 || a == |s| || s[a] != '.' then None
    else
      var t := s[a + 1..];
      var b := DigitRun(t);
      if b == 0 then None
      else
        assert s[..a + 1 + b] == s[..a] + "." + t[..b];
        Some(Version(s[..a], t[..b]))
  }

  /** Reading a version back from its text, followed by anything but a digit. */
  lemma VersionRoundTrip(v: Version, rest: string)
    requires v.major != "" && AllDigits(v.major) && v.minor != "" && AllDigits(v.minor)
    requires rest == [] || !IsDigit(rest[0])
    ensures VersionAfter(VersionText(v) + rest) == Some(v)
  {
    var s := VersionText(v) + rest;
    assert s == v.major + ("." + v.minor + rest);
    DigitRunOf(v.major, "." + v.minor + rest);
    assert s[|v.major| + 1..] == v.minor + rest;
    DigitRunOf(v.minor, rest);
    assert s[..|v.major|] == v.major;
    assert (v.minor + rest)[..|v.minor|] == v.minor;
  }

  /** The version after `name/` at position `i`, if the pattern matches there. */
  function VersionAt(s: string, name: string, i: nat): Option<Version>
  {
    if OccursAt(s, name + "/", i) then VersionAfter(s[i + |name| + 1..]) else None
  }

  /** The leftmost position at or after `from` where `name/` and a version match. */
  function MatchFrom(s: string, name: string, from: nat): (r: Option<nat>)
    ensures r.Some? ==> from <= r.value && VersionAt(s, name, r.value).Some?
    ensures r.Some? ==> forall j :: from <= j < r.value ==> VersionAt(s, name, j).None?
    ensures r.None? ==> forall j :: from <= j ==> VersionAt(s, name, j).None?
    decreases |s| + 1 - from
  {
    if from > |s| then None
    else if VersionAt(s, name, from).Some? then Some(from)
    else MatchFrom(s, name, from + 1)
  }

  /** `name + ' ' + ua.match(/name\/(\d+\.\d+)/)[1]`, which throws when the pattern does not match. */
  function NamedVersion(ua: string, name: string): (r: Outcome<string>)
    ensures r.Throws? <==> forall j :: VersionAt(ua, name, j).None?
  {
    match MatchFrom(ua, name, 0)
    case None => Throws("TypeError: Cannot read properties of null (reading '1')")
    case Some(i) => Returns(name + " " + VersionText(VersionAt(ua, name, i).value))
  }

  /** The browser populateSystemInfo reports for the user agent `ua`: one naming none of Chrome,
      Firefox and Edge is reported as is, and the detection throws only for a named browser whose
      version does not follow. */
  function DetectBrowser(ua: string): (r: Outcome<string>)
    ensures !Contains(ua, "Chrome") && !Contains(ua, "Firefox") && !Contains(ua, "Edge") ==> r == Returns(ua)
    ensures r.Throws? ==> Contains(ua, "Chrome") || Contains(ua, "Firefox") || Contains(ua, "Edge")
  {
    if Contains(ua, "Chrome") then NamedVersion(ua, "Chrome")
    else if Contains(ua, "Firefox") then NamedVersion(ua, "Firefox")
    else if Contains(ua, "Edge") then NamedVersion(ua, "Edge")
    else Returns(ua)
  }

  /** Chrome is checked first, then Firefox, then Edge: a user agent naming Chrome (as Chromium-based
      Edge's does) is reported as Chrome. */
  lemma BrowserPrecedence(ua: string)
    ensures var r := DetectBrowser(ua);
            && (Contains(ua, "Chrome") && r.Returns? ==> StartsWith(r.value, "Chrome "))
            && (!Contains(ua, "Chrome") && Contains(ua, "Firefox") && r.Returns? ==> StartsWith(r.value, "Firefox "))
            && (!Contains(ua, "Chrome") && !Contains(ua, "Firefox") && Contains(ua, "Edge") && r.Returns? ==>
                  StartsWith(r.value, "Edge "))
  {
    if Contains(ua, "Chrome") {
      NamedVersionPrefix(ua, "Chrome");
    } else if Contains(ua, "Firefox") {
      NamedVersionPrefix(ua, "Firefox");
    } else if Contains(ua, "Edge") {
      NamedVersionPrefix(ua, "Edge");
    }
  }

  lemma NamedVersionPrefix(ua: string, name: string)
    ensures NamedVersion(ua, name).Returns? ==> StartsWith(NamedVersion(ua, name).value, name + " ")
  {
    if MatchFrom(ua, name, 0).Some? {
      var i := MatchFrom(ua, name, 0).value;
      assert name + " " + VersionText(VersionAt(ua, name, i).value)
          == (name + " ") + VersionText(VersionAt(ua, name, i).value);
      StartsWithAppend(name + " ", VersionText(VersionAt(ua, name, i).value));
    }
  }

  /** When the first `name/` in the user agent is followed by a version, that version is reported. */
  lemma FirstOccurrenceVersion(ua: string, name: string, i: nat, v: Version)
    requires Find(ua, name + "/") == Some(i)
    requires VersionAfter(ua[i + |name| + 1..]) == Some(v)
    ensures NamedVersion(ua, name) == Returns(name + " " + VersionText(v))
  {
    assert VersionAt(ua, name, i) == Some(v);
  }

  /** The operating systems populateSystemInfo tells apart. */
  datatype Os = Windows | MacOS | Linux | Android | IOS | UnknownOs

  function OsName(os: Os): string
  {
    match os
    case Windows => "Windows"
    case MacOS => "MacOS"
    case Linux => "Linux"
    case Android => "Android"
    case IOS => "iOS"
    case UnknownOs => "Unknown OS"
  }

  /** The first of "Win", "Mac", "Linux", "Android", "iOS" the user agent contains decides. */
  function DetectOs(ua: string): (r: Os)
    ensures r == Windows <==> Contains(ua, "Win")
    ensures r == MacOS <==> !Contains(ua, "Win") && Contains(ua, "Mac")
    ensures r == Linux <==> !Contains(ua, "Win") && !Contains(ua, "Mac") && Contains(ua, "Linux")
    ensures r == Android <==> !Contains(ua, "Win") && !Contains(ua, "Mac") && !Contains(ua, "Linux")
                               && Contains(ua, "Android")
    ensures r == IOS <==> !Contains(ua, "Win") && !Contains(ua, "Mac") && !Contains(ua, "Linux")
                           && !Contains(ua, "Android") && Contains(ua, "iOS")
  {
    if Contains(ua, "Win") then Windows
    else if Contains(ua, "Mac") then MacOS
    else if Contains(ua, "Linux") then Linux
    else if Contains(ua, "Android") then Android
    else if Contains(ua, "iOS") then IOS
    else UnknownOs
  }

  /** Android user agents name Linux, so a user agent naming both is never reported as Android; one
      naming "Mac" (as iOS user agents do, "like Mac OS X") is never reported as iOS. */
  lemma OsShadowing(ua: string)
    ensures Contains(ua, "Linux") ==> DetectOs(ua) != Android && DetectOs(ua) != IOS
    ensures Contains(ua, "Mac") ==> DetectOs(ua) in {Windows, MacOS}
  {
  }

  /** `${width}x${height}` */
  function ResolutionOf(width: nat, height: nat): string
  {
    NatToString(width) + "x" + NatToString(height)
  }

  /** The recorded resolution splits at its one 'x' into the two numbers, which read back as the
      width and the height. */
  lemma ResolutionRoundTrip(width: nat, height: nat)
    ensures Split(ResolutionOf(width, height), 'x') == [NatToString(width), NatToString(height)]
    ensures ParseNat(NatToString(width)) == width && ParseNat(NatToString(height)) == height
  {
    var w := NatToString(width);
    var h := NatToString(height);
    assert 'x' !in w by {
      forall i | 0 <= i < |w| ensures w[i] != 'x' { assert IsDigit(w[i]); }
    }
    assert 'x' !in h by {
      forall i | 0 <= i < |h| ensures h[i] != 'x' { assert IsDigit(h[i]); }
    }
    var parts := [w, h];
    assert parts[1..] == [h];
    assert Join(parts, "x") == w + "x" + h;
    SplitJoin(parts, 'x');
    NatToStringRoundTrip(width);
    NatToStringRoundTrip(height);
  }

  /** The system information populateSystemInfo builds, or the error browser detection throws. */
  function SystemInfoOf(ua: string, width: nat, height: nat, now: string): (r: Outcome<SystemInfo>)
    ensures r.Throws? <==> DetectBrowser(ua).Throws?
    ensures r.Returns? ==> r.value.browser == DetectBrowser(ua).value && r.value.os == OsName(DetectOs(ua))
    ensures r.Returns? ==> r.value.resolution == ResolutionOf(width, height) && r.value.timestamp == now
  {
    match DetectBrowser(ua)
    case Throws(e) => Throws(e)
    case Returns(browser) => Returns(SystemInfo(browser, OsName(DetectOs(ua)), ResolutionOf(width, height), now))
  }

  /** populateSystemInfo: stores the system information; if browser detection throws, nothing is stored. */
  method PopulateSystemInfo(store: Store, ua: string, width: nat, height: nat, now: string)
    returns (r: Outcome<SystemInfo>)
    modifies store`systemInfo
    ensures r == SystemInfoOf(ua, width, height, now)
    ensures store.systemInfo == if r.Returns? then Some(r.value) else old(store.systemInfo)
  {
    r := SystemInfoOf(ua, width, height, now);
    if r.Returns? {
      store.systemInfo := Some(r.value);
    }
  }

  /** updateSystemTimestamp: the stored system information, if any, takes the start time `now`. */
  method UpdateSystemTimestamp(store: Store, now: string)
    modifies store`systemInfo
    ensures store.systemInfo == if old(store.systemInfo).Some?
      then Some(old(store.systemInfo).value.(timestamp := now)) else None
  {
    if store.systemInfo.Some? {
      store.systemInfo := Some(store.systemInfo.value.(timestamp := now));
    }
  }
}
