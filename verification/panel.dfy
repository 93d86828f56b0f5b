/** The panel's code generators: the manual test-case report, the Puppeteer script, the placeholder
    generators, the dispatch on the selected language and the extension an export is saved with. */
module Panel {
  import opened Common
  import opened Text
  import opened Records

  // ---------------------------------------------------------------- manual report

  /** The four environment lines, present only when system information is stored. */
  function EnvironmentLines(info: Option<SystemInfo>): string
  {
    match info
    case None => ""
    case Some(si) =>
      "Browser: " + si.browser + "\n" + "OS: " + si.os + "\n" + "Resolution: " + si.resolution + "\n"
      + "Date: " + si.timestamp + "\n"
  }


  function ManualHeader(info: Option<SystemInfo>): string
  {
    "=== TEST CASE ===\n\n" + "-- Environment --\n" + EnvironmentLines(info) + "\n-- Steps to Reproduce --\n\n"
  }

  /** The two `Element:` lines of a step that has selectors. */
  function ManualSelectorLines(step: Step): string
  {
    match step.selectors
    case None => ""
    case Some(sel) => "   Element: XPath: " + sel.xpath + "\n" + "   Element: CSS: " + sel.css + "\n"
  }

  /** The first line of the `n`-th step's entry (numbered from 1). */
  function ManualStepLine(n: nat, step: Step): string
  {
    NatToString(n) + ". " + step.description + "\n"
  }

  /** The entry of the `n`-th step: its line, its selector lines, a blank line. */
  function ManualEntry(n: nat, step: Step): string
  {
    ManualStepLine(n, step) + ManualSelectorLines(step) + "\n"
  }

  /** The entries of all steps, numbered from 1, in order. */
  function ManualEntries(steps: seq<Step>): string
  {
    if steps == [] then "" else ManualEntries(steps[..|steps| - 1]) + ManualEntry(|steps|, steps[|steps| - 1])
  }

  /** What generateManualTestCaseCode returns. */
  function ManualReport(steps: seq<Step>, info: Option<SystemInfo>): string
  {
    ManualHeader(info) + ManualEntries(steps) + "-- End of Test Case --"
  }

  /** generateManualTestCaseCode: the header, one entry per step in order, the footer. */
  method GenerateManualTestCaseCode(steps: seq<Step>, info: Option<SystemInfo>) returns (code: string)
    ensures code == ManualReport(steps, info)
  {
    var header := ManualHeaderText(info);
    var entries := AllManualEntries(steps);
    code := header + entries + "-- End of Test Case --";
  }

  /** The `forEach` of generateManualTestCaseCode: one entry per step, numbered from 1, in order. */
  method AllManualEntries(steps: seq<Step>) returns (code: string)
    ensures code == ManualEntries(steps)
  {
    code := "";
    assert steps[..0] == [];
    var index := 0;
    while index < |steps|
      invariant 0 <= index <= |steps|
      invariant code == ManualEntries(steps[..index])
    {
      var entry := ManualStepText(index, steps[index]);
      ManualEntriesPrefix(steps, index);
      code := code + entry;
      index := index + 1;
    }
    assert steps[..index] == steps;
  }

  /** The opening lines of generateManualTestCaseCode. */
  method ManualHeaderText(info: Option<SystemInfo>) returns (code: string)
    ensures code == ManualHeader(info)
  {
    code := "=== TEST CASE ===\n\n";
    code := code + "-- Environment --\n";
    var environment := "";
    if info.Some? {
      environment := "Browser: " + info.value.browser + "\n";
      environment := environment + "OS: " + info.value.os + "\n";
      environment := environment + "Resolution: " + info.value.resolution + "\n";
      environment := environment + "Date: " + info.value.timestamp + "\n";
    }
    code := code + environment;
    code := code + "\n-- Steps to Reproduce --\n\n";
  }

  /** The body of the `forEach` of generateManualTestCaseCode for the step at `index`. */
  method ManualStepText(index: nat, step: Step) returns (text: string)
    ensures text == ManualEntry(index + 1, step)
  {
    text := NatToString(index + 1) + ". " + step.description + "\n";
    if step.selectors.Some? {
      text := text + "   Element: XPath: " + step.selectors.value.xpath + "\n";
      text := text + "   Element: CSS: " + step.selectors.value.css + "\n";
    }
    text := text + "\n";
  }

  lemma ManualEntriesPrefix(steps: seq<Step>, i: nat)
    requires i < |steps|
    ensures ManualEntries(steps[..i + 1]) == ManualEntries(steps[..i]) + ManualEntry(i + 1, steps[i])
  {
    assert steps[..i + 1][..i] == steps[..i];
  }

  /** Recording one more step adds exactly its numbered entry before the footer: every earlier part of
      the report is unchanged. */
  lemma {:induction false} ManualReportSnoc(steps: seq<Step>, step: Step, info: Option<SystemInfo>)
    ensures ManualReport(steps + [step], info)
         == ManualHeader(info) + ManualEntries(steps) + ManualEntry(|steps| + 1, step) + "-- End of Test Case --"
  {
    assert (steps + [step])[..|steps|] == steps;
  }

  /** The entries are the steps' entries numbered 1 to n, in the steps' order, and nothing else. */
  lemma {:induction false} ManualEntriesInOrder(steps: seq<Step>)
    ensures ManualEntries(steps) == ConcatAll(Numbered(steps, ManualEntry))
  {
    if steps != [] {
      var n := |steps| - 1;
      ManualEntriesInOrder(steps[..n]);
      NumberedSnoc(steps, n, ManualEntry);
      assert steps[..n + 1] == steps;
    }
  }

  /** Each entry opens with its number and the step's description on one line and closes with a blank
      line; the selector lines are there exactly when the step has selectors. */
  lemma ManualEntryShape(n: nat, step: Step)
    ensures StartsWith(ManualEntry(n, step), ManualStepLine(n, step))
    ensures EndsWith(ManualEntry(n, step), "\n")
    ensures step.selectors.None? <==> ManualEntry(n, step) == ManualStepLine(n, step) + "\n"
  {
    StartsWithAppend(ManualStepLine(n, step), ManualSelectorLines(step) + "\n");
    EndsWithAppend(ManualStepLine(n, step) + ManualSelectorLines(step), "\n");
    if step.selectors.Some? {
      assert |ManualSelectorLines(step)| > 0;
      assert |ManualEntry(n, step)| > |ManualStepLine(n, step) + "\n"|;
    }
  }

  /** The report opens with the banner and the environment heading and ends with the footer. */
  lemma {:induction false} ManualReportFrame(steps: seq<Step>, info: Option<SystemInfo>)
    ensures StartsWith(ManualReport(steps, info), "=== TEST CASE ===\n\n" + "-- Environment --\n")
    ensures EndsWith(ManualReport(steps, info), "-- End of Test Case --")
  {
    var a := "=== TEST CASE ===\n\n" + "-- Environment --\n";
    var b := a + EnvironmentLines(info);
    var c := b + "\n-- Steps to Reproduce --\n\n";
    var d := c + ManualEntries(steps);
    StartsWithAppend(a, EnvironmentLines(info));
    StartsWithAppend(b, "\n-- Steps to Reproduce --\n\n");
    StartsWithTrans(c, b, a);
    StartsWithAppend(c, ManualEntries(steps));
    StartsWithTrans(d, c, a);
    StartsWithAppend(d, "-- End of Test Case --");
    StartsWithTrans(d + "-- End of Test Case --", d, a);
    EndsWithAppend(d, "-- End of Test Case --");
  }

  /** The environment block is empty exactly when no system information is stored, and with no steps
      the report has no entries. */
  lemma ManualReportEmptyParts(steps: seq<Step>, info: Option<SystemInfo>)
    ensures EnvironmentLines(info) == "" <==> info.None?
    ensures steps == [] ==> ManualReport(steps, info) == ManualHeader(info) + "-- End of Test Case --"
  {
    if info.Some? {
      assert |EnvironmentLines(info)| > 0;
    }
  }

  // ---------------------------------------------------------------- Puppeteer script

  /** The statements the Puppeteer generator writes, one per emitted line. */
  datatype Command =
    | Comment(text: string)
    | Goto(url: Option<string>)
    | WaitFor(selector: string)
    | ClickOn(selector: string)
    | TypeInto(selector: string, value: string)
    | Todo(action: string)

  function Render(c: Command): string
  {
    match c
    case Comment(text) => "\n    // " + text + "\n"
    case Goto(url) => "    await page.goto('" + Show(url) + "', { waitUntil: 'networkidle2' });\n"
    case WaitFor(selector) => "    await page.waitForSelector('" + selector + "');\n"
    case ClickOn(selector) => "    await page.click('" + selector + "');\n"
    case TypeInto(selector, value) => "    await page.type('" + selector + "', '" + value + "');\n"
    case Todo(action) => "    // TODO: Add selector for the " + action + " action\n"
  }

  function RenderAll(commands: seq<Command>): string
  {
    if commands == [] then "" else Render(commands[0]) + RenderAll(commands[1..])
  }

  lemma {:induction false} RenderAllAppend(a: seq<Command>, b: seq<Command>)
    ensures RenderAll(a + b) == RenderAll(a) + RenderAll(b)
  {
    if a == [] {
      assert a + b == b;
    } else {
      assert (a + b)[0] == a[0];
      assert (a + b)[1..] == a[1..] + b;
      RenderAllAppend(a[1..], b);
    }
  }

  /** `s.split(sep)[1]`: the text between the first and the second occurrence of `sep` (or the end),
      `undefined` when `sep` does not occur. */
  function SecondPiece(s: string, sep: string): (r: Option<string>)
    ensures r.Some? <==> Contains(s, sep)
    ensures r.Some? ==> StartsWith(s[Find(s, sep).value + |sep|..], r.value)
    ensures r.Some? && |sep| > 0 ==> !Contains(r.value, sep)
  {
    match Find(s, sep)
    case None => None
    case Some(i) =>
      var rest := s[i + |sep|..];
      match Find(rest, sep)
      case None => Some(rest)
      case Some(j) =>
        PieceBeforeFind(rest, sep, j);
        Some(rest[..j])
  }

  /** The text before the first occurrence of `sep` does not hold `sep`. */
  lemma PieceBeforeFind(s: string, sep: string, j: nat)
    requires Find(s, sep) == Some(j)
    ensures StartsWith(s, s[..j])
    ensures |sep| > 0 ==> !Contains(s[..j], sep)
  {
    var piece := s[..j];
    if |sep| > 0 && Contains(piece, sep) {
      var k := Find(piece, sep).value;
      assert piece[k..k + |sep|] == s[k..k + |sep|];
      assert OccursAt(s, sep, k);
    }
  }

  /** The text before the next double quote, if there is one. */
  function UpToQuote(s: string): (r: Option<string>)
    ensures r.Some? ==> |r.value| < |s| && s[|r.value|] == '"' && s[..|r.value|] == r.value && '"' !in r.value
    ensures r.None? ==> '"' !in s
  {
    if s == [] then None
    else if s[0] == '"' then Some("")
    else
      match UpToQuote(s[1..])
      case None => None
      case Some(t) =>
        assert s[..|t| + 1] == [s[0]] + s[1..][..|t|];
        Some([s[0]] + t)
  }

  /** `s.match(/"([^"]*)"/)`, group 1, or '' when there is no match: the text between the first two
      double quotes. */
  function QuotedValue(s: string): (r: string)
    ensures '"' !in r
  {
    if s == [] then ""
    else if s[0] == '"' then
      match UpToQuote(s[1..])
      case None => ""
      case Some(v) => v
    else QuotedValue(s[1..])
  }

  /** `step.selectors && step.selectors.css`: a non-empty CSS selector was recorded. */
  predicate HasCss(step: Step)
  {
    step.selectors.Some? && step.selectors.value.css != ""
  }

  /** What one step contributes: its description as a comment, then the statements its action calls
      for. The action is compared with the English words only. */
  function StepCommands(step: Step): (r: seq<Command>)
    ensures |r| >= 1 && r[0] == Comment(step.description)
    ensures forall k :: 1 <= k < |r| ==> !r[k].Comment?
  {
    var note := Comment(step.description);
    if step.action == "Navigate to" then [note, Goto(SecondPiece(step.description, "Navigate to "))]
    else if step.action == "Click" then
      if HasCss(step) then [note, WaitFor(step.selectors.value.css), ClickOn(step.selectors.value.css)]
      else [note, Todo("click")]
    else if step.action == "Input" then
      if HasCss(step) then
        [note, WaitFor(step.selectors.value.css), TypeInto(step.selectors.value.css, QuotedValue(step.description))]
      else [note, Todo("input")]
    else [note]
  }

  function ScriptCommands(steps: seq<Step>): seq<Command>
  {
    if steps == [] then [] else ScriptCommands(steps[..|steps| - 1]) + StepCommands(steps[|steps| - 1])
  }

  /** The prologue: the banner line, then the environment, the date and the browser launch. */
  function PuppeteerHeader(info: Option<SystemInfo>, now: string): string
  {
    "// Generated Puppeteer Test Script\n" + PuppeteerPrologue(info, now)
  }

  function PuppeteerPrologue(info: Option<SystemInfo>, now: string): string
  {
    "// Environment: " + (if info.Some? then info.value.browser + ", " + info.value.os else "Unknown") + "\n"
    + "// Date: " + (if info.Some? then info.value.timestamp else now) + "\n"
    + "\n"
    + "const puppeteer = require('puppeteer');\n"
    + "\n"
    + "(async () => {\n"
    + "  const browser = await puppeteer.launch({\n"
    + "    headless: false,\n"
    + "    defaultViewport: null\n"
    + "  });\n"
    + "  \n"
    + "  const page = await browser.newPage();\n"
    + "  \n"
    + "  try {\n"
  }

  const PuppeteerFooter :=
    "\n"
    + "    // Test completed successfully\n"
    + "    console.log('Test completed successfully');\n"
    + "  } catch (error) {\n"
    + "    console.error('Test failed:', error);\n"
    + "  } finally {\n"
    + "    await browser.close();\n"
    + "  }\n"
    + "})();"

  /** What generatePuppeteerCode returns; `now` is the local time used when no system information is
      stored. */
  function PuppeteerScript(steps: seq<Step>, info: Option<SystemInfo>, now: string): string
  {
    PuppeteerHeader(info, now) + RenderAll(ScriptCommands(steps)) + PuppeteerFooter
  }

  /** generatePuppeteerCode: the fixed prologue, each step's statements in order, the fixed epilogue. */
  method GeneratePuppeteerCode(steps: seq<Step>, info: Option<SystemInfo>, now: string) returns (code: string)
    ensures code == PuppeteerScript(steps, info, now)
  {
    var body := AllStepStatements(steps);
    code := PuppeteerHeader(info, now) + body + PuppeteerFooter;
  }

  /** The `forEach` of generatePuppeteerCode: each step's statements, in order. */
  method AllStepStatements(steps: seq<Step>) returns (code: string)
    ensures code == RenderAll(ScriptCommands(steps))
  {
    code := "";
    assert steps[..0] == [];
    var i := 0;
    while i < |steps|
      invariant 0 <= i <= |steps|
      invariant code == RenderAll(ScriptCommands(steps[..i]))
    {
      var text := StepStatements(steps[i]);
      ScriptRenderingPrefix(steps, i);
      code := code + text;
      i := i + 1;
    }
    assert steps[..i] == steps;
  }

  lemma ScriptRenderingPrefix(steps: seq<Step>, i: nat)
    requires i < |steps|
    ensures RenderAll(ScriptCommands(steps[..i + 1]))
         == RenderAll(ScriptCommands(steps[..i])) + RenderAll(StepCommands(steps[i]))
  {
    assert steps[..i + 1][..i] == steps[..i];
    RenderAllAppend(ScriptCommands(steps[..i]), StepCommands(steps[i]));
  }

  /** The body of the `forEach` of generatePuppeteerCode for one step: the comment, then what the
      action calls for. */
  method StepStatements(step: Step) returns (code: string)
    ensures code == RenderAll(StepCommands(step))
  {
    code := "\n    // " + step.description + "\n";
    var rest: string;
    if step.action == "Navigate to" {
      rest := NavigateStatement(step);
    } else if step.action == "Click" {
      rest := ClickStatements(step);
    } else if step.action == "Input" {
      rest := InputStatements(step);
    } else {
      rest := "";
    }
    code := code + rest;
    RenderAllFirst(StepCommands(step));
  }

  method NavigateStatement(step: Step) returns (code: string)
    requires step.action == "Navigate to"
    ensures code == RenderAll(StepCommands(step)[1..])
  {
    var url := SecondPiece(step.description, "Navigate to ");
    code := "    await page.goto('" + Show(url) + "', { waitUntil: 'networkidle2' });\n";
    assert StepCommands(step)[1..] == [Goto(url)];
    RenderSingle(Goto(url));
  }

  method ClickStatements(step: Step) returns (code: string)
    requires step.action == "Click"
    ensures code == RenderAll(StepCommands(step)[1..])
  {
    if step.selectors.Some? && step.selectors.value.css != "" {
      var css := step.selectors.value.css;
      code := "    await page.waitForSelector('" + css + "');\n";
      code := code + ("    await page.click('" + css + "');\n");
      assert StepCommands(step)[1..] == [WaitFor(css), ClickOn(css)];
      RenderPair(WaitFor(css), ClickOn(css));
    } else {
      code := "    // TODO: Add selector for the click action\n";
      assert StepCommands(step)[1..] == [Todo("click")];
      RenderSingle(Todo("click"));
    }
  }

  method InputStatements(step: Step) returns (code: string)
    requires step.action == "Input"
    ensures code == RenderAll(StepCommands(step)[1..])
  {
    if step.selectors.Some? && step.selectors.value.css != "" {
      var css := step.selectors.value.css;
      var value := QuotedValue(step.description);
      code := "    await page.waitForSelector('" + css + "');\n";
      code := code + ("    await page.type('" + css + "', '" + value + "');\n");
      assert StepCommands(step)[1..] == [WaitFor(css), TypeInto(css, value)];
      RenderPair(WaitFor(css), TypeInto(css, value));
    } else {
      code := "    // TODO: Add selector for the input action\n";
      assert StepCommands(step)[1..] == [Todo("input")];
      RenderSingle(Todo("input"));
    }
  }

  lemma RenderAllFirst(commands: seq<Command>)
    requires |commands| > 0
    ensures RenderAll(commands) == Render(commands[0]) + RenderAll(commands[1..])
  {
  }

  lemma RenderSingle(a: Command)
    ensures RenderAll([a]) == Render(a)
  {
    assert [a][1..] == [];
  }

  lemma RenderPair(a: Command, b: Command)
    ensures RenderAll([a, b]) == Render(a) + Render(b)
  {
    assert [a, b][1..] == [b];
    RenderSingle(b);
  }

  /** The comments of the script are the steps' descriptions, one per step, in order. */
  function CommentTexts(commands: seq<Command>): seq<string>
  {
    if commands == [] then []
    else (if commands[0].Comment? then [commands[0].text] else []) + CommentTexts(commands[1..])
  }

  lemma {:induction false} CommentTextsAppend(a: seq<Command>, b: seq<Command>)
    ensures CommentTexts(a + b) == CommentTexts(a) + CommentTexts(b)
  {
    if a == [] {
      assert a + b == b;
    } else {
      assert (a + b)[0] == a[0];
      assert (a + b)[1..] == a[1..] + b;
      CommentTextsAppend(a[1..], b);
    }
  }

  lemma {:induction false} CommentTextsNone(commands: seq<Command>)
    requires forall k :: 0 <= k < |commands| ==> !commands[k].Comment?
    ensures CommentTexts(commands) == []
  {
    if commands != [] {
      CommentTextsNone(commands[1..]);
    }
  }

  lemma {:induction false} ScriptCommentsAreDescriptions(steps: seq<Step>)
    ensures CommentTexts(ScriptCommands(steps)) == seq(|steps|, i requires 0 <= i < |steps| => steps[i].description)
  {
    if steps != [] {
      var n := |steps| - 1;
      ScriptCommentsAreDescriptions(steps[..n]);
      CommentTextsAppend(ScriptCommands(steps[..n]), StepCommands(steps[n]));
      StepCommentIsDescription(steps[n]);
      ghost var earlier := seq(n, i requires 0 <= i < n => steps[..n][i].description);
      assert seq(|steps|, i requires 0 <= i < |steps| => steps[i].description) == earlier + [steps[n].description];
    }
  }

  /** A step's commands hold one comment, its description. */
  lemma StepCommentIsDescription(step: Step)
    ensures CommentTexts(StepCommands(step)) == [step.description]
  {
    var cs := StepCommands(step);
    assert cs == [cs[0]] + cs[1..];
    CommentTextsAppend([cs[0]], cs[1..]);
    CommentTextsNone(cs[1..]);
    assert CommentTexts([cs[0]]) == [step.description] by {
      assert [cs[0]][1..] == [];
    }
  }

  /** Every script opens with the generator banner and closes with the block that closes the browser,
      whatever the steps. */
  lemma PuppeteerScriptFrame(steps: seq<Step>, info: Option<SystemInfo>, now: string)
    ensures StartsWith(PuppeteerScript(steps, info, now), "// Generated Puppeteer Test Script\n")
    ensures EndsWith(PuppeteerScript(steps, info, now), PuppeteerFooter)
  {
    var header := PuppeteerHeader(info, now);
    var body := header + RenderAll(ScriptCommands(steps));
    StartsWithAppend("// Generated Puppeteer Test Script\n", PuppeteerPrologue(info, now));
    StartsWithAppend(header, RenderAll(ScriptCommands(steps)));
    StartsWithAppend(body, PuppeteerFooter);
    StartsWithTrans(body, header, "// Generated Puppeteer Test Script\n");
    StartsWithTrans(body + PuppeteerFooter, body, "// Generated Puppeteer Test Script\n");
    EndsWithAppend(body, PuppeteerFooter);
  }

  /** A step whose action is not one of the English words contributes its comment and nothing else. */
  lemma OtherActionsOnlyComment(step: Step)
    requires step.action !in {"Navigate to", "Click", "Input"}
    ensures StepCommands(step) == [Comment(step.description)]
  {
  }

  /** `split()[1]` of a description that starts with the separator and holds it nowhere else is the
      text after it. */
  lemma SecondPieceAfterPrefix(sep: string, rest: string)
    requires |sep| > 0 && !Contains(rest, sep)
    ensures SecondPiece(sep + rest, sep) == Some(rest)
  {
    var s := sep + rest;
    assert s[0..|sep|] == sep;
    FindAt(s, sep, 0);
    assert s[|sep|..] == rest;
  }

  /** When the separator occurs again, `split(sep)[1]` stops there, provided the separator cannot
      overlap itself (its first character does not occur later in it, as for "Navigate to "). */
  lemma SecondPieceStopsAtNext(sep: string, a: string, b: string)
    requires |sep| > 0 && sep[0] !in sep[1..] && !Contains(a, sep)
    ensures SecondPiece(sep + a + sep + b, sep) == Some(a)
  {
    var s := sep + a + sep + b;
    assert s[0..|sep|] == sep;
    FindAt(s, sep, 0);
    var rest := s[|sep|..];
    assert rest == a + sep + b;
    assert OccursAt(rest, sep, |a|) by {
      assert rest[|a|..|a| + |sep|] == sep;
    }
    forall j: nat | j < |a| ensures !OccursAt(rest, sep, j) {
      NoOccurrenceBefore(sep, a, b, j);
    }
    FindAt(rest, sep, |a|);
    assert rest[..|a|] == a;
  }

  lemma NoOccurrenceBefore(sep: string, a: string, b: string, j: nat)
    requires |sep| > 0 && sep[0] !in sep[1..] && !Contains(a, sep) && j < |a|
    ensures !OccursAt(a + sep + b, sep, j)
  {
    var rest := a + sep + b;
    if j + |sep| <= |a| {
      assert rest[j..j + |sep|] == a[j..j + |sep|];
      assert !OccursAt(a, sep, j);
    } else if j + |sep| <= |rest| {
      var k := |a| - j;
      assert sep[k] == sep[1..][k - 1];
      assert rest[j..j + |sep|][k] == sep[0] != sep[k];
    }
  }

  /** A description holding "Navigate to " a second time yields only the text up to it as the URL. */
  lemma NavigationUrlStopsAtNext(url: string, more: string)
    requires !Contains(url, "Navigate to ")
    ensures SecondPiece("Navigate to " + url + "Navigate to " + more, "Navigate to ") == Some(url)
  {
    assert "Navigate to "[0] !in "Navigate to "[1..];
    SecondPieceStopsAtNext("Navigate to ", url, more);
  }

  lemma {:induction false} UpToQuoteFinds(v: string, rest: string)
    requires '"' !in v
    ensures UpToQuote(v + "\"" + rest) == Some(v)
  {
    var s := v + "\"" + rest;
    if v == [] {
      assert s[0] == '"';
    } else {
      assert s[0] == v[0] && v[0] != '"';
      assert s[1..] == v[1..] + "\"" + rest;
      UpToQuoteFinds(v[1..], rest);
      assert [v[0]] + v[1..] == v;
    }
  }

  /** Without two double quotes the pattern does not match, and the group reads as ''. */
  lemma {:induction false} QuotedValueWithoutPair(s: string)
    requires multiset(s)['"'] < 2
    ensures QuotedValue(s) == ""
  {
    if s != [] {
      assert s == [s[0]] + s[1..];
      assert multiset(s) == multiset([s[0]]) + multiset(s[1..]);
      if s[0] == '"' {
        assert '"' !in s[1..];
      } else {
        QuotedValueWithoutPair(s[1..]);
      }
    }
  }

  /** The group is the text between the first two quotes: whatever precedes the first quote and
      whatever follows the second do not matter. */
  lemma {:induction false} QuotedValueBetween(prefix: string, v: string, rest: string)
    requires '"' !in prefix && '"' !in v
    ensures QuotedValue(prefix + "\"" + v + "\"" + rest) == v
  {
    var s := prefix + "\"" + v + "\"" + rest;
    if prefix == [] {
      assert s[1..] == v + "\"" + rest;
      UpToQuoteFinds(v, rest);
    } else {
      assert s[0] == prefix[0];
      assert s[1..] == prefix[1..] + "\"" + v + "\"" + rest;
      QuotedValueBetween(prefix[1..], v, rest);
    }
  }

  // ---------------------------------------------------------------- placeholders and dispatch

  // The four generators that are not written yet: each returns one comment line in its target
  // language, whatever the steps and the system information.

  function PlaywrightPlaceholder(steps: seq<Step>, info: Option<SystemInfo>): (r: string)
    ensures StartsWith(r, "// ")
  {
    StartsWithAppend("// ", "Playwright code generation not implemented yet");
    "// " + "Playwright code generation not implemented yet"
  }

  function PythonSeleniumPlaceholder(steps: seq<Step>, info: Option<SystemInfo>): (r: string)
    ensures StartsWith(r, "# ")
  {
    StartsWithAppend("# ", "Python Selenium code generation not implemented yet");
    "# " + "Python Selenium code generation not implemented yet"
  }

  function JavaSeleniumPlaceholder(steps: seq<Step>, info: Option<SystemInfo>): (r: string)
    ensures StartsWith(r, "// ")
  {
    StartsWithAppend("// ", "Java Selenium code generation not implemented yet");
    "// " + "Java Selenium code generation not implemented yet"
  }

  function CSharpSeleniumPlaceholder(steps: seq<Step>, info: Option<SystemInfo>): (r: string)
    ensures StartsWith(r, "// ")
  {
    StartsWithAppend("// ", "C# Selenium code generation not implemented yet");
    "// " + "C# Selenium code generation not implemented yet"
  }

  const NoStepsYet := "// No steps recorded yet"

  /** The languages with a generator of their own. */
  const GeneratorLanguages: set<string> :=
    {"js-puppeteer", "js-playwright", "python-selenium", "java-selenium", "csharp-selenium"}

  /** What generateCode shows for the selected language and the stored steps and system information. */
  function CodeFor(language: string, steps: Option<seq<Step>>, info: Option<SystemInfo>, now: string): (r: string)
    ensures NoSteps(steps) ==> r == NoStepsYet
    ensures !NoSteps(steps) && language !in GeneratorLanguages ==> r == ManualReport(steps.value, info)
  {
    if NoSteps(steps) then NoStepsYet
    else if language == "js-puppeteer" then PuppeteerScript(steps.value, info, now)
    else if language == "js-playwright" then PlaywrightPlaceholder(steps.value, info)
    else if language == "python-selenium" then PythonSeleniumPlaceholder(steps.value, info)
    else if language == "java-selenium" then JavaSeleniumPlaceholder(steps.value, info)
    else if language == "csharp-selenium" then CSharpSeleniumPlaceholder(steps.value, info)
    else ManualReport(steps.value, info)
  }

  /** generateCode, running the generator the language selects. */
  method GenerateCode(language: string, steps: Option<seq<Step>>, info: Option<SystemInfo>, now: string)
    returns (code: string)
    ensures code == CodeFor(language, steps, info, now)
  {
    if steps.None? || |steps.value| == 0 {
      return NoStepsYet;
    }
    if language == "js-puppeteer" {
      code := GeneratePuppeteerCode(steps.value, info, now);
    } else if language == "js-playwright" {
      code := PlaywrightPlaceholder(steps.value, info);
    } else if language == "python-selenium" {
      code := PythonSeleniumPlaceholder(steps.value, info);
    } else if language == "java-selenium" {
      code := JavaSeleniumPlaceholder(steps.value, info);
    } else if language == "csharp-selenium" {
      code := CSharpSeleniumPlaceholder(steps.value, info);
    } else {
      code := GenerateManualTestCaseCode(steps.value, info);
    }
  }

  /** The extension exportTestCode saves the shown code with. */
  function ExtensionFor(language: string): (r: string)
    ensures r == "txt" <==> language !in GeneratorLanguages
    ensures language in {"js-puppeteer", "js-playwright"} ==> r == "js"
    ensures language == "python-selenium" ==> r == "py"
    ensures language == "java-selenium" ==> r == "java"
    ensures language == "csharp-selenium" ==> r == "cs"
    ensures r in {"js", "py", "java", "cs", "txt"}
  {
    if language == "js-puppeteer" || language == "js-playwright" then "js"
    else if language == "python-selenium" then "py"
    else if language == "java-selenium" then "java"
    else if language == "csharp-selenium" then "cs"
    else "txt"
  }

  /** With nothing recorded every language shows the same notice. Otherwise the generated code suits
      the extension its language is exported under: for a `.txt` language it is the manual report, for
      `.py` it starts with a Python comment, and for `.js`, `.java` and `.cs` with a `//` comment. The
      export saves whatever the code view shows, which a step's details can replace, so this is about
      the generated code only. */
  lemma CodeSuitsExtension(language: string, steps: Option<seq<Step>>, info: Option<SystemInfo>, now: string)
    ensures NoSteps(steps) ==> CodeFor(language, steps, info, now) == NoStepsYet
    ensures !NoSteps(steps) && ExtensionFor(language) == "txt" ==>
      CodeFor(language, steps, info, now) == ManualReport(steps.value, info)
    ensures !NoSteps(steps) && ExtensionFor(language) == "py" ==> StartsWith(CodeFor(language, steps, info, now), "# ")
    ensures !NoSteps(steps) && ExtensionFor(language) in {"js", "java", "cs"} ==>
      StartsWith(CodeFor(language, steps, info, now), "// ")
  {
    if !NoSteps(steps) {
      CommentedCode(language, steps.value, info, now);
    }
  }

  /** A generator's output opens with a comment in the language it generates. */
  lemma CommentedCode(language: string, steps: seq<Step>, info: Option<SystemInfo>, now: string)
    requires steps != []
    ensures language == "python-selenium" ==> StartsWith(CodeFor(language, Some(steps), info, now), "# ")
    ensures language in {"js-puppeteer", "js-playwright", "java-selenium", "csharp-selenium"} ==>
      StartsWith(CodeFor(language, Some(steps), info, now), "// ")
  {
    if language == "js-puppeteer" {
      PuppeteerCodeCommented(steps, info, now);
    } else {
      PlaceholderCodeCommented(language, steps, info, now);
    }
  }

  lemma PuppeteerCodeCommented(steps: seq<Step>, info: Option<SystemInfo>, now: string)
    requires steps != []
    ensures StartsWith(CodeFor("js-puppeteer", Some(steps), info, now), "// ")
  {
    GeneratorChosen("js-puppeteer", steps, info, now);
    PuppeteerScriptFrame(steps, info, now);
    StartsWithTrans(PuppeteerScript(steps, info, now), "// Generated Puppeteer Test Script\n", "// ");
  }

  lemma PlaceholderCodeCommented(language: string, steps: seq<Step>, info: Option<SystemInfo>, now: string)
    requires steps != []
    ensures language == "python-selenium" ==> StartsWith(CodeFor(language, Some(steps), info, now), "# ")
    ensures language in {"js-playwright", "java-selenium", "csharp-selenium"} ==>
      StartsWith(CodeFor(language, Some(steps), info, now), "// ")
  {
    GeneratorChosen(language, steps, info, now);
  }

  /** generateCode's switch: with steps recorded, each generator language gets its own generator. */
  lemma GeneratorChosen(language: string, steps: seq<Step>, info: Option<SystemInfo>, now: string)
    requires steps != []
    ensures language == "js-puppeteer" ==> CodeFor(language, Some(steps), info, now) == PuppeteerScript(steps, info, now)
    ensures language == "js-playwright" ==> CodeFor(language, Some(steps), info, now) == PlaywrightPlaceholder(steps, info)
    ensures language == "python-selenium" ==> CodeFor(language, Some(steps), info, now) == PythonSeleniumPlaceholder(steps, info)
    ensures language == "java-selenium" ==> CodeFor(language, Some(steps), info, now) == JavaSeleniumPlaceholder(steps, info)
    ensures language == "csharp-selenium" ==> CodeFor(language, Some(steps), info, now) == CSharpSeleniumPlaceholder(steps, info)
  {
  }

  /** The placeholders do not look at the steps or the system information. */
  lemma PlaceholdersIgnoreInput(s1: seq<Step>, i1: Option<SystemInfo>, s2: seq<Step>, i2: Option<SystemInfo>)
    ensures PlaywrightPlaceholder(s1, i1) == PlaywrightPlaceholder(s2, i2)
    ensures PythonSeleniumPlaceholder(s1, i1) == PythonSeleniumPlaceholder(s2, i2)
    ensures JavaSeleniumPlaceholder(s1, i1) == JavaSeleniumPlaceholder(s2, i2)
    ensures CSharpSeleniumPlaceholder(s1, i1) == CSharpSeleniumPlaceholder(s2, i2)
  {
  }
}
