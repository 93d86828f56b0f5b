# TestCase Recorder, modelled in Dafny

TestCase Recorder is a browser extension that records what a user does on a web page and turns the
recording into a test case. It has four parts, and each is modelled here:

- **The content script** (`content.js`) runs in every page. It describes the element that was
  clicked or changed and computes an XPath and a CSS selector for it. It builds a step with the
  action word translated into the recording language, masks password values, and sends the step to
  the service worker. When screenshots are on, it first asks for a screenshot. Inside an iframe it
  posts the event to the top frame, which records the step.
- **The service worker** (`background.js`) holds the recording flag and the recording options. It
  tells every tab to start or stop. It stamps each step with the time, appends it to the stored
  list, and answers every runtime message.
- **The panel** (`panel.js`) turns the stored steps into a manual test-case report, a Puppeteer
  script or one of four placeholder texts, depending on the selected language. It also chooses the
  file extension for an export.
- **The popup** (`popup.js`) writes a plain-text report for export and copy, and clears the
  recording. It enables and disables its controls according to the recording flag. It derives the
  browser, OS and screen resolution it stores as system information.

The project has these modules:

- `Common`: `Option` and `Outcome`. `Outcome` is a value, or the exception the JavaScript code
  throws.
- `Text`: the JavaScript string operations the code relies on. These are `indexOf`, `trim`,
  `split(/\s+/)`, `split(c)`, `join`, `toLowerCase`, `replace(/:/g, '-')` and number printing.
- `Translation`: the translation table and `translate`.
- `Locators`: an element is its root-to-leaf chain of levels. This module holds
  `generateXPath`, `generateCssSelector` and `getElementDescription`.
- `Records`: options, steps, messages, replies and the storage. Storage is a `Store` class with
  fields for `steps` and `systemInfo`.
- `Capture` and `ContentScript`: the content script. Its step builders are functions. The
  `Recorder` class holds the recording state and the log of messages it sends and posts.
- `Panel`, `Popup` and `Background`: the panel, the popup and the service worker. Each loop that
  accumulates text with `+=` is a method, proved equal to a function that specifies its result.
  The service worker is a class.
- `Replay`: how the Puppeteer generator reads back the steps the content script records.

The `|| key` fallback at the end of `translate` (content.js:358) looks meant to echo an unknown
key. For a key missing from the table, other than the names JavaScript objects inherit (see
"Left out"), it is never reached: `translations[key]['en']` dereferences `undefined` and throws
first. `Translate` therefore returns `Throws` for such a key. The recorder itself only ever asks
for the four keys of the table.

## Model

| member | source | states |
|---|---|---|
| Translation.Translate | content.js:349-359 | Throws exactly when the key is missing from the table (the table taken as a plain map); otherwise returns the entry for the recording language, or the English entry for a language without a column |
| Translation.FallbackIsEnglish | content.js:353-358 | a language without a column translates every key as English does |
| Translation.TranslateExamples | content.js:11-40 | German "click" is "Klick", an unknown language gives "Click", and an unknown key throws |
| Translation.WordsHaveNoQuote | content.js:11-40 | no translated word contains a double quote |
| Translation.ForeignActionWords | content.js:11-40 | in de, fr, es and zh the click, input and navigate words are none of "Click", "Input", "Navigate to" |
| Translation.EnglishActionWords | content.js:11-40 | in English, or a language without a column, the words are "Click", "Input", "Navigate to" and "on" |
| Locators.CountSameTag | content.js:267-275 | the sibling loop counts one plus the earlier siblings with the same tag |
| Locators.GenerateXPath | content.js:253-290 | returns '' for no element, `//*[@id="…"]` for an element with an id, and otherwise '//' followed by one segment per level from the root, joined by '/' |
| Locators.XPathOfChild | content.js:262-289 | one more level without an id adds '/' and that level's segment at the end |
| Locators.SegmentHasNoSlash | content.js:278-281 | a segment (lower-case tag, then `[k]` only when k > 1) contains no '/' |
| Locators.XPathSplitsIntoLevels | content.js:262-289 | after the leading '//', the XPath splits at '/' into exactly the levels' segments, one per level |
| Locators.ScanSameTag | content.js:324-334 | `siblings` counts the element and its earlier same-tag siblings; `position` is always 1 |
| Locators.CssStep | content.js:306-338 | one level's selector is the lower-case tag, then the class suffix, then the nth-of-type suffix |
| Locators.CollectCssPath | content.js:301-344 | the walk up from the element collects the segments root first, and stops at the first level with an id |
| Locators.GenerateCssSelector | content.js:292-347 | returns '' for no element, `#id` for an element with an id, and otherwise the collected segments joined by ' > ' |
| Locators.CssPathSuffix | content.js:304-344 | below the last level with an id, the path is exactly the levels' plain segments, in order |
| Locators.CssPathWithoutIds | content.js:304-344 | without any id, the path has one segment per level |
| Locators.CssPathStopsAtId | content.js:309-313 | the nearest ancestor with an id contributes `tag#id` as the leftmost segment, and nothing above it appears |
| Locators.CssSelectorStopsAtId | content.js:292-347 | the selector is that `tag#id` followed by one segment per level below it, joined by " > " |
| Locators.CssSelectorNonEmpty | content.js:292-347 | the selector of an element with a tag is never empty |
| Locators.ClassSuffixPresent | content.js:316-321 | a class suffix is added exactly when className is a string with a non-white-space character |
| Locators.ClassSuffixContents | content.js:316-321 | the suffix is '.' followed by the trimmed class names joined with '.' |
| Locators.ClassNamesShape | content.js:317 | the class names are non-empty, contain no white space, and together hold every non-space character of className in order |
| Locators.NonSpaceTrim | content.js:317 | trimming keeps every non-space character, in order |
| Locators.NthOfTypeAlwaysOne | content.js:324-338 | with an earlier same-tag sibling, the CSS suffix is always `:nth-of-type(1)`, while the XPath index is at least 2 |
| Locators.DescribeIsFirstApplicableRule | content.js:219-251 | the description is the phrase of the first applicable rule, in the order id, name, class, link text, button text, input type, label text, tag |
| Locators.DescriptionConditions | content.js:229-245 | the class and text tests hold exactly when the value is a string with a non-white-space character |
| Locators.IdDescriptionWins | content.js:221-223 | an element with an id is described by its id, whatever its name or class |
| Locators.Describe | content.js:219-251 | an element with a tag always gets a non-empty description |
| Records.ExportFileName | popup.js:107 | the name is "TestCase_", then the first 19 characters of the ISO time (all of it when shorter) with every ':' replaced by '-', then '.' and the extension |
| Capture.GetElementInfo | content.js:202-217 | the information holds the description, the XPath and the CSS selector of the element |
| Capture.SelectorsFor | content.js:90-95 | selectors are recorded exactly when captureSelectors is on, and they carry the element's two locators |
| Capture.RecordedValue | content.js:132-137 | a password field is recorded as the eight-character mask; any other field as typed |
| Capture.NavigationStep | content.js:184-200 | a navigation step has the translated "navigate" word as its action, no selectors, screenshot or timestamp, and its description is that word, a space and the URL |
| Capture.ClickStep | content.js:83-95 | a click step has the translated "click" word as its action, no screenshot or timestamp, selectors exactly when captureSelectors is on, and the description "click-word on-word element-description" built from the translated "click" and "on" words |
| Capture.InputStep | content.js:133-152 | an input step has the translated "input" word as its action, no screenshot or timestamp, selectors exactly when captureSelectors is on, and the description `input-word "value" on-word element-description`, where the value is the typed text, or the mask for a password |
| Capture.RelayClick | content.js:376-384 | an iframe click posts an "iframeEvent" of type "click" with the element information and no value |
| Capture.RelayInput | content.js:391-396 | an iframe change posts an "iframeEvent" of type "input" with the element information and the value, masked for a password before it leaves the iframe |
| Capture.RelayedStep | content.js:401-453 | the top frame records a step exactly for an iframe click or input; its description ends with " (in iframe)" and its selectors follow captureSelectors |
| Capture.RelayedClickMatchesDirect | content.js:372-385 | a click relayed from an iframe gives the same step as a direct click, with " (in iframe)" appended |
| Capture.RelayedInputMatchesDirect | content.js:387-397 | a change relayed from an iframe gives the same step as a direct input, password masking included, with " (in iframe)" appended |
| Capture.PasswordValueNeverRecorded | content.js:134-137 | what is recorded or posted for a password field does not depend on what was typed |
| Capture.InputDescriptionQuotesValue | content.js:142 | in an input description, the first two double quotes enclose exactly the value, when the value holds none |
| ContentScript.Delivery | content.js:97-124 | without screenshots the step is sent at once; with them a capture request goes first, and the step follows, with the reply's image, only when the reply reports success |
| ContentScript.Recorder.constructor | content.js:2-8 | the script starts not recording, with the default options and empty logs |
| ContentScript.Recorder.OnControlMessage | content.js:43-54 | start switches recording on and takes the sent options as they are; stop switches it off; both acknowledge |
| ContentScript.Recorder.HandleClick | content.js:76-125 | while recording, a click sends what Delivery gives for the click step; otherwise nothing is sent |
| ContentScript.Recorder.HandleInput | content.js:127-182 | while recording, a change sends what Delivery gives for the input step; otherwise nothing is sent |
| ContentScript.Recorder.HandleNavigation | content.js:184-200 | while recording, leaving a page sends the navigation step without a screenshot |
| ContentScript.Recorder.ForwardClick | content.js:372-385 | in an iframe, while recording, a click posts the element information to the top frame |
| ContentScript.Recorder.ForwardInput | content.js:387-397 | in an iframe, while recording, a change posts the element information and the masked value |
| ContentScript.Recorder.OnFrameMessage | content.js:401-453 | in the top frame, while recording, a known iframe event sends its rebuilt step; anything else sends nothing |
| ContentScript.CaptureFailureKeepsStep | content.js:107-117 | a successful reply without an image records the step without a screenshot; a missing or failed reply drops it |
| Panel.GenerateManualTestCaseCode | panel.js:198-225 | the result is the manual report: header, one entry per step, footer |
| Panel.ManualEntriesInOrder | panel.js:212-221 | the entries are the steps' entries numbered from 1, in order, and nothing else |
| Panel.ManualReportSnoc | panel.js:212-223 | one more step adds exactly its numbered entry before the footer |
| Panel.ManualEntryShape | panel.js:213-220 | an entry opens with "n. description", closes with a blank line, and has selector lines exactly when the step has selectors |
| Panel.ManualReportFrame | panel.js:199-223 | the report opens with "=== TEST CASE ===" and the environment heading, and ends with "-- End of Test Case --" |
| Panel.ManualReportEmptyParts | panel.js:203-208 | the environment lines are absent exactly when no system information is stored |
| Panel.UpToQuote | panel.js:261 | the text before the next double quote, which contains no quote; None when there is no quote |
| Panel.QuotedValue | panel.js:261-262 | the captured group contains no double quote |
| Panel.QuotedValueWithoutPair | panel.js:261-262 | with fewer than two double quotes the pattern does not match and the value is '' |
| Panel.QuotedValueBetween | panel.js:261-262 | the captured group is the text between the first two double quotes, whatever surrounds them |
| Panel.SecondPieceAfterPrefix | panel.js:250 | `split('Navigate to ')[1]` of "Navigate to " + url is the url, when the url does not hold the separator |
| Panel.SecondPiece | panel.js:250 | `split(sep)[1]` exists exactly when `sep` occurs; it is the text right after the first `sep`, up to the next one, and never holds `sep` |
| Panel.SecondPieceStopsAtNext | panel.js:250 | when the separator occurs again, the piece stops there (for a separator that cannot overlap itself) |
| Panel.NavigationUrlStopsAtNext | panel.js:250 | a description holding "Navigate to " twice yields only the text between the two as the URL |
| Panel.StepCommands | panel.js:246-269 | each step's statements open with its description as a comment, and no other statement is a comment |
| Panel.StepStatements | panel.js:246-269 | the text of one step's statements is the rendering of its commands |
| Panel.NavigateStatement | panel.js:249-251 | a navigate step adds a `page.goto` of the URL taken from the description |
| Panel.ClickStatements | panel.js:252-258 | a click step with a CSS selector adds a wait for it and a click on it; without one, a TODO comment |
| Panel.InputStatements | panel.js:259-268 | an input step with a CSS selector adds a wait and a `page.type` of the quoted value; without one, a TODO comment |
| Panel.GeneratePuppeteerCode | panel.js:227-283 | the result is the prologue, each step's statements in order, then the closing block |
| Panel.RenderAllAppend | panel.js:246-270 | rendering two lists of statements one after the other is rendering their concatenation |
| Panel.ScriptCommentsAreDescriptions | panel.js:246-247 | the script's comments are the steps' descriptions, one per step, in order |
| Panel.OtherActionsOnlyComment | panel.js:249-269 | a step whose action is not an English action word contributes only its comment |
| Panel.PuppeteerScriptFrame | panel.js:228-280 | every script opens with the generator banner and ends with the block that closes the browser |
| Panel.GenerateCode | panel.js:159-196 | the shown code is the notice when nothing is recorded, and otherwise the selected generator's output, with the manual report as the default |
| Panel.GeneratorChosen | panel.js:164-192 | with steps recorded, each of the five generator languages shows its own generator's output: the Puppeteer script or the Playwright, Python, Java or C# placeholder |
| Panel.CodeFor | panel.js:164-192 | with nothing recorded the shown code is the "No steps recorded yet" notice; a language without a generator shows the manual report |
| Panel.ExtensionFor | panel.js:320-339 | the two JavaScript languages get "js", python-selenium "py", java-selenium "java", csharp-selenium "cs", and every other language "txt" |
| Panel.CodeSuitsExtension | panel.js:159-196 | with no steps every language gets the notice; otherwise the code generated for a language whose extension is .txt is the manual report, for .py it starts with "# ", and for .js, .java and .cs with "// " |
| Panel.CommentedCode | panel.js:286-304 | every generator's output opens with a comment of the language it is for |
| Panel.PlaywrightPlaceholder | panel.js:286-289 | the Playwright output starts with "// " |
| Panel.PythonSeleniumPlaceholder | panel.js:291-294 | the Python Selenium output starts with "# " |
| Panel.JavaSeleniumPlaceholder | panel.js:296-299 | the Java Selenium output starts with "// " |
| Panel.CSharpSeleniumPlaceholder | panel.js:301-304 | the C# Selenium output starts with "// " |
| Panel.PlaceholdersIgnoreInput | panel.js:286-304 | the four placeholders give the same text whatever the steps and the system information |
| Replay.ClickReplays | panel.js:252-255 | an English click recorded with selectors is replayed as a wait for, and a click on, the element's own CSS selector |
| Replay.InputReplays | panel.js:259-265 | an English input recorded with selectors is replayed as typing the recorded value into the element's CSS selector, when the value holds no quote |
| Replay.PasswordReplaysAsMask | content.js:134-137 | a password is replayed as typing the mask |
| Replay.NavigationReplays | panel.js:249-251 | an English navigation is replayed as a visit to the page it left |
| Replay.NoSelectorsLeavesTodo | panel.js:256-257 | without selectors, an English click or input is replayed as a TODO comment |
| Replay.ForeignStepsOnlyComment | panel.js:249-269 | a step recorded in de, fr, es or zh is replayed as its comment only |
| Popup.PopupReport | popup.js:190-198 | the report throws exactly when no system information is stored |
| Popup.GenerateTestCaseContent | popup.js:190-218 | the result is the popup report: banner, system information, one entry per step, closing line |
| Popup.ReportEntriesInOrder | popup.js:203-214 | the entries are the steps' entries numbered from 1, in order, and nothing else |
| Popup.ReportEntryShape | popup.js:204-213 | an entry opens with the step and description lines, ends with its timestamp line and a blank line, and has selector lines exactly when the step has selectors |
| Popup.ReportFrame | popup.js:191-216 | with system information, the report opens with the banner and the system information heading and ends with "=== END OF TEST CASE ===" |
| Popup.ExportFor | popup.js:96-113 | export does nothing exactly when no steps are stored; it fails exactly when no system information is stored; otherwise it saves the popup report under the name `TestCase_<stamp>.txt` that ExportFileName gives for the current ISO time |
| Popup.CopyFor | popup.js:115-129 | copy does nothing exactly when no steps are stored; otherwise the clipboard gets the popup report, and copy fails exactly when no system information is stored |
| Popup.ExportMatchesCopy | popup.js:98-119 | export and copy act on the same stored steps alike, and the file holds the text the clipboard would |
| Popup.PopupPage.UpdateForRecording | popup.js:131-146 | start is disabled exactly while recording, and stop exactly while not; the four option controls are disabled exactly while recording |
| Popup.PopupPage.ClearRecording | popup.js:87-94 | the stored steps become the empty list and export, copy and clear are disabled |
| Popup.ClearTwice | popup.js:87-94 | clearing twice leaves the same empty list, with nothing to export or copy |
| Popup.VersionAfter | popup.js:224 | the captured version is a digit run, a dot and a maximal digit run |
| Popup.VersionRoundTrip | popup.js:224 | a version followed by a non-digit reads back as itself |
| Popup.MatchFrom | popup.js:224 | the leftmost position where the name, '/' and a version match |
| Popup.FirstOccurrenceVersion | popup.js:223-228 | when the first "name/" is followed by a version, that version is reported |
| Popup.BrowserPrecedence | popup.js:222-229 | Chrome is checked before Firefox, and Firefox before Edge: the reported name is the first of the three that the user agent contains |
| Popup.NamedVersion | popup.js:224-228 | the lookup throws exactly when no occurrence of the name and '/' is followed by a version |
| Popup.DetectBrowser | popup.js:220-229 | a user agent naming none of Chrome, Firefox and Edge is reported as is; only a named browser without a version throws |
| Popup.DetectOs | popup.js:232-237 | the first of Win, Mac, Linux, Android, iOS in the user agent decides the OS, with "Unknown OS" when none appears |
| Popup.OsShadowing | popup.js:232-237 | a user agent naming Linux is never reported as Android or iOS; one naming Mac is reported as Windows or MacOS |
| Popup.ResolutionRoundTrip | popup.js:240 | the resolution splits at its 'x' into the width and the height, which read back as numbers |
| Popup.SystemInfoOf | popup.js:220-256 | the system information has the detected browser and OS, the resolution and the time; it fails exactly when browser detection throws |
| Popup.PopulateSystemInfo | popup.js:220-256 | the derived system information is stored; when detection throws, the store is unchanged |
| Popup.UpdateSystemTimestamp | popup.js:258-268 | stored system information takes the start time; absent information stays absent |
| Background.MergeLaws | background.js:50-52 | an empty patch changes nothing, a full one replaces the options, and merging twice is merging once with the later keys winning |
| Background.Merge | background.js:52 | each option key the patch supplies takes the supplied value; every other key keeps its earlier value |
| Background.AppendStep | background.js:92-99 | the stored list keeps the earlier steps unchanged and in order, and ends with the step stamped with the time |
| Background.AppendKeepsOrder | background.js:92-99 | two steps recorded one after the other are stored in that order |
| Background.ReplyFor | background.js:21-47 | the reply succeeds for every known action and carries the error "Unknown action" otherwise; a capture reply carries exactly the captured image, and no other reply carries one |
| Background.CaptureNeverDropsStep | background.js:38-43 | since the capture reply always succeeds, a step that waits for a screenshot is always sent, with or without the image |
| Background.ServiceWorker.constructor | background.js:2-11 | the worker starts not recording, with the default options |
| Background.ServiceWorker.InitStorage | background.js:14-18 | an absent step list becomes empty, and an existing one is kept |
| Background.ServiceWorker.StartRecording | background.js:50-64 | recording is on, the options are merged with the patch, and every tab is sent the merged options |
| Background.ServiceWorker.StopRecording | background.js:72-84 | recording is off, the options are kept, and every tab is told to stop |
| Background.ServiceWorker.RecordStep | background.js:92-106 | the stamped step is appended to the stored list, whether or not recording is on |
| Background.ServiceWorker.OnMessage | background.js:21-48 | each action changes the state as its handler does and gets the reply ReplyFor gives |
| Background.InitThenRecord | background.js:14-18 | initialising twice is initialising once, and a later step is appended after the existing ones |

## Left out

- The DOM is not modelled. Rendering the step lists, screenshots, code highlighting and system
  information to the page is left out.
- Attaching and removing event listeners is not modelled. A handler is modelled as what runs
  when its event arrives.
- Clipboard writes, Blob and object-URL downloads, and the "Copied!" relabel timer are browser
  I/O. The model keeps only the text written and the file name.
- `chrome.storage`, `chrome.runtime` and `chrome.tabs` messaging and `window.postMessage` are
  transport. Storage is the `Store` class. Sent and posted messages are logs of values, and a
  broadcast is one entry in a log rather than one message per tab.
- The popup's own `isRecording` and `recordingOptions` storage keys are not modelled. The same
  goes for the popup's start, stop and load handlers, and for the `stepRecorded` notification.
- Capturing the visible tab is a foreign call. Its result is the parameter `captured`, with
  `None` when the capture fails. The click position and element size sent with the request are
  not modelled, nor is the click position in an iframe's click payload, which the top frame does
  not read.
- Screen recording is media plumbing with an asynchronous lifecycle. This covers
  `desktopCapture`, `getUserMedia`, `MediaRecorder` and `recordScreen`.
- The clock, `document.location.href`, the user agent and the screen size are parameters.
- Concurrent `recordStep` calls from several tabs are not modelled. Each append is atomic, and
  screenshot callbacks arrive in the order the model sends them.
- `toLowerCase` is modelled for ASCII letters only.
- Translate: the translations table is looked up as a plain map. In JavaScript it is an object, so
  a key or a language that names an `Object.prototype` property (`toString`, `__proto__`,
  `constructor`) finds an inherited member. `translate('toString')` then returns the key through
  the `|| key` fallback instead of throwing, and the language "constructor" gives a function
  object instead of the English word. Neither case is modelled. The recorder passes only the four
  literal keys of the table.
- When `populateSystemInfo` throws because the browser has no version (popup.js:22), the popup's
  load handler stops there: it neither restores the previous session nor registers any button or
  option listener, so the popup stays inert. `Popup.PopulateSystemInfo` only states that the
  store is left unchanged. The load handler is not modelled.
- Iframe payloads are well-formed here. A payload without `elementInfo` would throw in the
  top-frame listener.
- Options are the four known keys. Any other key in a start message is dropped.
- `sender.tab` is always present for a capture request.
- An iframe's content script also records clicks directly once it receives the start broadcast.
  The model treats the top-frame and iframe paths separately.
