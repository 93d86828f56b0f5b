/** The plain records the extension's parts exchange: recording options, steps, system information,
    runtime messages and their replies, and the extension's local storage. */
module Records {
  import opened Common
  import opened Text

  /** The recording options. */
  datatype Options = Options(
    captureScreenshots: bool,
    recordScreen: bool,
    captureSelectors: bool,
    language: string)

  /** The options both the content script and the service worker start with. */
  const DefaultOptions := Options(true, false, true, "en")

  /** A partial options object, as sent with `startRecording`: a field is `None` when its key is absent. */
  datatype OptionsPatch = OptionsPatch(
    captureScreenshots: Option<bool>,
    recordScreen: Option<bool>,
    captureSelectors: Option<bool>,
    language: Option<string>)

  const EmptyPatch := OptionsPatch(None, None, None, None)

  /** The two locators of a recorded element. */
  datatype Selectors = Selectors(xpath: string, css: string)

  /** A recorded step. `selectors` and `screenshot` are `null` when not captured; `timestamp` is set by
      the service worker when the step is stored. */
  datatype Step = Step(
    action: string,
    description: string,
    selectors: Option<Selectors>,
    screenshot: Option<string>,
    timestamp: Option<string>)

  /** The environment the popup records. */
  datatype SystemInfo = SystemInfo(browser: string, os: string, resolution: string, timestamp: string)

  /** What getElementInfo reports about an element. */
  datatype ElementInfo = ElementInfo(description: string, xpath: string, cssSelector: string)

  /** Messages sent to the service worker with `chrome.runtime.sendMessage`, by `action`. */
  datatype Message =
    | StartRecording(options: OptionsPatch)
    | StopRecording
    | RecordStep(step: Step)
    | CaptureScreenshot
    | OtherAction(action: string)

  /** The `sendResponse` payload: `success`, plus `imageData` or `error` where present. */
  datatype Reply = Reply(success: bool, imageData: Option<string>, error: Option<string>)

  const Acknowledged := Reply(true, None, None)

  /** Messages the service worker sends to every tab. */
  datatype ControlMessage = StartControl(options: Options) | StopControl

  /** The payload an iframe posts to the top frame: `action`, `eventType`, the element information and,
      for input events, the (masked) value. */
  datatype RelayMessage = RelayMessage(
    action: string,
    eventType: string,
    elementInfo: ElementInfo,
    value: Option<string>)

  /** `chrome.storage.local`: the recorded steps and the system information, each possibly absent. */
  class Store {
    var steps: Option<seq<Step>>
    var systemInfo: Option<SystemInfo>

    /** A fresh profile: nothing stored yet. */
    constructor()
      ensures steps == None && systemInfo == None
    {
      steps := None;
      systemInfo := None;
    }
  }

  /** `data.steps || []`: the stored steps, an absent list read as empty. */
  function StepsOrEmpty(steps: Option<seq<Step>>): seq<Step>
  {
    if steps.Some? then steps.value else []
  }

  /** `!data.steps || data.steps.length === 0`: nothing to report. */
  predicate NoSteps(steps: Option<seq<Step>>)
  {
    steps.None? || steps.value == []
  }

  /** The name an export is saved under: `TestCase_`, the first 19 characters of the ISO time with
      every ':' replaced by '-', then the extension. */
  function ExportFileName(isoTime: string, extension: string): (r: string)
    ensures StartsWith(r, "TestCase_") && EndsWith(r, "." + extension)
    ensures forall i :: 9 <= i < |r| - |extension| - 1 ==> r[i] != ':'
    ensures |r| == 10 + (if |isoTime| < 19 then |isoTime| else 19) + |extension|
    ensures forall i :: 0 <= i < |r| - |extension| - 10 ==> r[9 + i] == (if isoTime[i] == ':' then '-' else isoTime[i])
  {
    var stamp := if |isoTime| < 19 then isoTime else isoTime[..19];
    "TestCase_" + ReplaceChar(stamp, ':', '-') + "." + extension
  }
}
