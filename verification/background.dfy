/** The service worker: the recording flag and options, the start/stop broadcasts to the tabs, the
    stored step list and the answers it gives to runtime messages. */
module Background {
  import opened Common
  import opened Records
  import opened ContentScript

  // ---------------------------------------------------------------- options

  /** `{...recordingOptions, ...options}` for one key: the supplied value wins, an absent key keeps the
      earlier value. */
  function Override<T>(earlier: T, supplied: Option<T>): T
  {
    if supplied.Some? then supplied.value else earlier
  }

  /** The options after startRecording merges a patch into them. */
  function Merge(o: Options, p: OptionsPatch): (r: Options)
    ensures p.captureScreenshots.Some? ==> r.captureScreenshots == p.captureScreenshots.value
    ensures p.captureScreenshots.None? ==> r.captureScreenshots == o.captureScreenshots
    ensures p.recordScreen.Some? ==> r.recordScreen == p.recordScreen.value
    ensures p.recordScreen.None? ==> r.recordScreen == o.recordScreen
    ensures p.captureSelectors.Some? ==> r.captureSelectors == p.captureSelectors.value
    ensures p.captureSelectors.None? ==> r.captureSelectors == o.captureSelectors
    ensures p.language.Some? ==> r.language == p.language.value
    ensures p.language.None? ==> r.language == o.language
  {
    Options(Override(o.captureScreenshots, p.captureScreenshots),
            Override(o.recordScreen, p.recordScreen),
            Override(o.captureSelectors, p.captureSelectors),
            Override(o.language, p.language))
  }

  /** Two patches applied one after the other, as one patch: the later one's keys win. */
  function Then(p: OptionsPatch, q: OptionsPatch): OptionsPatch
  {
    OptionsPatch(if q.captureScreenshots.Some? then q.captureScreenshots else p.captureScreenshots,
                 if q.recordScreen.Some? then q.recordScreen else p.recordScreen,
                 if q.captureSelectors.Some? then q.captureSelectors else p.captureSelectors,
                 if q.language.Some? then q.language else p.language)
  }

  /** The patch that names every key, with the values of `o`: what the popup sends. */
  function FullPatch(o: Options): OptionsPatch
  {
    OptionsPatch(Some(o.captureScreenshots), Some(o.recordScreen), Some(o.captureSelectors), Some(o.language))
  }

  /** An empty patch changes nothing; a full one replaces everything; merging twice is merging once
      with the later patch's keys winning, so merging the same patch again changes nothing. */
  lemma MergeLaws(o: Options, o2: Options, p: OptionsPatch, q: OptionsPatch)
    ensures Merge(o, EmptyPatch) == o
    ensures Merge(o, FullPatch(o2)) == o2
    ensures Merge(Merge(o, p), q) == Merge(o, Then(p, q))
    ensures Merge(Merge(o, p), p) == Merge(o, p)
  {
  }

  // ---------------------------------------------------------------- steps and replies

  /** The stored list after recordStep: the earlier steps unchanged and in order (an absent list read
      as empty), then the step stamped with the time `now`. */
  function AppendStep(steps: Option<seq<Step>>, step: Step, now: string): (r: seq<Step>)
    ensures |r| == |StepsOrEmpty(steps)| + 1
    ensures r[..|r| - 1] == StepsOrEmpty(steps)
    ensures r[|r| - 1] == step.(timestamp := Some(now))
    ensures r[|r| - 1].action == step.action && r[|r| - 1].description == step.description
  {
    StepsOrEmpty(steps) + [step.(timestamp := Some(now))]
  }

  /** Appending steps one at a time keeps them all, in the order they arrived. */
  lemma {:induction false} AppendKeepsOrder(steps: seq<Step>, a: Step, b: Step, t1: string, t2: string)
    ensures AppendStep(Some(AppendStep(Some(steps), a, t1)), b, t2)
         == steps + [a.(timestamp := Some(t1)), b.(timestamp := Some(t2))]
  {
    assert StepsOrEmpty(Some(steps)) == steps;
    var once := AppendStep(Some(steps), a, t1);
    assert StepsOrEmpty(Some(once)) == once;
  }

  /** What the message listener answers: success for the three state messages, success with the
      captured image (`null` when the capture failed) for a capture, an error for anything else. */
  function ReplyFor(msg: Message, captured: Option<string>): (r: Reply)
    ensures r.success <==> !msg.OtherAction?
    ensures r.error.Some? <==> msg.OtherAction?
    ensures r.imageData.Some? ==> msg.CaptureScreenshot? && r.imageData == captured
    ensures msg.CaptureScreenshot? ==> r.imageData == captured
    ensures msg.OtherAction? ==> r.error == Some("Unknown action")
  {
    match msg
    case StartRecording(_) => Acknowledged
    case StopRecording => Acknowledged
    case RecordStep(_) => Acknowledged
    case CaptureScreenshot => Reply(true, captured, None)
    case OtherAction(_) => Reply(false, None, Some("Unknown action"))
  }

  /** Because the capture reply always reports success, a content script that asked for a screenshot
      always goes on to send its step, with the image or, if the capture failed, with none. */
  lemma CaptureNeverDropsStep(opts: Options, step: Step, captured: Option<string>)
    requires opts.captureScreenshots
    ensures Delivery(opts, step, Some(ReplyFor(CaptureScreenshot, captured)))
         == [CaptureScreenshot, RecordStep(step.(screenshot := captured))]
  {
  }

  // ---------------------------------------------------------------- the service worker

  class ServiceWorker {
    var isRecording: bool
    var options: Options
    /** Control messages sent to every tab, oldest first. */
    var broadcasts: seq<ControlMessage>
    /** `chrome.storage.local`. */
    const storage: Store

    /** The worker's module-level state when it starts. */
    constructor(storage: Store)
      ensures !isRecording && options == DefaultOptions && broadcasts == []
      ensures this.storage == storage
    {
      isRecording := false;
      options := DefaultOptions;
      broadcasts := [];
      this.storage := storage;
    }

    /** Storage initialisation: an absent step list becomes the empty list; an existing one is kept. */
    method InitStorage()
      modifies storage`steps
      ensures storage.steps == if old(storage.steps).None? then Some([]) else old(storage.steps)
      ensures storage.steps.Some? && StepsOrEmpty(storage.steps) == StepsOrEmpty(old(storage.steps))
    {
      if storage.steps.None? {
        storage.steps := Some([]);
      }
    }

    /** startRecording: recording is on, the patch is merged into the options, and every tab is told
        to start with the merged options. */
    method StartRecording(patch: OptionsPatch)
      modifies this`isRecording, this`options, this`broadcasts
      ensures isRecording
      ensures options == Merge(old(options), patch)
      ensures broadcasts == old(broadcasts) + [StartControl(options)]
    {
      isRecording := true;
      options := Merge(options, patch);
      broadcasts := broadcasts + [StartControl(options)];
    }

    /** stopRecording: recording is off, the options are kept, and every tab is told to stop. */
    method StopRecording()
      modifies this`isRecording, this`broadcasts
      ensures !isRecording
      ensures broadcasts == old(broadcasts) + [StopControl]
    {
      isRecording := false;
      broadcasts := broadcasts + [StopControl];
    }

    /** recordStep: the step, stamped with `now`, goes at the end of the stored list. The flag is not
        consulted, so a step that arrives after stop is stored too. */
    method RecordStep(step: Step, now: string)
      modifies storage`steps
      ensures storage.steps == Some(AppendStep(old(storage.steps), step, now))
    {
      var stamped := step.(timestamp := Some(now));
      var steps := if storage.steps.Some? then storage.steps.value else [];
      steps := steps + [stamped];
      storage.steps := Some(steps);
    }

    /** The message listener: `now` is the time recordStep stamps a step with and `captured` the
        result of capturing the visible tab, `None` when the capture failed. */
    method OnMessage(msg: Message, now: string, captured: Option<string>) returns (reply: Reply)
      modifies this`isRecording, this`options, this`broadcasts, storage`steps
      ensures reply == ReplyFor(msg, captured)
      ensures isRecording == match msg
        case StartRecording(_) => true
        case StopRecording => false
        case _ => old(isRecording)
      ensures options == if msg.StartRecording? then Merge(old(options), msg.options) else old(options)
      ensures broadcasts == old(broadcasts) + match msg
        case StartRecording(_) => [StartControl(options)]
        case StopRecording => [StopControl]
        case _ => []
      ensures storage.steps
        == if msg.RecordStep? then Some(AppendStep(old(storage.steps), msg.step, now)) else old(storage.steps)
    {
      match msg {
        case StartRecording(patch) =>
          StartRecording(patch);
        case StopRecording =>
          StopRecording();
        case RecordStep(step) =>
          RecordStep(step, now);
        case CaptureScreenshot =>
        case OtherAction(_) =>
      }
      reply := ReplyFor(msg, captured);
    }
  }

  /** Initialising the storage a second time changes nothing, and a step recorded after
      initialisation lands in a list that holds the earlier steps. */
  method InitThenRecord(worker: ServiceWorker, step: Step, now: string)
    modifies worker.storage
    ensures worker.storage.steps == Some(StepsOrEmpty(old(worker.storage.steps)) + [step.(timestamp := Some(now))])
  {
    worker.InitStorage();
    var once := worker.storage.steps;
    worker.InitStorage();
    assert worker.storage.steps == once;
    worker.RecordStep(step, now);
  }
}
