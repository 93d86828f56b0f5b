/** The content script's recording state and event handlers. The runtime messages it sends and the
    payloads it posts to the top frame are kept, in order, in two logs. */
module ContentScript {
  import opened Common
  import opened Locators
  import opened Records
  import opened Capture

  /** What a handler sends for a built step: the step at once when screenshots are off; otherwise a
      capture request and then, only if the reply arrives and reports success, the step carrying the
      reply's image (which may be `null`). */
  function Delivery(opts: Options, step: Step, captureReply: Option<Reply>): (r: seq<Message>)
    ensures 1 <= |r| <= 2
    ensures r[0] == if opts.captureScreenshots then CaptureScreenshot else RecordStep(step)
    ensures r[|r| - 1].RecordStep? <==>
              !opts.captureScreenshots || (captureReply.Some? && captureReply.value.success)
    ensures r[|r| - 1].RecordStep? ==>
              r[|r| - 1].step == if opts.captureScreenshots then step.(screenshot := captureReply.value.imageData) else step
  {
    if opts.captureScreenshots then
      if captureReply.Some? && captureReply.value.success then
        [CaptureScreenshot, RecordStep(step.(screenshot := captureReply.value.imageData))]
      else [CaptureScreenshot]
    else [RecordStep(step)]
  }

  class Recorder {
    var isRecording: bool
    var options: Options
    /** Whether this script runs in the top frame (`window === window.top`). */
    const inTopFrame: bool
    /** Messages sent with `chrome.runtime.sendMessage`, oldest first. */
    var sent: seq<Message>
    /** Payloads posted to the top frame with `window.top.postMessage`, oldest first. */
    var posted: seq<RelayMessage>

    constructor(inTopFrame: bool)
      ensures !isRecording && options == DefaultOptions
      ensures this.inTopFrame == inTopFrame && sent == [] && posted == []
    {
      isRecording := false;
      options := DefaultOptions;
      this.inTopFrame := inTopFrame;
      sent := [];
      posted := [];
    }

    /** The start/stop listener: start takes the options as sent, stop keeps them. Both acknowledge. */
    method OnControlMessage(msg: ControlMessage) returns (reply: Reply)
      modifies this`isRecording, this`options
      ensures isRecording <==> msg.StartControl?
      ensures options == if msg.StartControl? then msg.options else old(options)
      ensures reply == Acknowledged
    {
      match msg {
        case StartControl(opts) =>
          isRecording := true;
          options := opts;
        case StopControl =>
          isRecording := false;
      }
      reply := Acknowledged;
    }

    /** handleClick on `target`; `captureReply` is the service worker's answer to the capture request,
        `None` if none arrives. */
    method HandleClick(target: Element, captureReply: Option<Reply>)
      modifies this`sent
      ensures sent == old(sent) + if isRecording
        then Delivery(options, ClickStep(options, ElementInfoOf(target)), captureReply) else []
    {
      if !isRecording {
        return;
      }
      var info := GetElementInfo(target);
      var step := ClickStep(options, info);
      Send(step, captureReply);
    }

    /** handleInput on `target`, whose value is `value`. */
    method HandleInput(target: Element, value: string, captureReply: Option<Reply>)
      modifies this`sent
      ensures sent == old(sent) + if isRecording
        then Delivery(options, InputStep(options, ElementInfoOf(target), Target(target).inputType, value), captureReply)
        else []
    {
      if !isRecording {
        return;
      }
      var info := GetElementInfo(target);
      var step := InputStep(options, info, Target(target).inputType, value);
      Send(step, captureReply);
    }

    /** handleNavigation when the page at `href` unloads: the step goes out without a screenshot. */
    method HandleNavigation(href: string)
      modifies this`sent
      ensures sent == old(sent) + if isRecording then [RecordStep(NavigationStep(options, href))] else []
    {
      if isRecording {
        sent := sent + [RecordStep(NavigationStep(options, href))];
      }
    }

    method Send(step: Step, captureReply: Option<Reply>)
      modifies this`sent
      ensures sent == old(sent) + Delivery(options, step, captureReply)
    {
      if options.captureScreenshots {
        sent := sent + [CaptureScreenshot];
        if captureReply.Some? && captureReply.value.success {
          sent := sent + [RecordStep(step.(screenshot := captureReply.value.imageData))];
        }
      } else {
        sent := sent + [RecordStep(step)];
      }
    }

    /** The iframe's click listener: it posts the element information to the top frame. */
    method ForwardClick(target: Element)
      requires !inTopFrame
      modifies this`posted
      ensures posted == old(posted) + if isRecording then [RelayClick(ElementInfoOf(target))] else []
    {
      if isRecording {
        var info := GetElementInfo(target);
        posted := posted + [RelayClick(info)];
      }
    }

    /** The iframe's change listener: it posts the element information and the masked value. */
    method ForwardInput(target: Element, value: string)
      requires !inTopFrame
      modifies this`posted
      ensures posted == old(posted)
        + if isRecording then [RelayInput(ElementInfoOf(target), Target(target).inputType, value)] else []
    {
      if isRecording {
        var info := GetElementInfo(target);
        posted := posted + [RelayInput(info, Target(target).inputType, value)];
      }
    }

    /** The top frame's `message` listener: a known iframe event is recorded as a step, without a
        screenshot; anything else is ignored. */
    method OnFrameMessage(msg: RelayMessage)
      requires inTopFrame
      modifies this`sent
      ensures sent == old(sent) + if isRecording && RelayedStep(options, msg).Some?
        then [RecordStep(RelayedStep(options, msg).value)] else []
    {
      if !isRecording {
        return;
      }
      var step := RelayedStep(options, msg);
      if step.Some? {
        sent := sent + [RecordStep(step.value)];
      }
    }
  }

  /** A failed capture still answers success with a `null` image, so the step is recorded without a
      screenshot rather than dropped; a missing or unsuccessful reply drops it. */
  lemma CaptureFailureKeepsStep(opts: Options, step: Step)
    requires opts.captureScreenshots
    ensures Delivery(opts, step, Some(Reply(true, None, None)))
         == [CaptureScreenshot, RecordStep(step.(screenshot := None))]
    ensures Delivery(opts, step, None) == [CaptureScreenshot]
    ensures Delivery(opts, step, Some(Reply(false, None, Some("Unknown action")))) == [CaptureScreenshot]
  {
  }
}
