/** How the content script turns a user event into a step record: the element information, the
    localized action and description, the optional selectors, the password mask and the iframe relay. */
module Capture {
  import opened Common
  import opened Text
  import opened Translation
  import opened Locators
  import opened Records

  /** What a password field's value is recorded as. */
  const Mask := "********"

  const IframeSuffix := " (in iframe)"

  /** getElementInfo: the description and both locators of an element. */
  function ElementInfoOf(e: Element): ElementInfo
  {
    ElementInfo(Describe(Target(e)), XPathOf(Some(e)), CssSelectorOf(Some(e)))
  }

  /** getElementInfo, running the two locator generators. */
  method GetElementInfo(e: Element) returns (info: ElementInfo)
    ensures info == ElementInfoOf(e)
    ensures info.description == Describe(Target(e))
    ensures info.xpath == XPathOf(Some(e)) && info.cssSelector == CssSelectorOf(Some(e))
  {
    var description := Describe(Target(e));
    var xpath := GenerateXPath(Some(e));
    var cssSelector := GenerateCssSelector(Some(e));
    info := ElementInfo(description, xpath, cssSelector);
  }

  /** `step.selectors`: both locators when captureSelectors is on, `null` otherwise. */
  function SelectorsFor(opts: Options, info: ElementInfo): (r: Option<Selectors>)
    ensures r.Some? <==> opts.captureSelectors
    ensures r.Some? ==> r.value.xpath == info.xpath && r.value.css == info.cssSelector
  {
    if opts.captureSelectors then Some(Selectors(info.xpath, info.cssSelector)) else None
  }

  /** The value an input step records: the mask for a password field, whatever was typed otherwise. */
  function RecordedValue(inputType: string, value: string): (r: string)
    ensures inputType == "password" ==> r == Mask && |r| == 8
    ensures inputType != "password" ==> r == value
  {
    if inputType == "password" then Mask else value
  }

  function ClickDescription(lang: string, description: string): string
  {
    Word("click", lang) + " " + Word("on", lang) + " " + description
  }

  function InputDescription(lang: string, value: string, description: string): string
  {
    Word("input", lang) + " \"" + value + "\" " + Word("on", lang) + " " + description
  }

  /** A click description opens with the action word and ends with the element's description. */
  lemma ClickDescriptionShape(lang: string, description: string)
    ensures StartsWith(ClickDescription(lang, description), Word("click", lang) + " ")
    ensures EndsWith(ClickDescription(lang, description), description)
  {
    var w := Word("click", lang);
    var head := w + " " + Word("on", lang) + " ";
    StartsWithAppend(w + " ", Word("on", lang));
    StartsWithAppend(w + " " + Word("on", lang), " ");
    StartsWithAppend(head, description);
    StartsWithTrans(head, w + " " + Word("on", lang), w + " ");
    StartsWithTrans(head + description, head, w + " ");
    EndsWithAppend(head, description);
  }

  /** An input description ends with the element's description. */
  lemma InputDescriptionEnds(lang: string, value: string, description: string)
    ensures EndsWith(InputDescription(lang, value, description), description)
  {
    EndsWithAppend(Word("input", lang) + " \"" + value + "\" " + Word("on", lang) + " ", description);
  }

  /** The step handleClick builds, before any screenshot. */
  function ClickStep(opts: Options, info: ElementInfo): (r: Step)
    ensures r.action == Word("click", opts.language) && r.screenshot.None? && r.timestamp.None?
    ensures r.selectors.Some? <==> opts.captureSelectors
    ensures r.description == r.action + " " + Word("on", opts.language) + " " + info.description
    ensures StartsWith(r.description, r.action + " ") && EndsWith(r.description, info.description)
  {
    ClickDescriptionShape(opts.language, info.description);
    Step(Word("click", opts.language), ClickDescription(opts.language, info.description),
         SelectorsFor(opts, info), None, None)
  }

  /** The step handleInput builds for a field of type `inputType` holding `value`. */
  function InputStep(opts: Options, info: ElementInfo, inputType: string, value: string): (r: Step)
    ensures r.action == Word("input", opts.language) && r.screenshot.None? && r.timestamp.None?
    ensures r.selectors.Some? <==> opts.captureSelectors
    ensures r.description == InputDescription(opts.language, RecordedValue(inputType, value), info.description)
    ensures inputType == "password" ==> r.description == InputDescription(opts.language, Mask, info.description)
    ensures EndsWith(r.description, info.description)
  {
    InputDescriptionEnds(opts.language, RecordedValue(inputType, value), info.description);
    Step(Word("input", opts.language),
         InputDescription(opts.language, RecordedValue(inputType, value), info.description),
         SelectorsFor(opts, info), None, None)
  }

  /** The step handleNavigation builds when leaving the page at `href`. */
  function NavigationStep(opts: Options, href: string): (r: Step)
    ensures r.action == Word("navigate", opts.language)
    ensures r.selectors.None? && r.screenshot.None? && r.timestamp.None?
    ensures r.description == r.action + " " + href
  {
    var action := Word("navigate", opts.language);
    Step(action, action + " " + href, None, None, None)
  }

  /** The payload an iframe posts for a click. */
  function RelayClick(info: ElementInfo): (r: RelayMessage)
    ensures r.action == "iframeEvent" && r.eventType == "click" && r.elementInfo == info && r.value.None?
  {
    RelayMessage("iframeEvent", "click", info, None)
  }

  /** The payload an iframe posts for a change: the value is masked before it leaves the iframe. */
  function RelayInput(info: ElementInfo, inputType: string, value: string): (r: RelayMessage)
    ensures r.action == "iframeEvent" && r.eventType == "input" && r.elementInfo == info
    ensures inputType == "password" ==> r.value == Some(Mask)
    ensures inputType != "password" ==> r.value == Some(value)
  {
    RelayMessage("iframeEvent", "input", info, Some(RecordedValue(inputType, value)))
  }

  /** The step the top frame rebuilds from a posted payload, if it is an iframe event it knows. */
  function RelayedStep(opts: Options, msg: RelayMessage): (r: Option<Step>)
    ensures r.Some? <==> msg.action == "iframeEvent" && msg.eventType in {"click", "input"}
    ensures r.Some? ==> EndsWith(r.value.description, IframeSuffix)
    ensures r.Some? ==> r.value.selectors == SelectorsFor(opts, msg.elementInfo)
  {
    var lang := opts.language;
    var info := msg.elementInfo;
    if msg.action != "iframeEvent" then None
    else if msg.eventType == "click" then
      Some(Step(Word("click", lang),
                Word("click", lang) + " " + Word("on", lang) + " " + info.description + IframeSuffix,
                SelectorsFor(opts, info), None, None))
    else if msg.eventType == "input" then
      Some(Step(Word("input", lang),
                Word("input", lang) + " \"" + Show(msg.value) + "\" " + Word("on", lang) + " "
                  + info.description + IframeSuffix,
                SelectorsFor(opts, info), None, None))
    else None
  }

  /** A click in an iframe is recorded as the same click in the top frame, with " (in iframe)" after
      its description. */
  lemma RelayedClickMatchesDirect(opts: Options, e: Element)
    ensures RelayedStep(opts, RelayClick(ElementInfoOf(e)))
         == Some(var s := ClickStep(opts, ElementInfoOf(e)); s.(description := s.description + IframeSuffix))
  {
  }

  /** A change in an iframe is recorded as the same change in the top frame, with " (in iframe)"
      after its description; in particular a password is masked on both paths. */
  lemma RelayedInputMatchesDirect(opts: Options, e: Element, value: string)
    ensures RelayedStep(opts, RelayInput(ElementInfoOf(e), Target(e).inputType, value))
         == Some(var s := InputStep(opts, ElementInfoOf(e), Target(e).inputType, value);
                 s.(description := s.description + IframeSuffix))
  {
  }

  /** What is recorded for a password field does not depend on what was typed, even when nothing was:
      the description carries exactly the eight-character mask. */
  lemma PasswordValueNeverRecorded(opts: Options, info: ElementInfo, typed1: string, typed2: string)
    ensures InputStep(opts, info, "password", typed1) == InputStep(opts, info, "password", typed2)
    ensures InputStep(opts, info, "password", typed1).description
         == InputDescription(opts.language, Mask, info.description)
    ensures RelayInput(info, "password", typed1) == RelayInput(info, "password", typed2)
  {
  }

  /** The recorded value is the text between the first two double quotes of an input description,
      provided the value itself holds none: no action word contains a quote. */
  lemma InputDescriptionQuotesValue(lang: string, value: string, description: string)
    requires '"' !in value
    ensures var d := InputDescription(lang, value, description);
            var open := |Word("input", lang)| + 1;
            && Find(d, "\"") == Some(open)
            && Find(d[open + 1..], "\"") == Some(|value|)
            && d[open + 1..][..|value|] == value
  {
    WordsHaveNoQuote("input", lang);
    QuoteOpensValue(Word("input", lang), value, Word("on", lang), description);
    QuoteClosesValue(Word("input", lang), value, Word("on", lang), description);
  }

  /** In `w "value" on description`, with no quote in `w`, the first quote is the one after `w`. */
  lemma QuoteOpensValue(w: string, value: string, on: string, description: string)
    requires '"' !in w
    ensures Find(w + " \"" + value + "\" " + on + " " + description, "\"") == Some(|w| + 1)
  {
    var d := w + " \"" + value + "\" " + on + " " + description;
    var open := |w| + 1;
    assert d[open] == '"';
    forall j | 0 <= j < open ensures d[j] != '"' {
      if j < |w| { assert d[j] == w[j]; } else { assert d[j] == ' '; }
    }
    FindChar(d, '"', open);
  }

  /** In `w "value" on description`, with no quote in `value`, the next quote closes the value. */
  lemma QuoteClosesValue(w: string, value: string, on: string, description: string)
    requires '"' !in value
    ensures var after := (w + " \"" + value + "\" " + on + " " + description)[|w| + 2..];
            Find(after, "\"") == Some(|value|) && after[..|value|] == value
  {
    var after := (w + " \"" + value + "\" " + on + " " + description)[|w| + 2..];
    assert after[|value|] == '"';
    forall j | 0 <= j < |value| ensures after[j] != '"' { assert after[j] == value[j]; }
    FindChar(after, '"', |value|);
    assert after[..|value|] == value;
  }
}
