/** How a step the content script records is replayed by the Puppeteer generator: the generator
    recognises the English action words only, reads the CSS selector from the step's selectors and
    recovers the typed value and the URL from the step's description. */
module Replay {
  import opened Common
  import opened Text
  import opened Translation
  import opened Locators
  import opened Records
  import opened Capture
  import opened Panel

  /** A language whose action words are the English ones. */
  predicate EnglishWords(lang: string)
  {
    lang == "en" || lang !in Languages
  }

  /** A click recorded in English with selectors on is replayed as a wait for, and a click on, the
      element's own CSS selector, whatever screenshot and timestamp the stored step carries. */
  lemma ClickReplays(opts: Options, e: Element, shot: Option<string>, time: Option<string>)
    requires EnglishWords(opts.language) && opts.captureSelectors && Target(e).tag != ""
    ensures var step := ClickStep(opts, ElementInfoOf(e)).(screenshot := shot, timestamp := time);
            var css := CssSelectorOf(Some(e));
            StepCommands(step) == [Comment(step.description), WaitFor(css), ClickOn(css)]
  {
    EnglishActionWords(opts.language);
    CssSelectorNonEmpty(e);
  }

  /** An input recorded in English with selectors on is replayed as typing the recorded value (the
      mask, for a password) into the element's CSS selector, provided the value holds no double quote. */
  lemma InputReplays(opts: Options, e: Element, value: string, shot: Option<string>, time: Option<string>)
    requires EnglishWords(opts.language) && opts.captureSelectors && Target(e).tag != ""
    requires '"' !in RecordedValue(Target(e).inputType, value)
    ensures var step := InputStep(opts, ElementInfoOf(e), Target(e).inputType, value).(screenshot := shot, timestamp := time);
            var css := CssSelectorOf(Some(e));
            StepCommands(step)
              == [Comment(step.description), WaitFor(css), TypeInto(css, RecordedValue(Target(e).inputType, value))]
  {
    EnglishActionWords(opts.language);
    CssSelectorNonEmpty(e);
    var v := RecordedValue(Target(e).inputType, value);
    var d := InputDescription(opts.language, v, Describe(Target(e)));
    var rest := " " + "on" + " " + Describe(Target(e));
    assert d == "Input" + " \"" + v + "\" " + "on" + " " + Describe(Target(e));
    assert d == "Input " + "\"" + v + "\"" + rest;
    QuotedValueBetween("Input ", v, rest);
  }

  /** A password is always replayed as typing the eight-character mask. */
  lemma PasswordReplaysAsMask(opts: Options, e: Element, value: string)
    requires EnglishWords(opts.language) && opts.captureSelectors && Target(e).tag != ""
    requires Target(e).inputType == "password"
    ensures StepCommands(InputStep(opts, ElementInfoOf(e), "password", value))[2]
         == TypeInto(CssSelectorOf(Some(e)), Mask)
  {
    assert '"' !in Mask;
    InputReplays(opts, e, value, None, None);
  }

  /** A navigation recorded in English is replayed as a visit to the page it left, provided the URL
      does not itself hold "Navigate to ". */
  lemma NavigationReplays(opts: Options, href: string, shot: Option<string>, time: Option<string>)
    requires EnglishWords(opts.language) && !Contains(href, "Navigate to ")
    ensures var step := NavigationStep(opts, href).(screenshot := shot, timestamp := time);
            StepCommands(step) == [Comment(step.description), Goto(Some(href))]
  {
    EnglishActionWords(opts.language);
    assert NavigationStep(opts, href).description == "Navigate to " + href;
    SecondPieceAfterPrefix("Navigate to ", href);
  }

  /** Without selectors, an English click or input is replayed as a reminder to add one. */
  lemma NoSelectorsLeavesTodo(opts: Options, info: ElementInfo, inputType: string, value: string)
    requires EnglishWords(opts.language) && !opts.captureSelectors
    ensures StepCommands(ClickStep(opts, info))
         == [Comment(ClickStep(opts, info).description), Todo("click")]
    ensures StepCommands(InputStep(opts, info, inputType, value))
         == [Comment(InputStep(opts, info, inputType, value).description), Todo("input")]
  {
    EnglishActionWords(opts.language);
  }

  /** A step recorded in any other language keeps only its description: its action word is not one
      the generator compares with. */
  lemma ForeignStepsOnlyComment(opts: Options, info: ElementInfo, inputType: string, value: string, href: string)
    requires opts.language in Languages - {"en"}
    ensures StepCommands(ClickStep(opts, info)) == [Comment(ClickStep(opts, info).description)]
    ensures StepCommands(InputStep(opts, info, inputType, value))
         == [Comment(InputStep(opts, info, inputType, value).description)]
    ensures StepCommands(NavigationStep(opts, href)) == [Comment(NavigationStep(opts, href).description)]
  {
    ForeignActionWords("click", opts.language);
    ForeignActionWords("input", opts.language);
    ForeignActionWords("navigate", opts.language);
    OtherActionsOnlyComment(ClickStep(opts, info));
    OtherActionsOnlyComment(InputStep(opts, info, inputType, value));
    OtherActionsOnlyComment(NavigationStep(opts, href));
  }
}
