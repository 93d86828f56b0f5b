/** The element locators and descriptions of the content script: generateXPath, generateCssSelector
    and getElementDescription, over an abstract element. */
module Locators {
  import opened Common
  import opened Text

  /** An element's `className`: a string on HTML elements, an SVGAnimatedString object on SVG ones. */
  datatype ClassName = ClassString(value: string) | NotAString

  /** What the locators read of one element. `id`, `name` and `inputType` are "" when the element has
      none; `precedingTags` are the tag names of its earlier element siblings, nearest first. */
  datatype Level = Level(
    tag: string,
    id: string,
    name: string,
    className: ClassName,
    inputType: string,
    text: string,
    precedingTags: seq<string>)

  /** An element as the chain of its ancestors: the outermost element first, the element itself last. */
  type Element = p: seq<Level> | |p| > 0 witness [Level("HTML", "", "", ClassString(""), "", "", [])]

  function Target(e: Element): Level
  {
    e[|e| - 1]
  }

  /** The number of earlier element siblings with the element's own tag name. */
  function SameTagBefore(l: Level): nat
  {
    multiset(l.precedingTags)[l.tag]
  }

  // ---------------------------------------------------------------- XPath

  /** One XPath step: the lower-case tag, then `[k]` when the 1-based index k among same-tag
      siblings exceeds 1. */
  function XPathSegment(l: Level): string
  {
    var count := 1 + SameTagBefore(l);
    Lower(l.tag) + (if count > 1 then "[" + NatToString(count) + "]" else "")
  }

  function XPathSegments(levels: seq<Level>): seq<string>
  {
    seq(|levels|, i requires 0 <= i < |levels| => XPathSegment(levels[i]))
  }

  /** What generateXPath returns: "" for no element, the id form when the element has an id, and
      otherwise one step per level from the root down. */
  function XPathOf(element: Option<Element>): string
  {
    match element
    case None => ""
    case Some(e) =>
      if Target(e).id != "" then "//*[@id=\"" + Target(e).id + "\"]"
      else "//" + Join(XPathSegments(e), "/")
  }

  /** The inner loop of generateXPath: 1 plus the earlier siblings with the same tag. */
  method CountSameTag(l: Level) returns (count: nat)
    ensures count == 1 + SameTagBefore(l)
  {
    count := 1;
    var k := 0;
    while k < |l.precedingTags|
      invariant 0 <= k <= |l.precedingTags|
      invariant count == 1 + multiset(l.precedingTags[..k])[l.tag]
    {
      assert l.precedingTags[..k + 1] == l.precedingTags[..k] + [l.precedingTags[k]];
      if l.precedingTags[k] == l.tag {
        count := count + 1;
      }
      k := k + 1;
    }
    assert l.precedingTags[..k] == l.precedingTags;
  }

  /** generateXPath: walks from the element up to the root, putting each step in front. */
  method GenerateXPath(element: Option<Element>) returns (xpath: string)
    ensures xpath == XPathOf(element)
  {
    if element.None? {
      return "";
    }
    var e := element.value;
    if e[|e| - 1].id != "" {
      return "//*[@id=\"" + e[|e| - 1].id + "\"]";
    }
    var parts: seq<string> := [];
    var i := |e|;
    while i > 0
      invariant 0 <= i <= |e|
      invariant parts == XPathSegments(e[i..])
    {
      i := i - 1;
      var current := e[i];
      var count := CountSameTag(current);
      var part := Lower(current.tag);
      if count > 1 {
        part := part + "[" + NatToString(count) + "]";
      }
      assert part == XPathSegment(current);
      assert e[i..] == [e[i]] + e[i + 1..];
      assert XPathSegments(e[i..]) == [part] + XPathSegments(e[i + 1..]);
      parts := [part] + parts;
    }
    xpath := "//" + Join(parts, "/");
  }

  /** The XPath of a child without ids extends its parent's by one step. */
  lemma XPathOfChild(e: Element, l: Level)
    requires Target(e).id == "" && l.id == ""
    ensures XPathOf(Some(e + [l])) == XPathOf(Some(e)) + "/" + XPathSegment(l)
  {
    var segs, x := XPathSegments(e), XPathSegment(l);
    assert XPathSegments(e + [l]) == segs + [x];
    assert Target(e + [l]) == l;
    JoinSnoc(segs, x, "/");
    var j := Join(segs, "/");
    calc {
      XPathOf(Some(e + [l]));
      "//" + Join(segs + [x], "/");
      "//" + (j + "/" + x);
      { AppendAssoc3("//", j, "/", x); }
      "//" + j + "/" + x;
    }
  }

  lemma AppendAssoc3(a: string, b: string, c: string, d: string)
    ensures a + (b + c + d) == a + b + c + d
  {
  }

  lemma SegmentHasNoSlash(l: Level)
    requires '/' !in l.tag
    ensures '/' !in XPathSegment(l)
  {
    var count := 1 + SameTagBefore(l);
    var digits := NatToString(count);
    assert '/' !in digits by {
      forall i | 0 <= i < |digits| ensures digits[i] != '/' { assert IsDigit(digits[i]); }
    }
    assert '/' !in Lower(l.tag) by {
      forall i | 0 <= i < |l.tag| ensures Lower(l.tag)[i] != '/' { assert l.tag[i] != '/'; }
    }
  }

  /** For an element without an id whose tags hold no '/', the XPath after its leading "//" splits
      back into exactly one step per level, root first: the depth can be read off the locator. */
  lemma XPathSplitsIntoLevels(e: Element)
    requires Target(e).id == ""
    requires forall j :: 0 <= j < |e| ==> '/' !in e[j].tag
    ensures StartsWith(XPathOf(Some(e)), "//")
    ensures Split(XPathOf(Some(e))[2..], '/') == XPathSegments(e)
    ensures |Split(XPathOf(Some(e))[2..], '/')| == |e|
  {
    var parts := XPathSegments(e);
    forall k | 0 <= k < |parts| ensures '/' !in parts[k] { SegmentHasNoSlash(e[k]); }
    SplitJoin(parts, '/');
    assert XPathOf(Some(e))[2..] == Join(parts, "/");
  }

  // ---------------------------------------------------------------- CSS selector

  /** The class names the selector uses: `className.trim().split(/\s+/)`. */
  function ClassNames(value: string): seq<string>
  {
    SplitSpaces(Trim(value))
  }

  /** The class part of a CSS step: `.c1.c2…` for a string className, nothing otherwise. */
  function ClassSuffix(cn: ClassName): string
  {
    if cn.ClassString? && cn.value != "" then
      var classes := ClassNames(cn.value);
      if |classes| > 0 && classes[0] != "" then "." + Join(classes, ".") else ""
    else ""
  }

  /** The position part of a CSS step. As written, `position` is only assigned while
      `temp === current`, on the first pass, when `siblings` is 1; so the index printed is always 1. */
  function NthOfTypeSuffix(l: Level): string
  {
    if 1 + SameTagBefore(l) > 1 then ":nth-of-type(" + NatToString(1) + ")" else ""
  }

  function CssSegment(l: Level): string
  {
    Lower(l.tag) + ClassSuffix(l.className) + NthOfTypeSuffix(l)
  }

  function CssSegments(levels: seq<Level>): seq<string>
  {
    seq(|levels|, i requires 0 <= i < |levels| => CssSegment(levels[i]))
  }

  /** The step of an ancestor that has an id, where the walk stops. */
  function IdSegment(l: Level): string
  {
    Lower(l.tag) + "#" + l.id
  }

  /** The steps the walk collects over the levels `e`, from the last level upwards, stopping after
      the first level that has an id. */
  function CssPath(e: seq<Level>): seq<string>
  {
    if |e| == 0 then []
    else if e[|e| - 1].id != "" then [IdSegment(e[|e| - 1])]
    else CssPath(e[..|e| - 1]) + [CssSegment(e[|e| - 1])]
  }

  /** What generateCssSelector returns. */
  function CssSelectorOf(element: Option<Element>): string
  {
    match element
    case None => ""
    case Some(e) => if Target(e).id != "" then "#" + Target(e).id else Join(CssPath(e), " > ")
  }

  /** The inner loop of generateCssSelector: `temp` runs over the element and then its earlier
      siblings; `siblings` counts those with the element's tag, and `position` is set only when
      `temp` is the element itself. */
  method ScanSameTag(l: Level) returns (siblings: nat, position: nat)
    ensures siblings == 1 + SameTagBefore(l)
    ensures position == 1
  {
    var chain := [l.tag] + l.precedingTags;
    siblings, position := 0, 1;
    var k := 0;
    while k < |chain|
      invariant 0 <= k <= |chain|
      invariant siblings == multiset(chain[..k])[l.tag]
      invariant k > 0 ==> siblings >= 1
      invariant position == 1
    {
      assert chain[..k + 1] == chain[..k] + [chain[k]];
      if chain[k] == l.tag {
        siblings := siblings + 1;
        if k == 0 {
          position := siblings;
        }
      }
      k := k + 1;
    }
    assert chain[..k] == chain;
    assert multiset(chain) == multiset{l.tag} + multiset(l.precedingTags);
  }

  /** One pass of the outer loop of generateCssSelector for an ancestor without an id. */
  method CssStep(current: Level) returns (selector: string)
    ensures selector == CssSegment(current)
  {
    var classPart := "";
    if current.className.ClassString? && current.className.value != "" {
      var classes := SplitSpaces(Trim(current.className.value));
      if |classes| > 0 && classes[0] != "" {
        classPart := "." + Join(classes, ".");
      }
    }
    var nthPart := "";
    var siblings, position := ScanSameTag(current);
    if siblings > 1 {
      nthPart := ":nth-of-type(" + NatToString(position) + ")";
    }
    selector := Lower(current.tag) + classPart + nthPart;
  }

  /** generateCssSelector: walks up from the element, putting each step in front, and stops after
      an ancestor with an id. */
  method GenerateCssSelector(element: Option<Element>) returns (css: string)
    ensures css == CssSelectorOf(element)
  {
    if element.None? {
      return "";
    }
    var e := element.value;
    if e[|e| - 1].id != "" {
      return "#" + e[|e| - 1].id;
    }
    var path := CollectCssPath(e);
    css := Join(path, " > ");
  }

  /** The outer loop of generateCssSelector, for an element without an id. */
  method CollectCssPath(e: seq<Level>) returns (path: seq<string>)
    ensures path == CssPath(e)
  {
    path := [];
    var i := |e|;
    var stopped := false;
    assert e[..|e|] == e;
    while i > 0 && !stopped
      invariant 0 <= i <= |e|
      invariant stopped ==> CssPath(e) == path
      invariant !stopped ==> CssPath(e) == CssPath(e[..i]) + path
    {
      var current := e[i - 1];
      CssPathStep(e, i, path);
      if current.id != "" {
        var selector := Lower(current.tag) + "#" + current.id;
        path := [selector] + path;
        stopped := true;
      } else {
        var selector := CssStep(current);
        path := [selector] + path;
      }
      i := i - 1;
    }
  }

  /** One pass of the outer loop, as a fact about the path collected so far. */
  lemma CssPathStep(e: seq<Level>, i: nat, path: seq<string>)
    requires 0 < i <= |e|
    ensures e[i - 1].id != "" ==> CssPath(e[..i]) + path == [Lower(e[i - 1].tag) + "#" + e[i - 1].id] + path
    ensures e[i - 1].id == "" ==> CssPath(e[..i]) + path == CssPath(e[..i - 1]) + ([CssSegment(e[i - 1])] + path)
  {
    CssPathUnfold(e, i);
  }

  lemma CssPathUnfold(e: seq<Level>, i: nat)
    requires 0 < i <= |e|
    ensures e[i - 1].id != "" ==> CssPath(e[..i]) == [IdSegment(e[i - 1])]
    ensures e[i - 1].id == "" ==> CssPath(e[..i]) == CssPath(e[..i - 1]) + [CssSegment(e[i - 1])]
  {
    assert e[..i][..i - 1] == e[..i - 1];
  }

  lemma CssSegmentsSnoc(e: seq<Level>, l: Level)
    ensures CssSegments(e + [l]) == CssSegments(e) + [CssSegment(l)]
  {
  }

  /** The steps of the levels from `k` on are those of the levels from `k` up to the last one,
      then the last one's. */
  lemma CssSegmentsLast(e: seq<Level>, k: nat)
    requires k < |e|
    ensures CssSegments(e[k..]) == CssSegments(e[..|e| - 1][k..]) + [CssSegment(e[|e| - 1])]
  {
    assert e[k..] == e[..|e| - 1][k..] + [e[|e| - 1]];
    CssSegmentsSnoc(e[..|e| - 1][k..], e[|e| - 1]);
  }

  /** Below the last level with an id the walk collects one step per level, in document order. */
  lemma {:induction false} CssPathSuffix(e: seq<Level>, k: nat)
    requires k <= |e|
    requires forall j :: k <= j < |e| ==> e[j].id == ""
    ensures CssPath(e) == CssPath(e[..k]) + CssSegments(e[k..])
  {
    if k == |e| {
      assert e[..k] == e;
      assert CssSegments(e[k..]) == [];
    } else {
      var n := |e| - 1;
      var front := e[..n];
      assert e[n].id == "";
      assert forall j :: k <= j < |front| ==> front[j] == e[j];
      CssPathSuffix(front, k);
      assert front[..k] == e[..k];
      CssSegmentsLast(e, k);
      var head, mid, last := CssPath(e[..k]), CssSegments(front[k..]), [CssSegment(e[n])];
      calc {
        CssPath(e);
        CssPath(front) + last;
        head + mid + last;
        head + (mid + last);
        head + CssSegments(e[k..]);
      }
    }
  }

  /** With no id anywhere, the selector has one step per level, root first (its depth). */
  lemma CssPathWithoutIds(e: Element)
    requires forall j :: 0 <= j < |e| ==> e[j].id == ""
    ensures CssPath(e) == CssSegments(e)
    ensures |CssPath(e)| == |e|
  {
    CssPathSuffix(e, 0);
    assert e[..0] == [] && e[0..] == e;
    calc {
      CssPath(e);
      CssPath(e[..0]) + CssSegments(e[0..]);
      [] + CssSegments(e);
      CssSegments(e);
    }
  }

  /** The walk stops at the nearest ancestor with an id: its `tag#id` is the leftmost step, followed
      by one step per level below it. */
  lemma CssPathStopsAtId(e: Element, k: nat)
    requires k < |e| - 1 && e[k].id != ""
    requires forall j :: k < j < |e| ==> e[j].id == ""
    ensures CssPath(e) == [IdSegment(e[k])] + CssSegments(e[k + 1..])
  {
    CssPathSuffix(e, k + 1);
    CssPathUnfold(e, k + 1);
  }

  /** The selector is then that `tag#id` and the steps below it, joined with " > ". */
  lemma CssSelectorStopsAtId(e: Element, k: nat)
    requires k < |e| - 1 && e[k].id != ""
    requires forall j :: k < j < |e| ==> e[j].id == ""
    ensures CssSelectorOf(Some(e)) == Join([IdSegment(e[k])] + CssSegments(e[k + 1..]), " > ")
  {
    CssPathStopsAtId(e, k);
    assert Target(e).id == "";
  }

  /** The selector of a real element (whose tag is never empty) is never empty. */
  lemma CssSelectorNonEmpty(e: Element)
    requires Target(e).tag != ""
    ensures CssSelectorOf(Some(e)) != ""
  {
    if Target(e).id == "" {
      var path := CssPath(e);
      assert path == CssPath(e[..|e| - 1]) + [CssSegment(Target(e))];
      JoinEndsWithLast(path, " > ");
      assert |Lower(Target(e).tag)| > 0;
    }
  }

  lemma {:induction false} NonSpaceAppend(a: string, b: string)
    ensures NonSpace(a + b) == NonSpace(a) + NonSpace(b)
  {
    if a != [] {
      assert (a + b)[0] == a[0];
      assert (a + b)[1..] == a[1..] + b;
      NonSpaceAppend(a[1..], b);
      var h := if IsSpace(a[0]) then "" else [a[0]];
      assert h + (NonSpace(a[1..]) + NonSpace(b)) == (h + NonSpace(a[1..])) + NonSpace(b);
    } else {
      assert a + b == b;
    }
  }

  lemma {:induction false} NonSpaceBlank(s: string)
    requires Blank(s)
    ensures NonSpace(s) == ""
  {
    if s != [] {
      assert Blank(s[1..]);
      NonSpaceBlank(s[1..]);
    }
  }

  lemma NonSpaceTrimStart(s: string)
    ensures NonSpace(TrimStart(s)) == NonSpace(s)
  {
    var t := TrimStart(s);
    var k := |s| - |t|;
    assert s == s[..k] + t;
    NonSpaceAppend(s[..k], t);
    NonSpaceBlank(s[..k]);
  }

  lemma NonSpaceTrimEnd(s: string)
    ensures NonSpace(TrimEnd(s)) == NonSpace(s)
  {
    var r := TrimEnd(s);
    assert s == r + s[|r|..];
    NonSpaceAppend(r, s[|r|..]);
    NonSpaceBlank(s[|r|..]);
  }

  /** Trimming keeps every non-space character. */
  lemma NonSpaceTrim(s: string)
    ensures NonSpace(Trim(s)) == NonSpace(s)
  {
    NonSpaceTrimStart(s);
    NonSpaceTrimEnd(TrimStart(s));
  }

  /** A step gets a class part exactly when className is a string with some non-white-space content. */
  lemma ClassSuffixPresent(cn: ClassName)
    ensures ClassSuffix(cn) != "" <==> cn.ClassString? && !Blank(cn.value)
  {
    if cn.ClassString? {
      var t := Trim(cn.value);
      SplitSpacesFirst(t);
      if !Blank(cn.value) {
        assert cn.value != "";
        assert t != [] && !IsSpace(t[0]);
      } else {
        assert t == [];
      }
    }
  }

  /** For a className with content, the class part is `.` followed by the class names joined with `.`. */
  lemma ClassSuffixContents(cn: ClassName)
    requires cn.ClassString? && !Blank(cn.value)
    ensures ClassSuffix(cn) == "." + Join(ClassNames(cn.value), ".")
  {
    ClassSuffixPresent(cn);
  }

  /** The class names of a className with content are non-empty and free of white space, and together
      they hold its non-space characters in order. */
  lemma ClassNamesShape(value: string)
    requires !Blank(value)
    ensures forall k :: 0 <= k < |ClassNames(value)| ==> ClassNames(value)[k] != "" && SpaceFree(ClassNames(value)[k])
    ensures ConcatAll(ClassNames(value)) == NonSpace(value)
  {
    ClassNamesPieces(value);
    SplitSpacesKeepsText(Trim(value));
    NonSpaceTrim(value);
  }

  lemma ClassNamesPieces(value: string)
    requires !Blank(value)
    ensures forall k :: 0 <= k < |ClassNames(value)| ==> ClassNames(value)[k] != "" && SpaceFree(ClassNames(value)[k])
  {
    var t := Trim(value);
    var pieces := SplitSpaces(t);
    SplitSpacesFirst(t);
    SplitSpacesSpaceFree(t);
    SplitSpacesLaterPieces(t);
    forall k | 0 <= k < |pieces|
      ensures pieces[k] != "" && SpaceFree(pieces[k])
    {
      if k == 0 {
        assert !IsSpace(t[0]);
      }
    }
  }

  /** As written, the CSS index of an element with earlier same-tag siblings is always 1, while its
      XPath index is its real position, at least 2: the two locators disagree. */
  lemma NthOfTypeAlwaysOne(l: Level)
    requires SameTagBefore(l) >= 1
    ensures NthOfTypeSuffix(l) == ":nth-of-type(1)"
    ensures XPathSegment(l) == Lower(l.tag) + "[" + NatToString(1 + SameTagBefore(l)) + "]"
    ensures ParseNat(NatToString(1 + SameTagBefore(l))) >= 2
  {
    assert NatToString(1) == "1";
    NatToStringRoundTrip(1 + SameTagBefore(l));
  }

  // ---------------------------------------------------------------- description

  /** The className as a template literal would print a string one; "" for an SVG one. */
  function ClassText(cn: ClassName): string
  {
    if cn.ClassString? then cn.value else ""
  }

  predicate HasClassText(cn: ClassName)
  {
    cn.ClassString? && cn.value != "" && Trim(cn.value) != ""
  }

  /** `text && text.trim() !== ''`: some character that is not white space. */
  predicate HasText(text: string)
  {
    text != "" && Trim(text) != ""
  }

  /** getElementDescription: the first rule that applies, from most to least replay-stable. */
  function Describe(l: Level): (r: string)
    ensures l.tag != "" ==> r != ""
  {
    if l.id != "" then Lower(l.tag) + " with id \"" + l.id + "\""
    else if l.name != "" then Lower(l.tag) + " with name \"" + l.name + "\""
    else if HasClassText(l.className) then Lower(l.tag) + " with class \"" + l.className.value + "\""
    else if l.tag == "A" && HasText(l.text) then "link with text \"" + Trim(l.text) + "\""
    else if l.tag == "BUTTON" && HasText(l.text) then "button with text \"" + Trim(l.text) + "\""
    else if l.tag == "INPUT" && l.inputType != "" then l.inputType + " input field"
    else if l.tag == "LABEL" && l.text != "" then "label with text \"" + Trim(l.text) + "\""
    else Lower(l.tag)
  }

  /** The description rules, each with its own condition and wording. */
  datatype Rule = ById | ByName | ByClass | LinkText | ButtonText | InputType | LabelText | TagOnly

  /** The rules in priority order. */
  const RuleOrder: seq<Rule> := [ById, ByName, ByClass, LinkText, ButtonText, InputType, LabelText, TagOnly]

  predicate Applies(r: Rule, l: Level)
  {
    match r
    case ById => l.id != ""
    case ByName => l.name != ""
    case ByClass => HasClassText(l.className)
    case LinkText => l.tag == "A" && HasText(l.text)
    case ButtonText => l.tag == "BUTTON" && HasText(l.text)
    case InputType => l.tag == "INPUT" && l.inputType != ""
    case LabelText => l.tag == "LABEL" && l.text != ""
    case TagOnly => true
  }

  function Phrase(r: Rule, l: Level): string
  {
    match r
    case ById => Lower(l.tag) + " with id \"" + l.id + "\""
    case ByName => Lower(l.tag) + " with name \"" + l.name + "\""
    case ByClass => Lower(l.tag) + " with class \"" + ClassText(l.className) + "\""
    case LinkText => "link with text \"" + Trim(l.text) + "\""
    case ButtonText => "button with text \"" + Trim(l.text) + "\""
    case InputType => l.inputType + " input field"
    case LabelText => "label with text \"" + Trim(l.text) + "\""
    case TagOnly => Lower(l.tag)
  }

  /** The description is the wording of the first rule, in priority order, whose condition holds. */
  lemma DescribeIsFirstApplicableRule(l: Level, k: nat)
    requires k < |RuleOrder| && Applies(RuleOrder[k], l)
    requires forall j :: 0 <= j < k ==> !Applies(RuleOrder[j], l)
    ensures Describe(l) == Phrase(RuleOrder[k], l)
  {
    assert RuleOrder[0] == ById;
    if k == 0 { return; }
    assert l.id == "" && RuleOrder[1] == ByName;
    if k == 1 { return; }
    assert l.name == "" && RuleOrder[2] == ByClass;
    if k == 2 { return; }
    assert !HasClassText(l.className) && RuleOrder[3] == LinkText;
    if k == 3 { return; }
    assert !(l.tag == "A" && HasText(l.text)) && RuleOrder[4] == ButtonText;
    if k == 4 { return; }
    assert !(l.tag == "BUTTON" && HasText(l.text)) && RuleOrder[5] == InputType;
    if k == 5 { return; }
    assert !(l.tag == "INPUT" && l.inputType != "") && RuleOrder[6] == LabelText;
    if k == 6 { return; }
    assert !(l.tag == "LABEL" && l.text != "") && RuleOrder[7] == TagOnly;
  }

  /** The class and text conditions hold exactly when there is a character that is not white space. */
  lemma DescriptionConditions(l: Level)
    ensures HasClassText(l.className) <==> l.className.ClassString? && !Blank(l.className.value)
    ensures HasText(l.text) <==> !Blank(l.text)
  {
    if l.className.ClassString? && !Blank(l.className.value) {
      assert l.className.value != "";
    }
    if !Blank(l.text) {
      assert l.text != "";
    }
  }

  /** An element with an id is always described by it, whatever its name, classes or text. */
  lemma IdDescriptionWins(l: Level)
    requires l.id != ""
    ensures Describe(l) == Lower(l.tag) + " with id \"" + l.id + "\""
  {
    DescribeIsFirstApplicableRule(l, 0);
  }
}
