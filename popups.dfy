/** Overlay and cookie-banner suppression (src/utils/popupHandler.js).

    The page is modelled as the list `document.querySelectorAll('*')`
    returns: every element in document order, each with the computed-style
    strings the pass reads. An element's descendants are the elements that
    follow it in that order, `descendants` of them. Computed styles are
    inputs: the model holds them fixed while the pass runs. */
module Popups {
  import opened Wrappers
  import opened Strings

  datatype Element = Element(
    tagName: string,     // `el.tagName`
    id: string,          // the `id` attribute, "" when absent
    className: string,   // the `class` attribute, "" when absent
    textContent: string, // `el.textContent`
    position: string,    // computed `position`
    zIndex: string,      // computed `z-index`, such as "auto" or "10"
    width: string,       // computed `width`, such as "320px" or "auto"
    height: string,      // computed `height`
    descendants: nat,    // size of the subtree below the element
    display: string)     // the inline `style.display`, "" when unset

  /** Every element's subtree lies inside the document. */
  predicate WellFormed(doc: seq<Element>)
  {
    forall i :: 0 <= i < |doc| ==> i + doc[i].descendants < |doc|
  }

  /** What the pass may read of an element: everything but the inline
      `display` it writes. */
  function Layout(e: Element): Element
  {
    e.(display := "")
  }

  predicate SameLayout(a: seq<Element>, b: seq<Element>)
  {
    |a| == |b| && forall k :: 0 <= k < |a| ==> Layout(a[k]) == Layout(b[k])
  }

  predicate HasClass(e: Element, name: string)
  {
    name in Tokens(e.className)
  }

  /** The element is a `nav` or carries the class `nav`, `navbar` or `menu`. */
  predicate NavMarker(e: Element)
  {
    Lower(e.tagName) == "nav" || HasClass(e, "nav") || HasClass(e, "navbar") || HasClass(e, "menu")
  }

  /** `isNav`: the element itself, or one of its descendants (the selector
      `nav, .nav, .navbar, .menu`), is marked as navigation. */
  predicate IsNavLike(doc: seq<Element>, i: nat)
    requires WellFormed(doc) && i < |doc|
  {
    exists j :: i <= j <= i + doc[i].descendants && NavAt(doc, j)
  }

  predicate NavAt(doc: seq<Element>, j: int)
  {
    0 <= j < |doc| && NavMarker(doc[j])
  }

  /** A JavaScript number as far as the ratio test can tell them apart. */
  datatype JsNumber = NaN | PosInfinity | NegInfinity | Finite(v: real)

  /** `parseInt(style.width) / parseInt(style.height)`. */
  function Divide(a: Option<int>, b: Option<int>): JsNumber
  {
    match (a, b)
    case (Some(x), Some(y)) =>
      if y != 0 then Finite(x as real / y as real)
      else if x > 0 then PosInfinity
      else if x < 0 then NegInfinity
      else NaN
    case _ => NaN
  }

  /** `NaN` and zero are falsy; every other number is truthy. */
  predicate Truthy(n: JsNumber)
  {
    !(n.NaN? || (n.Finite? && n.v == 0.0))
  }

  predicate LessThan(n: JsNumber, c: real)
  {
    match n
    case NaN => false
    case PosInfinity => false
    case NegInfinity => true
    case Finite(v) => v < c
  }

  predicate GreaterThan(n: JsNumber, c: real)
  {
    match n
    case NaN => false
    case PosInfinity => true
    case NegInfinity => false
    case Finite(v) => v > c
  }

  /** `!ratio || (ratio < 5/1 && ratio > 1/5)`. */
  predicate RatioHides(ratio: JsNumber)
  {
    !Truthy(ratio) || (LessThan(ratio, 5.0) && GreaterThan(ratio, 1.0 / 5.0))
  }

  /** The same test on the parsed integers, cross-multiplied: an unparsable
      size or a zero width hides; a zero height with a non-zero width is an
      infinite ratio and does not; otherwise the ratio must lie strictly
      between 1/5 and 5. */
  predicate RatioHidesInt(w: Option<int>, h: Option<int>)
  {
    match (w, h)
    case (Some(x), Some(y)) =>
      x == 0 || (y > 0 && y < 5 * x && x < 5 * y) || (y < 0 && 5 * x < y && 5 * y < x)
    case _ => true
  }

  lemma QuotientBelow(x: int, y: int, c: int)
    requires y != 0
    ensures (x as real / y as real < c as real) <==> (if y > 0 then x < c * y else x > c * y)
  {
    var q := x as real / y as real;
    assert q * (y as real) == x as real;
    if y > 0 {
      if q < c as real {
        assert (c as real - q) * (y as real) > 0.0;
      } else {
        assert (q - c as real) * (y as real) >= 0.0;
      }
    } else {
      if q < c as real {
        assert (c as real - q) * (y as real) < 0.0;
      } else {
        assert (q - c as real) * (y as real) <= 0.0;
      }
    }
  }

  lemma QuotientAbove(x: int, y: int, c: int)
    requires y != 0 && c > 0
    ensures (x as real / y as real > 1.0 / c as real) <==> (if y > 0 then c * x > y else c * x < y)
  {
    var q := x as real / y as real;
    assert q * (y as real) == x as real;
    var inv := 1.0 / c as real;
    assert inv * (c as real) == 1.0;
    if y > 0 {
      if q > inv {
        assert (q - inv) * (y as real) * (c as real) > 0.0;
      } else {
        assert (inv - q) * (y as real) * (c as real) >= 0.0;
      }
    } else {
      if q > inv {
        assert (q - inv) * (y as real) * (c as real) < 0.0;
      } else {
        assert (inv - q) * (y as real) * (c as real) <= 0.0;
      }
    }
  }

  /** The floating-point ratio test and its integer form agree. */
  lemma RatioCrossMultiplied(w: Option<int>, h: Option<int>)
    ensures RatioHides(Divide(w, h)) <==> RatioHidesInt(w, h)
  {
    if w.Some? && h.Some? && h.value != 0 {
      var x, y := w.value, h.value;
      QuotientBelow(x, y, 5);
      QuotientAbove(x, y, 5);
      var q := x as real / y as real;
      assert q * (y as real) == x as real;
      assert q == 0.0 <==> x == 0;
    }
  }

  /** The decision `hidePopups` takes for element `i`. */
  predicate HideRule(doc: seq<Element>, i: nat)
    requires WellFormed(doc) && i < |doc|
  {
    var e := doc[i];
    var zIndex := ParseInt(e.zIndex, true);
    var isFixed := e.position == "fixed" || e.position == "absolute";
    isFixed && zIndex.Some? && zIndex.value > 0 && !IsNavLike(doc, i)
    && RatioHides(Divide(ParseInt(e.width, false), ParseInt(e.height, false)))
  }

  /** The whole rule with the ratio test in integer form. */
  lemma HideRuleCharacterized(doc: seq<Element>, i: nat)
    requires WellFormed(doc) && i < |doc|
    ensures HideRule(doc, i) <==>
      && (doc[i].position == "fixed" || doc[i].position == "absolute")
      && ParseInt(doc[i].zIndex, true).Some? && ParseInt(doc[i].zIndex, true).value > 0
      && !IsNavLike(doc, i)
      && RatioHidesInt(ParseInt(doc[i].width, false), ParseInt(doc[i].height, false))
  {
    RatioCrossMultiplied(ParseInt(doc[i].width, false), ParseInt(doc[i].height, false));
  }

  /** With computed styles held fixed, the rule reads only what the pass
      never writes. */
  lemma LayoutDecides(a: seq<Element>, b: seq<Element>, i: nat)
    requires SameLayout(a, b) && WellFormed(b) && i < |b|
    ensures WellFormed(a)
    ensures HideRule(a, i) == HideRule(b, i)
  {
    forall k | 0 <= k < |a|
      ensures a[k].descendants == b[k].descendants
    {
      assert Layout(a[k]).descendants == Layout(b[k]).descendants;
    }
    forall j | 0 <= j < |a|
      ensures NavAt(a, j) == NavAt(b, j)
    {
      assert Layout(a[j]) == Layout(b[j]);
    }
    assert Layout(a[i]) == Layout(b[i]);
  }

  /** An element as the pass leaves it. */
  function Mark(e: Element, hiding: bool): Element
  {
    if hiding then e.(display := "none") else e
  }

  /** The rule's decision for every element, on the page as it was at the
      start of the pass. */
  function Decisions(doc: seq<Element>): (r: seq<bool>)
    requires WellFormed(doc)
    ensures |r| == |doc| && forall i :: 0 <= i < |doc| ==> r[i] == HideRule(doc, i)
  {
    seq(|doc|, i requires 0 <= i < |doc| => HideRule(doc, i))
  }

  /** The page part-way through the pass: the first `n` elements decided
      (by `decided`) and marked, the rest as they were. */
  function PassUpTo(doc: seq<Element>, decided: seq<bool>, n: nat): (r: seq<Element>)
    requires |decided| == |doc| && n <= |doc|
    ensures SameLayout(r, doc)
    ensures forall k :: n <= k < |doc| ==> r[k] == doc[k]
  {
    if n == 0 then doc else PassUpTo(doc, decided, n - 1)[n - 1 := Mark(doc[n - 1], decided[n - 1])]
  }

  /** A decided element is marked by its decision. */
  lemma {:induction false} PassUpToAt(doc: seq<Element>, decided: seq<bool>, n: nat, k: nat)
    requires |decided| == |doc| && k < n <= |doc|
    ensures PassUpTo(doc, decided, n)[k] == Mark(doc[k], decided[k])
  {
    if k < n - 1 {
      PassUpToAt(doc, decided, n - 1, k);
    }
  }

  lemma PassUpToMarks(doc: seq<Element>, decided: seq<bool>, n: nat)
    requires |decided| == |doc| && n <= |doc|
    ensures forall k :: 0 <= k < n ==> PassUpTo(doc, decided, n)[k] == Mark(doc[k], decided[k])
  {
    forall k | 0 <= k < n {
      PassUpToAt(doc, decided, n, k);
    }
  }

  /** The document after one pass of `hidePopups`: exactly the elements the
      rule selects get `display: none`, nothing else changes. */
  function HidePass(doc: seq<Element>): (r: seq<Element>)
    requires WellFormed(doc)
    ensures |r| == |doc| && SameLayout(r, doc)
    ensures forall i :: 0 <= i < |doc| ==> (r[i].display == "none" <==> doc[i].display == "none" || HideRule(doc, i))
    ensures forall i :: 0 <= i < |doc| && r[i] != doc[i] ==> HideRule(doc, i)
  {
    PassUpToMarks(doc, Decisions(doc), |doc|);
    PassUpTo(doc, Decisions(doc), |doc|)
  }

  /** Part-way through the pass, the rule for the next element still sees
      the page as it was at the start. */
  lemma NextDecision(doc: seq<Element>, n: nat)
    requires WellFormed(doc) && n < |doc|
    ensures WellFormed(PassUpTo(doc, Decisions(doc), n))
    ensures HideRule(PassUpTo(doc, Decisions(doc), n), n) == Decisions(doc)[n]
  {
    LayoutDecides(PassUpTo(doc, Decisions(doc), n), doc, n);
  }

  /** `hidePopups`: one pass over all elements, in document order. */
  method HidePopups(elements: array<Element>)
    requires WellFormed(elements[..])
    modifies elements
    ensures elements[..] == HidePass(old(elements[..]))
  {
    ghost var doc := elements[..];
    ghost var decided := Decisions(doc);
    for i := 0 to elements.Length
      invariant elements[..] == PassUpTo(doc, decided, i)
    {
      NextDecision(doc, i);
      var hiding := HideRule(elements[..], i);
      if hiding {
        elements[i] := elements[i].(display := "none");
      }
    }
  }

  /** A second pass over the same page hides nothing more. */
  lemma {:induction false} HidePassIdempotent(doc: seq<Element>)
    requires WellFormed(doc)
    ensures WellFormed(HidePass(doc))
    ensures HidePass(HidePass(doc)) == HidePass(doc)
  {
    var once := HidePass(doc);
    forall i | 0 <= i < |doc|
      ensures WellFormed(once) && HidePass(once)[i] == once[i]
    {
      LayoutDecides(once, doc, i);
    }
  }

  /** An element whose `z-index` computes to `auto` is never hidden. */
  lemma AutoZIndexStays(doc: seq<Element>, i: nat)
    requires WellFormed(doc) && i < |doc| && doc[i].zIndex == "auto"
    ensures !HideRule(doc, i) && HidePass(doc)[i] == doc[i]
  {
    ParseAuto();
    assert !HideRule(doc, i);
  }

  lemma ParseAuto()
    ensures ParseInt("auto", true) == None
  {
    var auto := "auto";
    assert auto[0] == 'a' && !IsJsSpace(auto[0]);
    assert TrimStart(auto) == auto;
    assert !IsDigitIn(auto[0], false);
    assert DigitRun(auto, false) == 0;
    assert ParseUnsigned(auto, true) == None;
  }

  /** The JavaScript corner cases of the ratio test, on pixel sizes as the
      computed style writes them: a zero width hides, a positive width over a
      zero height (an infinite ratio) does not, and a 1:5 box is just
      outside the band. */
  lemma RatioCorners(w: nat)
    requires w > 0
    ensures RatioHides(Divide(ParseInt(IntToDecimal(0) + "px", false), ParseInt(IntToDecimal(0) + "px", false)))
    ensures !RatioHides(Divide(ParseInt(IntToDecimal(w) + "px", false), ParseInt(IntToDecimal(0) + "px", false)))
    ensures !RatioHides(Divide(ParseInt(IntToDecimal(w) + "px", false), ParseInt(IntToDecimal(5 * w) + "px", false)))
    ensures RatioHides(Divide(ParseInt(IntToDecimal(w) + "px", false), ParseInt(IntToDecimal(w) + "px", false)))
  {
    ParseRendered(0, "px", false);
    ParseRendered(w, "px", false);
    ParseRendered(5 * w, "px", false);
    RatioCrossMultiplied(Some(0), Some(0));
    RatioCrossMultiplied(Some(w), Some(0));
    RatioCrossMultiplied(Some(w), Some(5 * w));
    RatioCrossMultiplied(Some(w), Some(w));
  }

  /** The nine alternatives of the accept pattern. */
  const AcceptTexts: seq<string> := ["Accept", "Accept all cookies", "Accept all", "Accept All", "Allow", "Allow all", "Allow All", "Allow all cookies", "OK"]

  const CookieSettleMs: nat := 500

  /** `a[id*=cookie i], a[class*=cookie i], button[id*=cookie i], button[class*=cookie i]`. */
  predicate MatchesCookieSelector(e: Element)
  {
    var tag := Lower(e.tagName);
    (tag == "a" || tag == "button") && (Contains(Lower(e.id), "cookie") || Contains(Lower(e.className), "cookie"))
  }

  /** The trimmed text is, as a whole and ignoring case, one of the accept
      phrases (the pattern is anchored by `^` and `$`). */
  predicate IsAcceptText(text: string)
  {
    exists k :: 0 <= k < |AcceptTexts| && Lower(Trim(text)) == Lower(AcceptTexts[k])
  }

  predicate ShouldClick(e: Element)
  {
    MatchesCookieSelector(e) && IsAcceptText(e.textContent)
  }

  datatype CookieEvent = Click(index: nat) | Sleep(ms: nat)

  /** The positions of the elements of `s` that satisfy `p`, in order. */
  function Indices<T>(s: seq<T>, p: T -> bool): seq<nat>
  {
    if s == [] then []
    else Indices(s[..|s| - 1], p) + (if p(s[|s| - 1]) then [|s| - 1] else [])
  }

  /** Every position satisfying `p` is listed, once, in increasing order,
      and no other. */
  lemma IndicesExact<T>(s: seq<T>, p: T -> bool)
    ensures forall k :: 0 <= k < |Indices(s, p)| ==> Indices(s, p)[k] < |s| && p(s[Indices(s, p)[k]])
    ensures forall k, l :: 0 <= k < l < |Indices(s, p)| ==> Indices(s, p)[k] < Indices(s, p)[l]
    ensures forall i :: 0 <= i < |s| && p(s[i]) ==> i in Indices(s, p)
  {
    IndicesSound(s, p);
    IndicesIncreasing(s, p);
    IndicesComplete(s, p);
  }

  /** The last position of `s`, when it satisfies `p`. */
  function LastIndex<T>(s: seq<T>, p: T -> bool): seq<nat>
    requires s != []
  {
    if p(s[|s| - 1]) then [|s| - 1] else []
  }

  lemma {:induction false} IndicesSound<T>(s: seq<T>, p: T -> bool)
    ensures forall k :: 0 <= k < |Indices(s, p)| ==> Indices(s, p)[k] < |s| && p(s[Indices(s, p)[k]])
  {
    if s != [] {
      var init := s[..|s| - 1];
      IndicesSound(init, p);
      var all := Indices(s, p);
      assert all == Indices(init, p) + LastIndex(s, p);
      forall k | 0 <= k < |all|
        ensures all[k] < |s| && p(s[all[k]])
      {
        if k < |Indices(init, p)| {
          assert init[all[k]] == s[all[k]];
        }
      }
    }
  }

  lemma {:induction false} IndicesIncreasing<T>(s: seq<T>, p: T -> bool)
    ensures forall k, l :: 0 <= k < l < |Indices(s, p)| ==> Indices(s, p)[k] < Indices(s, p)[l]
  {
    if s != [] {
      var init := s[..|s| - 1];
      IndicesSound(init, p);
      IndicesIncreasing(init, p);
      var all := Indices(s, p);
      assert all == Indices(init, p) + LastIndex(s, p);
    }
  }

  lemma {:induction false} IndicesComplete<T>(s: seq<T>, p: T -> bool)
    ensures forall i :: 0 <= i < |s| && p(s[i]) ==> i in Indices(s, p)
  {
    if s != [] {
      var init := s[..|s| - 1];
      IndicesComplete(init, p);
      var all := Indices(s, p);
      assert all == Indices(init, p) + LastIndex(s, p);
      forall i | 0 <= i < |s| && p(s[i])
        ensures i in all
      {
        if i < |init| {
          assert init[i] == s[i];
          assert i in Indices(init, p);
        }
      }
    }
  }

  /** One more element: its position joins the list when it satisfies `p`. */
  lemma IndicesNext<T>(s: seq<T>, i: nat, p: T -> bool)
    requires i < |s|
    ensures Indices(s[..i + 1], p) == Indices(s[..i], p) + (if p(s[i]) then [i] else [])
  {
    assert s[..i + 1][..i] == s[..i];
  }

  function ClickEvents(indices: seq<nat>): (r: seq<CookieEvent>)
    ensures |r| == |indices| && forall k :: 0 <= k < |r| ==> r[k] == Click(indices[k])
  {
    seq(|indices|, k requires 0 <= k < |indices| => Click(indices[k]))
  }

  lemma ClickEventsAppend(a: seq<nat>, b: seq<nat>)
    ensures ClickEvents(a + b) == ClickEvents(a) + ClickEvents(b)
  {
  }

  /** `hideCookies`: it clicks exactly the matching elements, each once and
      in document order (see `IndicesExact`), then pauses once, however many
      elements matched. Each element is judged on the page as it was when
      the pass began; the clicks' own handlers are not modelled. */
  method HideCookies(elements: array<Element>) returns (events: seq<CookieEvent>)
    ensures events == ClickEvents(Indices(elements[..], ShouldClick)) + [Sleep(CookieSettleMs)]
  {
    events := [];
    ghost var doc := elements[..];
    for i := 0 to elements.Length
      invariant events == ClickEvents(Indices(doc[..i], ShouldClick))
    {
      var click := ShouldClick(elements[i]);
      IndicesNext(doc, i, ShouldClick);
      ClickEventsAppend(Indices(doc[..i], ShouldClick), if click then [i] else []);
      if click {
        assert ClickEvents([i]) == [Click(i)];
        events := events + [Click(i)];
      } else {
        AppendEmpty(events);
      }
    }
    WholePrefix(doc);
    events := events + [Sleep(CookieSettleMs)];
  }
}
