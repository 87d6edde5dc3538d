/**
 The page the login form lives on and the two stateful helpers the login
 handler drives (main.py:33-97): the loading bar, which sits in the page's
 overlay list, and the notification banner, which sits in the page's
 control list.
 */
module Widgets {
  import opened Wrappers

  /** A banner's foreground and background colour. */
  datatype Swatch = Swatch(main: string, background: string)

  const ErrorSwatch := Swatch("#EF4444", "#FEE2E2")
  const WarningSwatch := Swatch("#F59E0B", "#FEF3C7")
  const SuccessSwatch := Swatch("#10B981", "#D1FAE5")

  /** The banner palette of `Message.show`: `colors.get(color, colors["error"])`. */
  function Palette(key: string): (sw: Swatch) {
    var colors := map["error" := ErrorSwatch, "warning" := WarningSwatch, "success" := SuccessSwatch];
    if key in colors then colors[key] else colors["error"]
  }

  /** Each key picks its own palette, and every key other than "warning" and
      "success", "error" included, falls back to the error palette. */
  lemma {:induction false} PaletteFallback(key: string)
    ensures Palette(key) == WarningSwatch <==> key == "warning"
    ensures Palette(key) == SuccessSwatch <==> key == "success"
    ensures Palette(key) == ErrorSwatch <==> key != "warning" && key != "success"
  {
  }

  /** What can sit in the page's lists: a view built elsewhere, a notification
      banner, or the loading bar. */
  datatype Control =
    | View(name: string)
    | Notice(text: string, swatch: Swatch)
    | ProgressBar

  /** The view `main_page` builds. */
  const MainView := View("main_page")

  /** The Flet page: its control list and its overlay list. Re-rendering
      (`page.update()`) has no state here. */
  class Page {
    var controls: seq<Control>
    var overlay: seq<Control>

    constructor ()
      ensures controls == [] && overlay == []
    {
      controls, overlay := [], [];
    }
  }

  /** How many elements of `s` equal `x`. */
  function Count<T(==)>(s: seq<T>, x: T): (n: nat) {
    if s == [] then 0 else (if s[0] == x then 1 else 0) + Count(s[1..], x)
  }

  /** An element is in a list exactly when it occurs at least once. */
  lemma {:induction false} CountPositive<T>(s: seq<T>, x: T)
    ensures Count(s, x) > 0 <==> x in s
  {
    if s != [] {
      CountPositive(s[1..], x);
      assert x in s <==> s[0] == x || x in s[1..];
    }
  }

  /** Appending `x` adds one occurrence of `x` and none of anything else. */
  lemma {:induction false} CountAppend<T>(s: seq<T>, x: T, y: T)
    ensures Count(s + [x], y) == Count(s, y) + if x == y then 1 else 0
  {
    if s == [] {
      assert [x][1..] == [];
    } else {
      assert (s + [x])[1..] == s[1..] + [x];
      CountAppend(s[1..], x, y);
    }
  }

  /** Python's `list.remove(x)`: drops the first element equal to `x`. (Python
      raises `ValueError` when there is none; every caller below proves there
      is one.) */
  function RemoveFirst<T(==)>(s: seq<T>, x: T): (r: seq<T>)
    ensures x in s ==> |r| == |s| - 1
    ensures x !in s ==> r == s
  {
    if s == [] then []
    else if s[0] == x then s[1..] else [s[0]] + RemoveFirst(s[1..], x)
  }

  /** `list.remove(x)` takes away one occurrence of `x`, when there is one,
      and keeps every other element as often as it was there. */
  lemma {:induction false} RemoveFirstCount<T>(s: seq<T>, x: T, y: T)
    ensures Count(RemoveFirst(s, x), y) == Count(s, y) - if x == y && x in s then 1 else 0
  {
    if s != [] && s[0] != x {
      RemoveFirstCount(s[1..], x, y);
      assert x in s <==> x in s[1..];
      var r := [s[0]] + RemoveFirst(s[1..], x);
      assert r[1..] == RemoveFirst(s[1..], x);
    } else if s != [] {
      CountPositive(s, x);
    }
  }

  /** Removing an element that was appended to a list that did not hold it
      gives the list back. */
  lemma {:induction false} RemoveFirstOfAppended<T>(s: seq<T>, x: T)
    requires x !in s
    ensures RemoveFirst(s + [x], x) == s
  {
    if s != [] {
      assert (s + [x])[1..] == s[1..] + [x];
      RemoveFirstOfAppended(s[1..], x);
    }
  }

  /** The banners in a control list, in order. */
  function Notices(cs: seq<Control>): (ns: seq<Control>)
  {
    if cs == [] then []
    else if cs[0].Notice? then [cs[0]] + Notices(cs[1..])
    else Notices(cs[1..])
  }

  /** Every banner the page lists is one of its controls. */
  lemma {:induction false} NoticesIn(cs: seq<Control>, n: Control)
    requires n in Notices(cs)
    ensures n in cs
  {
    if cs[0] != n {
      NoticesIn(cs[1..], n);
    }
  }

  lemma {:induction false} NoticesAppend(a: seq<Control>, b: seq<Control>)
    ensures Notices(a + b) == Notices(a) + Notices(b)
  {
    if a != [] {
      var ab := a + b;
      assert ab[0] == a[0];
      assert ab[1..] == a[1..] + b;
      NoticesAppend(a[1..], b);
      if a[0].Notice? {
        assert Notices(ab) == [a[0]] + Notices(a[1..] + b);
        assert Notices(a) == [a[0]] + Notices(a[1..]);
      }
    } else {
      assert a + b == b;
    }
  }

  /** Removing a banner from the page removes it from the banners. */
  lemma {:induction false} NoticesRemove(cs: seq<Control>, n: Control)
    requires n.Notice?
    ensures Notices(RemoveFirst(cs, n)) == RemoveFirst(Notices(cs), n)
  {
    if cs != [] && cs[0] != n {
      NoticesRemove(cs[1..], n);
      assert RemoveFirst(cs, n) == [cs[0]] + RemoveFirst(cs[1..], n);
      assert Notices([cs[0]] + RemoveFirst(cs[1..], n)) ==
        (if cs[0].Notice? then [cs[0]] else []) + Notices(RemoveFirst(cs[1..], n));
    }
  }

  /** The control list with the previous banner, if any, taken out. */
  function WithoutCurrent(cs: seq<Control>, current: Option<Control>): (rest: seq<Control>) {
    if current.Some? then RemoveFirst(cs, current.value) else cs
  }

  /** The banner invariant: the only banner on the page is the current one. */
  predicate OnlyCurrent(cs: seq<Control>, current: Option<Control>) {
    && (current.Some? ==> current.value.Notice?)
    && Notices(cs) == (if current.Some? then [current.value] else [])
  }

  /** Replacing the banner keeps exactly one banner on the page, the new one. */
  lemma {:induction false} ReplaceKeepsOneNotice(cs: seq<Control>, current: Option<Control>, n: Control)
    requires OnlyCurrent(cs, current) && n.Notice?
    ensures OnlyCurrent(WithoutCurrent(cs, current) + [n], Some(n))
  {
    var rest := WithoutCurrent(cs, current);
    if current.Some? {
      NoticesRemove(cs, current.value);
    }
    assert Notices(rest) == [];
    NoticesAppend(rest, [n]);
    assert Notices([n]) == [n];
  }

  /** `Message` (main.py:59-97): the page and the banner it last added. */
  class Message {
    const page: Page
    var current: Option<Control>

    ghost predicate Valid()
      reads this`current, page`controls
    {
      OnlyCurrent(page.controls, current)
    }

    constructor (page: Page)
      requires Notices(page.controls) == []
      ensures this.page == page && current == None && Valid()
    {
      this.page := page;
      current := None;
    }

    /** `Message.show(text, color)`: takes the previous banner off the page,
        then adds a new one coloured from the palette for `colorKey`. */
    method Show(text: string, colorKey: string)
      requires Valid()
      modifies this, page`controls
      ensures Valid()
      ensures current == Some(Notice(text, Palette(colorKey)))
      ensures page.controls == WithoutCurrent(old(page.controls), old(current)) + [Notice(text, Palette(colorKey))]
    {
      var swatch := Palette(colorKey);
      ReplaceKeepsOneNotice(page.controls, current, Notice(text, swatch));
      if current.Some? {
        // the fade-out (opacity 0, a 0.2 s pause) leaves no state behind;
        // the banner is on the page, so list.remove does not raise
        assert current.value in page.controls by {
          NoticesIn(page.controls, current.value);
        }
        page.controls := RemoveFirst(page.controls, current.value);
      }
      var box := Notice(text, swatch);
      current := Some(box);
      page.controls := page.controls + [box];
    }
  }

  /** The loading bar's state: its `visible` flag and the page's overlay list. */
  datatype OverlayState = OverlayState(visible: bool, overlay: seq<Control>)

  /** The bar is in the overlay exactly once when `visible`, and not at all otherwise. */
  predicate Consistent(s: OverlayState) {
    Count(s.overlay, ProgressBar) == if s.visible then 1 else 0
  }

  /** `LoadingOverlay.show`: appends the bar unless it is already visible. */
  function ShowStep(s: OverlayState): (t: OverlayState) {
    if !s.visible then OverlayState(true, s.overlay + [ProgressBar]) else s
  }

  /** `LoadingOverlay.hide`: removes the bar only when it is visible. */
  function HideStep(s: OverlayState): (t: OverlayState) {
    if s.visible then OverlayState(false, RemoveFirst(s.overlay, ProgressBar)) else s
  }

  lemma {:induction false} ShowStepConsistent(s: OverlayState)
    requires Consistent(s)
    ensures Consistent(ShowStep(s)) && ShowStep(s).visible
  {
    if !s.visible {
      CountAppend(s.overlay, ProgressBar, ProgressBar);
    }
  }

  lemma {:induction false} HideStepConsistent(s: OverlayState)
    requires Consistent(s)
    ensures Consistent(HideStep(s)) && !HideStep(s).visible
  {
    if s.visible {
      CountPositive(s.overlay, ProgressBar);
      RemoveFirstCount(s.overlay, ProgressBar, ProgressBar);
    }
  }

  /** Showing twice is showing once; hiding twice is hiding once. */
  lemma {:induction false} StepsIdempotent(s: OverlayState)
    ensures ShowStep(ShowStep(s)) == ShowStep(s)
    ensures HideStep(HideStep(s)) == HideStep(s)
  {
  }

  /** Hiding undoes showing: the overlay list comes back exactly as it was. */
  lemma {:induction false} HideUndoesShow(s: OverlayState)
    requires Consistent(s) && !s.visible
    ensures HideStep(ShowStep(s)) == s
  {
    CountPositive(s.overlay, ProgressBar);
    RemoveFirstOfAppended(s.overlay, ProgressBar);
  }

  /** `LoadingOverlay` (main.py:33-57). */
  class LoadingOverlay {
    const page: Page
    var visible: bool

    function State(): (s: OverlayState)
      reads this`visible, page`overlay
    {
      OverlayState(visible, page.overlay)
    }

    ghost predicate Valid()
      reads this`visible, page`overlay
    {
      Consistent(State())
    }

    constructor (page: Page)
      requires ProgressBar !in page.overlay
      ensures this.page == page && !visible && Valid()
    {
      this.page := page;
      visible := false;
      CountPositive(page.overlay, ProgressBar);
    }

    method Show()
      requires Valid()
      modifies this, page`overlay
      ensures Valid() && visible
      ensures State() == ShowStep(old(State()))
    {
      ShowStepConsistent(State());
      if !visible {
        page.overlay := page.overlay + [ProgressBar];
        visible := true;
      }
    }

    method Hide()
      requires Valid()
      modifies this, page`overlay
      ensures Valid() && !visible
      ensures State() == HideStep(old(State()))
    {
      HideStepConsistent(State());
      if visible {
        // the bar is in the overlay, so list.remove does not raise
        assert ProgressBar in page.overlay by {
          CountPositive(page.overlay, ProgressBar);
        }
        page.overlay := RemoveFirst(page.overlay, ProgressBar);
        visible := false;
      }
    }
  }
}
