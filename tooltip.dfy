// The tooltip scheduler: the module-level `tooltipTimeout`,
// `hideTooltipTimeout` and `currentElement` variables, the tooltip's `show`
// class, and the listeners that update them (language.js:607-770, with the
// same code at index.js:9-171). Each of the two scripts creates its own
// tooltip element and its own copy of these variables, so the page runs two
// independent instances of this machine. One instance is modelled here.
//
// A pending timer is a slot that holds its delay. There is no clock: a
// timer firing is an event of its own, and a cleared timer never fires.
// Measurements the browser supplies (bounding rectangles, the viewport width,
// the scroll offset) arrive as inputs of the events that read them.
module Tooltip {
  import opened Wrappers
  import opened MethodDocs
  import opened Placement

  /** The delays the listeners pass to `setTimeout`, in milliseconds. */
  const ShowDelay: nat := 300
  const ElementLeaveDelay: nat := 150
  const TooltipLeaveDelay: nat := 100
  const CopyButtonDelay: nat := 0

  /** A `.function` or `.property` element and the key getMethodName gave it
      when the listeners were attached. */
  datatype Hoverable = Hoverable(id: nat, key: string)

  /** A pending show: it fires `showTooltip(target, target.key)`. */
  datatype ShowTimer = ShowTimer(delay: nat, target: Hoverable)

  /** What the tooltip displays: the title `key + "()"`, the description,
      the reference link and its caption. */
  datatype Content = Content(key: string, desc: string, href: string, caption: string)

  /** The measurements a placement reads. */
  datatype Layout = Layout(rect: Rect, width: real, height: real, innerWidth: real, scrollY: real)

  /** The language state showTooltip consults: the current language code,
      `window.currentMethodDocs` (None until the language is first applied)
      and whether the translation file has loaded. */
  datatype PageLanguage = PageLanguage(current: string, methodDocs: Option<DocTable>, translationsLoaded: bool)

  /** `window.currentMethodDocs || methodDocsEn`: the English table until
      a language has been applied, then the one it selected. */
  function ActiveDocs(page: PageLanguage): (t: DocTable)
    ensures page.methodDocs.None? ==> t == English
    ensures page.methodDocs.Some? ==> t == page.methodDocs.value
  {
    page.methodDocs.GetOr(English)
  }

  /** The machine's state. `read` is how the listeners read the tables, and
      `listening` holds the elements the listeners were attached to; both
      are fixed when the script starts. `content` and `position` are what the
      tooltip element last received, None before it first did. */
  datatype TooltipState = TooltipState(
    read: PropertyRead,
    listening: set<Hoverable>,
    showTimer: Option<ShowTimer>,
    hideTimer: Option<nat>,
    visible: bool,
    currentElement: Option<Hoverable>,
    content: Option<Content>,
    position: Option<Position>)

  /** Events on an element reach the listeners only if it has them. */
  predicate Listens(s: TooltipState, el: Hoverable) {
    el in s.listening
  }

  /** The forEach that attaches the listeners: of the page's `.function` and
      `.property` elements, those whose key reads as truthy in the table
      active at that moment. As written (PrototypeChain) that includes keys
      naming the members of Object.prototype. */
  function Attach(docs: DocTable, read: PropertyRead, elements: seq<Hoverable>): (attached: set<Hoverable>)
    ensures forall el :: el in attached <==>
              el in elements && (DocsEn(el.key).Some? || (read == PrototypeChain && el.key in InheritedNames))
  {
    set el | el in elements && ReadDoc(read, docs, el.key).Some?
  }

  /** The state after the scripts have run: listeners attached, nothing
      pending, nothing shown. */
  function Initial(docs: DocTable, read: PropertyRead, elements: seq<Hoverable>): (s: TooltipState)
    ensures s.read == read && s.listening == Attach(docs, read, elements)
    ensures s.showTimer.None? && s.hideTimer.None? && !s.visible && s.currentElement.None?
  {
    TooltipState(read, Attach(docs, read, elements), None, None, false, None, None, None)
  }

  /** hideTooltip(delay): any pending hide is replaced, so at most one is
      ever pending. */
  function HideTooltip(s: TooltipState, delay: nat): (t: TooltipState)
    ensures t.hideTimer == Some(delay)
    ensures t == s.(hideTimer := Some(delay))
  {
    s.(hideTimer := Some(delay))
  }

  /** mouseenter on an element. Over the copy button it does nothing.
      Otherwise it cancels any pending hide, makes the element current and
      leaves exactly one pending show, of 300 ms, for this element. */
  function OnElementEnter(s: TooltipState, el: Hoverable, overCopy: bool): (t: TooltipState)
    ensures !Listens(s, el) || overCopy ==> t == s
    ensures Listens(s, el) && !overCopy ==>
              && t.showTimer == Some(ShowTimer(ShowDelay, el))
              && t.hideTimer.None?
              && t.currentElement == Some(el)
              && t.(showTimer := s.showTimer, hideTimer := s.hideTimer, currentElement := s.currentElement) == s
  {
    if !Listens(s, el) || overCopy then s
    else s.(showTimer := Some(ShowTimer(ShowDelay, el)), hideTimer := None, currentElement := Some(el))
  }

  /** mouseleave from an element: cancel the pending show, arm a 150 ms hide. */
  function OnElementLeave(s: TooltipState, el: Hoverable): (t: TooltipState)
    ensures !Listens(s, el) ==> t == s
    ensures Listens(s, el) ==>
              t.showTimer.None? && t.hideTimer == Some(ElementLeaveDelay)
              && t.(showTimer := s.showTimer, hideTimer := s.hideTimer) == s
  {
    if !Listens(s, el) then s else HideTooltip(s.(showTimer := None), ElementLeaveDelay)
  }

  /** mousemove over an element. Over the copy button: cancel the show and
      hide at once (0 ms). Elsewhere: re-place a visible tooltip, and change
      nothing else. */
  function OnElementMove(s: TooltipState, el: Hoverable, overCopy: bool, layout: Layout): (t: TooltipState)
    ensures !Listens(s, el) ==> t == s
    ensures Listens(s, el) && overCopy ==>
              t.showTimer.None? && t.hideTimer == Some(CopyButtonDelay)
              && t.(showTimer := s.showTimer, hideTimer := s.hideTimer) == s
    ensures Listens(s, el) && !overCopy ==>
              && (s.visible ==> t.position == Some(Place(layout.rect, layout.width, layout.height, layout.innerWidth, layout.scrollY)))
              && (!s.visible ==> t == s)
              && t.(position := s.position) == s
  {
    if !Listens(s, el) then s
    else if overCopy then HideTooltip(s.(showTimer := None), CopyButtonDelay)
    else if s.visible then
      s.(position := Some(Place(layout.rect, layout.width, layout.height, layout.innerWidth, layout.scrollY)))
    else s
  }

  /** mouseenter on the tooltip: the pending hide is cancelled and nothing
      else changes. */
  function OnTooltipEnter(s: TooltipState): (t: TooltipState)
    ensures t.hideTimer.None?
    ensures t.(hideTimer := s.hideTimer) == s
  {
    s.(hideTimer := None)
  }

  /** mouseleave from the tooltip: a 100 ms hide. */
  function OnTooltipLeave(s: TooltipState): (t: TooltipState)
    ensures t.hideTimer == Some(TooltipLeaveDelay)
    ensures t.(hideTimer := s.hideTimer) == s
  {
    HideTooltip(s, TooltipLeaveDelay)
  }

  /** The show timer fires: showTooltip(el, key). Without a value for the
      key in the active table, or before the translations have loaded,
      nothing is shown. language.js returns early; index.js throws reading
      the absent translations, with the same effect. Otherwise the tooltip
      receives the entry and its placement and becomes visible. */
  function OnShowTimer(s: TooltipState, page: PageLanguage, layout: Layout): (t: TooltipState)
    ensures t.showTimer.None?
    ensures s.showTimer.None? ==> t == s
    ensures s.showTimer.Some? ==>
              var key := s.showTimer.value.target.key;
              var doc := ReadDoc(s.read, ActiveDocs(page), key);
              if doc.None? || !page.translationsLoaded then t == s.(showTimer := None)
              else
                && t.visible
                && t.content == Some(Content(key, doc.value.desc, doc.value.mdn, MdnLinkText(page.current)))
                && t.position == Some(Place(layout.rect, layout.width, layout.height, layout.innerWidth, layout.scrollY))
                && t.(showTimer := s.showTimer, visible := s.visible, content := s.content, position := s.position) == s
  {
    match s.showTimer
    case None => s
    case Some(timer) =>
      var doc := ReadDoc(s.read, ActiveDocs(page), timer.target.key);
      if doc.None? || !page.translationsLoaded then s.(showTimer := None)
      else
        s.(showTimer := None,
           content := Some(Content(timer.target.key, doc.value.desc, doc.value.mdn, MdnLinkText(page.current))),
           position := Some(Place(layout.rect, layout.width, layout.height, layout.innerWidth, layout.scrollY)),
           visible := true)
  }

  /** The hide timer fires: the tooltip loses `show` and no element is
      current. */
  function OnHideTimer(s: TooltipState): (t: TooltipState)
    ensures s.hideTimer.None? ==> t == s
    ensures s.hideTimer.Some? ==>
              !t.visible && t.currentElement.None? && t.hideTimer.None?
              && t.(hideTimer := s.hideTimer, visible := s.visible, currentElement := s.currentElement) == s
  {
    if s.hideTimer.None? then s else s.(hideTimer := None, visible := false, currentElement := None)
  }

  /** The events the machine reacts to. */
  datatype Event =
    | ElementEnter(el: Hoverable, overCopy: bool)
    | ElementLeave(el: Hoverable)
    | ElementMove(el: Hoverable, overCopy: bool, layout: Layout)
    | TooltipEnter
    | TooltipLeave
    | ShowTimerFires(page: PageLanguage, layout: Layout)
    | HideTimerFires

  /** One event. No event attaches or removes listeners, and none changes
      how the tables are read. */
  function Next(s: TooltipState, e: Event): (t: TooltipState)
    ensures t.read == s.read && t.listening == s.listening
  {
    match e
    case ElementEnter(el, overCopy) => OnElementEnter(s, el, overCopy)
    case ElementLeave(el) => OnElementLeave(s, el)
    case ElementMove(el, overCopy, layout) => OnElementMove(s, el, overCopy, layout)
    case TooltipEnter => OnTooltipEnter(s)
    case TooltipLeave => OnTooltipLeave(s)
    case ShowTimerFires(page, layout) => OnShowTimer(s, page, layout)
    case HideTimerFires => OnHideTimer(s)
  }

  /** The state after a sequence of events, processed one at a time. The
      listeners stay those attached at the start. */
  function Run(s: TooltipState, events: seq<Event>): (t: TooltipState)
    ensures t.read == s.read && t.listening == s.listening
    decreases |events|
  {
    if events == [] then s else Run(Next(s, events[0]), events[1..])
  }

  /** What holds in every reachable state: a pending show is the 300 ms
      timer of an element with listeners; a pending hide has one of the
      three delays the code uses; the current element has listeners; a
      visible tooltip has content and a position; and the content only ever
      names a key that reads as truthy. */
  predicate Inv(s: TooltipState) {
    && (s.showTimer.Some? ==> s.showTimer.value.delay == ShowDelay && Listens(s, s.showTimer.value.target))
    && (s.hideTimer.Some? ==> s.hideTimer.value in {CopyButtonDelay, TooltipLeaveDelay, ElementLeaveDelay})
    && (s.currentElement.Some? ==> Listens(s, s.currentElement.value))
    && (s.visible ==> s.content.Some? && s.position.Some?)
    && (s.content.Some? ==> ReadDoc(s.read, English, s.content.value.key).Some?)
  }

  lemma InitialInv(docs: DocTable, read: PropertyRead, elements: seq<Hoverable>)
    ensures Inv(Initial(docs, read, elements))
  {
  }

  /** Every event keeps the invariant. */
  lemma NextPreservesInv(s: TooltipState, e: Event)
    requires Inv(s)
    ensures Inv(Next(s, e))
  {
  }

  /** Every sequence of events keeps the invariant. */
  lemma {:induction false} RunPreservesInv(s: TooltipState, events: seq<Event>)
    requires Inv(s)
    ensures Inv(Run(s, events))
    decreases |events|
  {
    if events != [] {
      NextPreservesInv(s, events[0]);
      RunPreservesInv(Next(s, events[0]), events[1..]);
    }
  }

  /** Reading own entries only, however the mouse moves and the timers
      fire, the tooltip only ever displays a key that has an entry, in both
      tables. An element whose key has no entry never gets a tooltip. */
  lemma NeverShowsMissingKey(docs: DocTable, elements: seq<Hoverable>, events: seq<Event>, t: DocTable)
    ensures var s := Run(Initial(docs, OwnEntries, elements), events);
            s.content.Some? ==> Lookup(t, s.content.value.key).Some?
  {
    InitialInv(docs, OwnEntries, elements);
    RunPreservesInv(Initial(docs, OwnEntries, elements), events);
  }

  /** Hovering an element with an entry and waiting out the show delay shows
      the tooltip titled with the element's key, with the entry of the
      active table. */
  lemma HoverThenWaitShows(s: TooltipState, el: Hoverable, page: PageLanguage, layout: Layout)
    requires Listens(s, el) && page.translationsLoaded
    requires ReadDoc(s.read, ActiveDocs(page), el.key).Some?
    ensures var t := Run(s, [ElementEnter(el, false), ShowTimerFires(page, layout)]);
            var doc := ReadDoc(s.read, ActiveDocs(page), el.key).value;
            && t.visible
            && t.content == Some(Content(el.key, doc.desc, doc.mdn, MdnLinkText(page.current)))
            && t.showTimer.None? && t.hideTimer.None? && t.currentElement == Some(el)
  {
    var s1 := Next(s, ElementEnter(el, false));
    assert Run(s, [ElementEnter(el, false), ShowTimerFires(page, layout)])
        == Run(s1, [ShowTimerFires(page, layout)]);
    assert Run(s1, [ShowTimerFires(page, layout)]) == Run(Next(s1, ShowTimerFires(page, layout)), []);
  }

  /** The scheduler as written: an element reading `toString` gets
      listeners although neither table has an entry for it, and hovering it
      shows a tooltip whose description and link both read "undefined". */
  lemma AsWrittenShowsInheritedName(docs: DocTable, elements: seq<Hoverable>, el: Hoverable,
                                    page: PageLanguage, layout: Layout)
    requires el in elements && el.key == "toString" && page.translationsLoaded
    ensures Lookup(docs, el.key).None?
    ensures var s := Initial(docs, PrototypeChain, elements);
            var t := Run(s, [ElementEnter(el, false), ShowTimerFires(page, layout)]);
            && Listens(s, el)
            && t.visible
            && t.content == Some(Content("toString", "undefined", "undefined", MdnLinkText(page.current)))
  {
    InheritedNameFindsEntry();
    var s := Initial(docs, PrototypeChain, elements);
    assert ReadDoc(PrototypeChain, ActiveDocs(page), el.key) == Some(DocEntry("undefined", "undefined"));
    HoverThenWaitShows(s, el, page, layout);
  }

  /** Leaving an element and entering the tooltip before the hide delay
      keeps the tooltip: the hide never fires. */
  lemma ReenteringTooltipKeepsIt(s: TooltipState, el: Hoverable)
    requires Listens(s, el)
    ensures var t := Run(s, [ElementLeave(el), TooltipEnter, HideTimerFires]);
            t.visible == s.visible && t.currentElement == s.currentElement && t.hideTimer.None?
  {
    var s1 := Next(s, ElementLeave(el));
    var s2 := Next(s1, TooltipEnter);
    assert Run(s, [ElementLeave(el), TooltipEnter, HideTimerFires]) == Run(s1, [TooltipEnter, HideTimerFires]);
    assert Run(s1, [TooltipEnter, HideTimerFires]) == Run(s2, [HideTimerFires]);
    assert Run(s2, [HideTimerFires]) == Run(Next(s2, HideTimerFires), []);
  }

  /** Leaving an element and letting the hide delay elapse hides the
      tooltip, and a show that was still pending never happens. */
  lemma LeavingThenWaitingHides(s: TooltipState, el: Hoverable, page: PageLanguage, layout: Layout)
    requires Listens(s, el)
    ensures var t := Run(s, [ElementLeave(el), HideTimerFires, ShowTimerFires(page, layout)]);
            !t.visible && t.currentElement.None? && t.showTimer.None? && t.hideTimer.None?
  {
    var s1 := Next(s, ElementLeave(el));
    var s2 := Next(s1, HideTimerFires);
    assert Run(s, [ElementLeave(el), HideTimerFires, ShowTimerFires(page, layout)])
        == Run(s1, [HideTimerFires, ShowTimerFires(page, layout)]);
    assert Run(s1, [HideTimerFires, ShowTimerFires(page, layout)]) == Run(s2, [ShowTimerFires(page, layout)]);
    assert Run(s2, [ShowTimerFires(page, layout)]) == Run(Next(s2, ShowTimerFires(page, layout)), []);
  }

  /** Moving onto the copy button hides the tooltip at the next timer turn
      and cancels a pending show. */
  lemma CopyButtonHides(s: TooltipState, el: Hoverable, layout: Layout)
    requires Listens(s, el)
    ensures var t := Run(s, [ElementMove(el, true, layout), HideTimerFires]);
            !t.visible && t.showTimer.None? && t.currentElement.None?
  {
    var s1 := Next(s, ElementMove(el, true, layout));
    assert Run(s, [ElementMove(el, true, layout), HideTimerFires]) == Run(s1, [HideTimerFires]);
    assert Run(s1, [HideTimerFires]) == Run(Next(s1, HideTimerFires), []);
  }

  /** Entering a second element supersedes the first one's pending show. */
  lemma NewHoverSupersedes(s: TooltipState, a: Hoverable, b: Hoverable)
    requires Listens(s, a) && Listens(s, b)
    ensures Run(s, [ElementEnter(a, false), ElementEnter(b, false)]).showTimer == Some(ShowTimer(ShowDelay, b))
  {
    var s1 := Next(s, ElementEnter(a, false));
    assert Run(s, [ElementEnter(a, false), ElementEnter(b, false)]) == Run(s1, [ElementEnter(b, false)]);
    assert Run(s1, [ElementEnter(b, false)]) == Run(Next(s1, ElementEnter(b, false)), []);
  }

  /** One instance of the scheduler, with the module-level variables as
      fields. Each method is one listener or timer callback. */
  class Scheduler {
    const read: PropertyRead
    const listening: set<Hoverable>
    var showTimer: Option<ShowTimer>
    var hideTimer: Option<nat>
    var visible: bool
    var currentElement: Option<Hoverable>
    var content: Option<Content>
    var position: Option<Position>

    /** The fields as one value. */
    function Snapshot(): TooltipState
      reads this
    {
      TooltipState(read, listening, showTimer, hideTimer, visible, currentElement, content, position)
    }

    /** The scripts' start: attach the listeners to the elements whose key
        reads as truthy in `docs`. */
    constructor (docs: DocTable, docRead: PropertyRead, elements: seq<Hoverable>)
      ensures Snapshot() == Initial(docs, docRead, elements)
    {
      read := docRead;
      listening := Attach(docs, docRead, elements);
      showTimer, hideTimer, visible := None, None, false;
      currentElement, content, position := None, None, None;
    }

    /** hideTooltip(delay). */
    method HideAfter(delay: nat)
      modifies this
      ensures Snapshot() == HideTooltip(old(Snapshot()), delay)
    {
      if hideTimer.Some? {
        hideTimer := None;
      }
      hideTimer := Some(delay);
    }

    method MouseEnterElement(el: Hoverable, overCopy: bool)
      modifies this
      ensures Snapshot() == OnElementEnter(old(Snapshot()), el, overCopy)
    {
      if !Listens(Snapshot(), el) || overCopy {
        return;
      }
      if showTimer.Some? {
        showTimer := None;
      }
      if hideTimer.Some? {
        hideTimer := None;
      }
      currentElement := Some(el);
      showTimer := Some(ShowTimer(ShowDelay, el));
    }

    method MouseLeaveElement(el: Hoverable)
      modifies this
      ensures Snapshot() == OnElementLeave(old(Snapshot()), el)
    {
      if !Listens(Snapshot(), el) {
        return;
      }
      if showTimer.Some? {
        showTimer := None;
      }
      HideAfter(ElementLeaveDelay);
    }

    method MouseMoveElement(el: Hoverable, overCopy: bool, layout: Layout)
      modifies this
      ensures Snapshot() == OnElementMove(old(Snapshot()), el, overCopy, layout)
    {
      if !Listens(Snapshot(), el) {
        return;
      }
      if overCopy {
        if showTimer.Some? {
          showTimer := None;
        }
        HideAfter(CopyButtonDelay);
        return;
      }
      if visible {
        position := Some(Place(layout.rect, layout.width, layout.height, layout.innerWidth, layout.scrollY));
      }
    }

    method MouseEnterTooltip()
      modifies this
      ensures Snapshot() == OnTooltipEnter(old(Snapshot()))
    {
      if hideTimer.Some? {
        hideTimer := None;
      }
    }

    method MouseLeaveTooltip()
      modifies this
      ensures Snapshot() == OnTooltipLeave(old(Snapshot()))
    {
      HideAfter(TooltipLeaveDelay);
    }

    /** The pending show fires (showTooltip); nothing happens if none is
      pending. */
    method ShowTimerFired(page: PageLanguage, layout: Layout)
      modifies this
      ensures Snapshot() == OnShowTimer(old(Snapshot()), page, layout)
    {
      if showTimer.None? {
        return;
      }
      var target := showTimer.value.target;
      showTimer := None;
      var doc := ReadDoc(read, ActiveDocs(page), target.key);
      if doc.None? || !page.translationsLoaded {
        return;
      }
      content := Some(Content(target.key, doc.value.desc, doc.value.mdn, MdnLinkText(page.current)));
      position := Some(Place(layout.rect, layout.width, layout.height, layout.innerWidth, layout.scrollY));
      visible := true;
    }

    /** The pending hide fires; nothing happens if none is pending. */
    method HideTimerFired()
      modifies this
      ensures Snapshot() == OnHideTimer(old(Snapshot()))
    {
      if hideTimer.None? {
        return;
      }
      hideTimer := None;
      visible := false;
      currentElement := None;
    }
  }
}
