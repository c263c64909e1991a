# JavaScript reference page: a verified model of its page logic

The page is a bilingual (English/Turkish) reference of JavaScript's
built-in methods. Two scripts drive it. `language.js` holds the two
documentation tables, the language selection and the translation lookup.
`index.js` holds the theme and the mobile menu. Both files carry their own
copy of the method tooltip (name resolution, placement, show/hide timers),
of the scroll spy and of the back-to-top button. Each of these rules is
modelled once here; the table cites one copy and names the other.

Modules, one per concern:

- `JsStrings` (js_strings.dfy): `trim`, the white space of `\s`, and `split('.')`.
- `MethodNames` (method_names.dfy): getMethodName, which turns a hovered element into a table key.
- `Translations` (translations.dfy): getNestedValue over a JSON-like value.
- `MethodDocs` (docs_tables.dfy): the two literal tables and getMethodDocs.
- `Placement` (placement.dfy): the tooltip position arithmetic.
- `Tooltip` (tooltip.dfy): the scheduler. It has two parts:
  - a pure state machine (`Next`/`Run`) with its invariant and its event-sequence lemmas;
  - the `Scheduler` class, whose methods are the listeners and timer callbacks, each proved equal to its transition.
- `ScrollSpy` (scroll_spy.dfy): updateActiveNav as an in-place loop over an array of active flags, and the back-to-top button.
- `Theme` (theme.dfy): the theme choice, the toggle and setTheme.
- `MobileMenu` (mobile_menu.dfy): the mobile menu's open/close state and link flags.

What the browser supplies is an input, not a modelled value:

- element text and the text before it inside the `<pre>`;
- bounding rectangles, `innerWidth` and `scrollY`;
- section offsets;
- the stored theme and the colour-scheme media query;
- whether the translations have loaded.

A timer is a slot that holds its delay, and its firing is an event of its
own.

Horizontally, the code moves a centred tooltip in two cases only. A negative
start is raised to 8. A tooltip that would end past `innerWidth` is moved so
that it ends 8 pixels short of it. It does not keep an 8-pixel margin
otherwise: a start in `[0, 8)` stays where it is, and so does an end in
`(innerWidth - 8, innerWidth]` (`Placement.SmallLeftNotRaised`,
`Placement.RightMarginNotKept`). What the code does guarantee is
`Placement.LeftInsideViewport`.

## Model

| member | source | states |
|---|---|---|
| JsStrings.TrimEnd | language.js:626 | the prefix left once trailing white space (the `\s*$` of the pattern) is dropped: a prefix of the input, only white space after it, and it does not end in white space |
| JsStrings.Trim | language.js:613 | `textContent.trim()`: no longer than the input, and neither starts nor ends with white space (same code at index.js:15) |
| JsStrings.TrimSound | language.js:613 | the trimmed text is a slice of the input with only white space before and after it |
| JsStrings.TrimPadded | language.js:613 | trim is complete: any white-space padding around a text without white space at its ends is removed exactly |
| JsStrings.TrimIdempotent | language.js:613 | trimming twice is trimming once |
| JsStrings.TrimEndPadded | language.js:626 | trailing white space after a text that does not end in white space is exactly what TrimEnd removes |
| JsStrings.TrailingStartStops | language.js:626 | the backward white-space scan stops right after the last non-white-space character |
| JsStrings.LeadingEndStops | language.js:613 | the forward white-space scan stops at the first non-white-space character |
| JsStrings.Split | language.js:544 | `path.split('.')`: at least one segment, no segment contains a dot, and joining the segments with "." gives the path back |
| JsStrings.SplitJoin | language.js:544 | split inverts join on dot-free segment lists, so split and join are mutually inverse |
| JsStrings.SplitAtDot | language.js:544 | splitting `p + "." + q` is splitting p, then q |
| JsStrings.SplitDotFree | language.js:544 | a dot-free string is one segment |
| MethodNames.NamespaceBefore | language.js:626 | the capture of `/(Object\|Math\|Number\|Array)\.\s*$/`: when it matches, the namespace is one of the four and stands right before the final dot of the text without its trailing white space (same code at index.js:28) |
| MethodNames.NamespaceSuffix | language.js:626 | the alternation `(Object\|Math\|Number\|Array)` at the end of the text before the dot: a captured name is one of the four and ends that text |
| MethodNames.NamespaceSuffixOf | language.js:626 | a text ending in one of the four names captures exactly that name, since the four end in different letters |
| MethodNames.EndsWithNewKeyword | language.js:633 | `/new\s+$/`: a match means the text ends in white space, and what is left once the trailing white space is dropped ends in "new" |
| MethodNames.NewKeywordComplete | language.js:633 | any text ending in "new" and then white space matches, also when "new" ends a longer word |
| MethodNames.NamespaceBeforeComplete | language.js:626-629 | any text ending in one of the four names, a dot and white space matches with that name, even inside a longer word |
| MethodNames.NamespaceBeforeSound | language.js:626-629 | a match means the text really holds the name, then a dot, then only white space |
| MethodNames.Resolve | language.js:617-639 | the key: the text itself without an enclosing `<pre>` or without a namespace match; "Namespace.text" with one; the `new Map`/`new Set` branch leaves the text unchanged; every key is the text or one of the four namespaces, ".", then the text (same code at index.js:19-41) |
| MethodNames.MethodName | language.js:612-640 | getMethodName: with no enclosing `<pre>` the key is exactly the trimmed element text (same code at index.js:14-42) |
| MethodNames.ResolveNamespaced | language.js:626-629 | the text after "Object.", "Math.", "Number." or "Array." plus white space is keyed "Namespace.text" |
| MethodNames.ObjectKeysExample | language.js:626-629 | "keys" after "Object." is keyed "Object.keys" |
| MethodNames.NoWordBoundaryExample | language.js:626 | "keys" after "MyObject." is also keyed "Object.keys": the pattern has no word boundary |
| MethodNames.NewMapExample | language.js:632-637 | "Map" after "new " keeps its bare name |
| Translations.Member | language.js:544 | one `current?.[key]` step: defined exactly when the current value is an object holding the key, and then it is that member |
| Translations.Walk | language.js:544 | the `reduce` over the segments: a defined result needs a defined start, and a single segment is one member step; WalkAppend and WalkFromNone give the rest |
| Translations.GetNestedValue | language.js:543-545 | getNestedValue: a defined result needs a defined object; GetNestedDotFree, GetNestedCompose and GetNestedThreeSteps state what the path reads |
| Translations.WalkFromNone | language.js:544 | once a step is undefined every later step is |
| Translations.WalkAppend | language.js:544 | reducing over a concatenation reduces over the first part, then the second |
| Translations.WalkStopsAtMissing | language.js:544 | the lookup is undefined as soon as any prefix of the steps is |
| Translations.GetNestedDotFree | language.js:543-545 | a dot-free path is a single member lookup |
| Translations.GetNestedCompose | language.js:543-545 | looking up `p.q` is looking up q in the value of p |
| Translations.GetNestedThreeSteps | language.js:543-545 | `getNestedValue(obj, "a.b.c")` reads a, then b, then c |
| Translations.GetNestedOfUndefined | language.js:543-545 | an undefined object gives undefined for every path |
| MethodDocs.ArraySectionsAgree | language.js:27-110 | the Array entries of both tables (Turkish at language.js:281-364) have the same keys and the same links |
| MethodDocs.StringSectionsAgree | language.js:112-159 | the same for the String entries (Turkish at language.js:365-412) |
| MethodDocs.ObjectSectionsAgree | language.js:161-184 | the same for the Object entries (Turkish at language.js:413-436) |
| MethodDocs.MapSectionsAgree | language.js:186-205 | the same for the Map entries (Turkish at language.js:437-456) |
| MethodDocs.SetSectionsAgree | language.js:207-214 | the same for the Set entries (Turkish at language.js:457-464) |
| MethodDocs.MathSectionsAgree | language.js:216-255 | the same for the Math entries (Turkish at language.js:465-504) |
| MethodDocs.NumberSectionsAgree | language.js:257-276 | the same for the Number entries (Turkish at language.js:505-524) |
| MethodDocs.DocsEn | language.js:25-277 | the own entries of methodDocsEn, the seven sections tried in source order; what they hold is stated by the section lemmas above and TablesShareKeysAndLinks |
| MethodDocs.DocsTr | language.js:280-525 | the own entries of methodDocsTr, in the same order |
| MethodDocs.TablesShareKeysAndLinks | language.js:25-525 | methodDocsEn and methodDocsTr have the same key set and, key by key, the same `mdn` link |
| MethodDocs.GetMethodDocs | language.js:528-530 | the Turkish table exactly when the code is "tr", the English table for every other string |
| MethodDocs.Lookup | language.js:646 | the own-entry read on the selected table: an entry exactly when the English table has one, and with the same link |
| MethodDocs.LookupIgnoresLanguage | language.js:528-530 | whichever table the language selects, a key has an entry exactly when it has one in the English table |
| MethodDocs.MdnLinkText | language.js:650 | the link caption: the Turkish caption for "tr", "View on MDN" otherwise (same code at index.js:51) |
| MethodDocs.PropertyReadAsWritten | language.js:707 | `methodDocs[key]` as evaluated: an own entry when there is one; otherwise a value exactly for the names inherited from Object.prototype (same read at language.js:646, index.js:47, index.js:108) |
| MethodDocs.InheritedNameFindsEntry | language.js:707 | "toString" has no entry in either table, yet the read as written yields one whose fields render as "undefined" |
| MethodDocs.ReadDoc | language.js:646 | `methodDocs[key]` under either reading: on either table a value exactly when the English table has an own entry or, through the prototype chain, the key names an inherited member; an own entry keeps its link (same read at language.js:707, index.js:47, index.js:108) |
| Placement.ViewportTop | language.js:661-667 | 4 pixels above the element; replaced by 4 below it exactly when that start is negative (same code at index.js:62-68) |
| Placement.ClampedLeft | language.js:662-672 | centred; exactly 8 when negative; otherwise ending 8 short of the viewport when it would overflow; otherwise unchanged (same code at index.js:63-73) |
| Placement.Place | language.js:674-675 | the stored top is the viewport top plus scrollY; the stored left is the clamped left (same code at language.js:765-766, index.js:75-76) |
| Placement.TopInsideViewport | language.js:665-667 | the tooltip never starts above the viewport unless the element ends more than 4 pixels above it |
| Placement.LeftInsideViewport | language.js:668-672 | a tooltip at least 8 pixels narrower than the viewport lies wholly inside it horizontally |
| Placement.SmallLeftNotRaised | language.js:668-669 | a centred start of 4 stays 4: only a negative start is raised to 8 |
| Placement.RightMarginNotKept | language.js:670-672 | a tooltip ending 4 pixels short of the right edge is left there |
| Tooltip.Attach | language.js:703-707 | listeners go to exactly those elements whose key has an own entry or, read as written, names an Object.prototype member; which table is active does not matter (same code at index.js:104-108) |
| Tooltip.Initial | language.js:607-609 | at start the listeners are the attached set, no timer is pending, nothing is shown and no element is current (same code at index.js:9-11) |
| Tooltip.ActiveDocs | language.js:644 | `window.currentMethodDocs \|\| methodDocsEn`: English until a language has been applied, then the table it selected (same at language.js:705, index.js:46, index.js:106) |
| Tooltip.HideTooltip | language.js:680-688 | hideTooltip(d) replaces any pending hide with one of delay d, so at most one is pending (same code at index.js:81-89) |
| Tooltip.OnElementEnter | language.js:708-727 | over the copy button nothing changes; otherwise the pending hide is cancelled, the element becomes current and exactly one show of 300 ms is pending, for this element (same code at index.js:109-128) |
| Tooltip.OnElementLeave | language.js:729-736 | the pending show is cancelled and a hide of 150 ms is armed; nothing else changes (same code at index.js:130-137) |
| Tooltip.OnElementMove | language.js:738-768 | over the copy button: show cancelled, hide of 0 ms, nothing else changes; elsewhere only the position changes, and only while visible (same code at index.js:139-169) |
| Tooltip.OnTooltipEnter | language.js:691-696 | the pending hide is cancelled and nothing else changes (same code at index.js:92-97) |
| Tooltip.OnTooltipLeave | language.js:698-700 | a hide of 100 ms, nothing else changes (same code at index.js:99-101) |
| Tooltip.OnShowTimer | language.js:643-677 | showTooltip: when the key reads as undefined in the active table, or before the translations load, only the show timer is cleared; otherwise the tooltip shows the key, the value's description and link, the caption for the language and the computed position, and nothing else changes (same code at index.js:45-78) |
| Tooltip.OnHideTimer | language.js:684-687 | the timer removes `show` and clears the current element; nothing else changes (same code at index.js:85-88) |
| Tooltip.Next | language.js:680-770 | one event, dispatched to its listener or callback; no event changes the listeners or how the tables are read |
| Tooltip.Run | language.js:680-770 | events processed one at a time; the listeners stay those attached at the start |
| Tooltip.InitialInv | language.js:607-609 | the start state satisfies the scheduler invariant |
| Tooltip.NextPreservesInv | language.js:680-770 | every event keeps the invariant: a pending show is the 300 ms timer of an element with listeners; a pending hide has delay 0, 100 or 150; the current element has listeners; a visible tooltip has content and a position; the content names a key that reads as a value |
| Tooltip.RunPreservesInv | language.js:680-770 | every sequence of events keeps the invariant |
| Tooltip.NeverShowsMissingKey | language.js:643-648 | reading own entries only, after any events from the start the tooltip only ever shows a key that has an entry in both tables |
| Tooltip.AsWrittenShowsInheritedName | language.js:703-726 | read as written, an element reading `toString` gets listeners though neither table has an entry for it, and hovering it then waiting shows "toString" with description and link both "undefined" |
| Tooltip.HoverThenWaitShows | language.js:708-727 | entering an element with an entry, then the show timer firing, shows that element's title, description, link and caption, with no timer left pending |
| Tooltip.ReenteringTooltipKeepsIt | language.js:691-696 | leaving the element and entering the tooltip before the hide fires keeps the tooltip as it was |
| Tooltip.LeavingThenWaitingHides | language.js:729-736 | leaving the element and waiting out the hide hides the tooltip, and the cancelled show never happens |
| Tooltip.CopyButtonHides | language.js:740-746 | moving onto the copy button hides the tooltip at the next timer turn and cancels a pending show |
| Tooltip.NewHoverSupersedes | language.js:713-726 | entering a second element replaces the first one's pending show |
| Tooltip.Scheduler.constructor | language.js:703-707 | the scheduler starts in the start state for the given read, with listeners on exactly the attached elements |
| Tooltip.Scheduler.HideAfter | language.js:680-688 | the fields after hideTooltip equal HideTooltip of the fields before |
| Tooltip.Scheduler.MouseEnterElement | language.js:708-727 | the fields after the listener equal OnElementEnter of the fields before |
| Tooltip.Scheduler.MouseLeaveElement | language.js:729-736 | the fields after the listener equal OnElementLeave of the fields before |
| Tooltip.Scheduler.MouseMoveElement | language.js:738-768 | the fields after the listener equal OnElementMove of the fields before |
| Tooltip.Scheduler.MouseEnterTooltip | language.js:691-696 | the fields after the listener equal OnTooltipEnter of the fields before |
| Tooltip.Scheduler.MouseLeaveTooltip | language.js:698-700 | the fields after the listener equal OnTooltipLeave of the fields before |
| Tooltip.Scheduler.ShowTimerFired | language.js:724-726 | the fields after the show callback equal OnShowTimer of the fields before |
| Tooltip.Scheduler.HideTimerFired | language.js:684-687 | the fields after the hide callback equal OnHideTimer of the fields before |
| ScrollSpy.Highlight | language.js:806-815 | a covering section leaves a link active exactly when its href is "#" plus the section id (same code at index.js:206-215) |
| ScrollSpy.LastCovering | language.js:800-817 | the index of the last section whose [top, top + height) holds the probe, and no later one does; None exactly when none does |
| ScrollSpy.Scan | language.js:803-816 | the forEach run section by section: when no section covers the probe the flags are untouched, and the number of flags is kept |
| ScrollSpy.ActiveAfterScroll | language.js:800-817 | the flags updateActiveNav leaves: untouched when no section covers scrollY + 100, otherwise the highlighting of the covering section after which none covers |
| ScrollSpy.ScanIsLastCovering | language.js:803-816 | running the forEach section by section leaves the highlighting of the last covering section, or the flags untouched when none covers |
| ScrollSpy.UpdateActiveNav | language.js:800-817 | the in-place loop leaves the flags ActiveAfterScroll gives for scrollY + 100 (same code at index.js:200-217) |
| ScrollSpy.ActiveAfterScrollIdempotent | language.js:819-820 | a second run at the same scroll offset changes nothing (both scripts run the spy, and once at load) |
| ScrollSpy.ActiveAfterScrollForgets | language.js:806-815 | once a section covers the probe, the result does not depend on the flags before |
| ScrollSpy.AtMostOneActive | language.js:806-815 | with distinct hrefs, when some section covers the probe at most one link is active |
| ScrollSpy.DisjointSectionsHighlightTheCoveringOne | language.js:800-817 | for sections that do not overlap, the highlighted section is the one the probe is in |
| ScrollSpy.BackToTop.constructor | language.js:882 | the button as the page markup leaves it, without `show`; the load-time toggleBackToTop call (language.js:900, index.js:368) is a first OnScroll, not part of the constructor |
| ScrollSpy.BackToTop.OnScroll | language.js:884-890 | the button shows exactly when scrollY exceeds 300 (same code at index.js:352-358) |
| Theme.SystemPreference | index.js:371-376 | "light" exactly when the light colour-scheme query matches, otherwise "dark" |
| Theme.InitialTheme | index.js:413-417 | a non-empty stored value is used as it is; a missing or empty one gives the system preference |
| Theme.ToggledTheme | index.js:419-423 | "light" exactly when the attribute is missing, empty or "dark"; "dark" for every other value |
| Theme.ThemeIcon | index.js:391 | the moon exactly when the theme is "light", the sun otherwise |
| Theme.ToggleLabel | index.js:402 | "Switch to dark mode" exactly when the theme is "light", "Switch to light mode" otherwise |
| Theme.ToggleAlternates | index.js:419-423 | on "light" and "dark" the toggle switches, and toggling twice returns the theme |
| Theme.OtherStoredThemeToggles | index.js:413-423 | a stored value other than the two is kept at load, and the first toggle turns it into "dark" |
| Theme.ThemeControl.constructor | index.js:426 | the load-time initTheme: the attribute holds InitialTheme of the stored value, and storage, icon and label agree with it |
| Theme.ThemeControl.SetTheme | index.js:382-411 | attribute and storage hold the theme; icon and label are the theme's |
| Theme.ThemeControl.InitTheme | index.js:413-417 | the attribute becomes InitialTheme of what storage held, and everything agrees with it |
| Theme.ThemeControl.ToggleTheme | index.js:419-423 | the attribute becomes ToggledTheme of the attribute before; the moon shows exactly when it is now "light" |
| MobileMenu.Menu.constructor | index.js:257-259 | the menu as the page markup leaves it: the button's and the overlay's attributes, the body overflow, and the links' hrefs and active flags exactly as given; no listener has run yet |
| MobileMenu.Menu.Open | index.js:267-271 | overlay aria-hidden "false", button aria-expanded "true", body overflow hidden |
| MobileMenu.Menu.Close | index.js:273-277 | overlay aria-hidden "true", button aria-expanded "false", body overflow cleared |
| MobileMenu.Menu.ButtonClick | index.js:283-291 | the open state as the button reports it flips, and the attributes agree afterwards |
| MobileMenu.Menu.OverlayClick | index.js:294-298 | a click on the overlay itself closes the menu; a click inside the panel changes nothing |
| MobileMenu.Menu.KeyDown | index.js:312-316 | Escape closes the menu exactly when the overlay is shown; otherwise nothing changes |
| MobileMenu.Menu.NavLinkClick | index.js:302-308 | the menu closes and the clicked link becomes the only active one; a link without an href throws after closing and leaves the flags as they were |
| MobileMenu.OnlyActive | index.js:306-307 | the flags after a link click: the clicked one set, every other clear |

## Findings

| source | as written | input that shows it | evidently intended | confidence | as-written member | corrected member |
|---|---|---|---|---|---|---|
| language.js:707 | `methodDocs[methodName]` reads through the prototype chain, so keys naming members inherited from Object.prototype count as documented. The same read is at language.js:646, index.js:47 and index.js:108. | a `.function` element reading `toString` (for example in `n.toString()`): it gets listeners, and its tooltip shows "toString()" with the description and the link both "undefined" | only keys that are own entries of the table get a tooltip | medium, not executed | Tooltip.AsWrittenShowsInheritedName | Tooltip.NeverShowsMissingKey |

The scheduler takes the reading as a fixed parameter. `PrototypeChain` is the
code as written, and `Tooltip.AsWrittenShowsInheritedName` is about it.
`OwnEntries` is the intended own-entry read, and
`Tooltip.NeverShowsMissingKey` is about it. `MethodDocs.InheritedNameFindsEntry`
states the same discrepancy for one table read.

## Left out

- Loading the translation file (`loadTranslations`, a network fetch and a JSON parse): whether it has finished is an input of the show timer.
- Storage access (`localStorage`): the stored language and theme are inputs or fields.
- updatePageContent's rewriting of the page (language.js:547-600) is not modelled beyond getNestedValue. That includes:
  - the `t.code?.[codeKey]` read that replaces every `pre[data-code]` block's `innerHTML` (language.js:581-587);
  - the flag of the current language;
  - the assignment of `window.currentMethodDocs` (language.js:599), which is an input of `Tooltip.ActiveDocs`.
- Replaced code blocks hold new `.function` and `.property` elements, and no listeners are attached to them. The model's listener set is the one attached at load. It does not track that the elements it names are no longer on the page.
- Copy to the clipboard: an asynchronous browser API.
- Real timers, `getBoundingClientRect` and `Range.toString`: their results are inputs, and a timer firing is an event.
- The help popup, the language dropdown's aria attributes and `scrollTo`: attribute setting with no decision in it.
- updateActiveMobileNav (language.js:859-876, index.js:327-344): it reads `mobileNavLinks`, which is only in scope inside initMobileMenu. It throws a ReferenceError whenever a section covers scrollY + 100 (language.js:868, index.js:336). When no section does, it does nothing.
- Theme.ThemeControl.constructor, Tooltip.Initial, Tooltip.Scheduler.constructor, ScrollSpy.BackToTop.constructor: they assume that no section covers scrollY + 100 at load. Then both load-time calls of updateActiveMobileNav (language.js:879, index.js:347) return normally. The model assumes that language.js runs to its end before index.js starts. If a section does cover the probe:
  - language.js is one function expression (language.js:2-1010), and the throw at language.js:879 ends it. `window.Language` (language.js:980) is never assigned, and initializeLanguage never runs, so `window.currentMethodDocs` stays unset.
  - index.js then reads `window.Language` at index.js:106 for its first `.function` or `.property` element and throws a TypeError. It attaches no tooltip listeners and never reaches index.js:197-446 (scroll spy, mobile menu, back-to-top, theme).
- getNestedValue on text or array intermediates (`"abc"?.[0]` and the like): only objects and text leaves are modelled.
- Translations.Member: `current?.[key]` on an object also finds the members it inherits from Object.prototype (`toString`, `constructor`, `__proto__` and the rest of `MethodDocs.InheritedNames`). Member gives None for them, because a function or the prototype object is not a translation value. The script would find a defined value there, and updatePageContent's `value !== undefined` check (language.js:558) lets it be written into the page.
- Strings are sequences of Unicode scalar values, not UTF-16 code units: every white-space character lies in the Basic Multilingual Plane, so trimming is unaffected.
- Missing DOM elements (null checks on theme icons and buttons, initMobileMenu's early return): the model assumes the elements exist.
- The two scheduler instances, one per script, each with its own tooltip element: one instance is modelled, and the page runs two independent copies.
- The body overflow style is shared with the help popup, which also sets it: only the menu's writes are modelled.
- Tooltip.Scheduler.constructor: it starts from the attach-time state, not from the DOM.
- Tooltip.Attach, Tooltip.OnShowTimer: the reading of the tables is a parameter fixed for the whole run. Under the as-written reading, a key naming an inherited member gets an entry whose description and link are the text "undefined"; the function value itself is not modelled.
- JsStrings.Trim: its own contract states only that the result has no white space at either end. That it is a slice surrounded by white space is the separate lemma JsStrings.TrimSound.
- Tooltip.OnShowTimer: when the translations are missing, language.js returns early and index.js throws at index.js:50; both leave the state unchanged, and the model does not tell the two apart.
