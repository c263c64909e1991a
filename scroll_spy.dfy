// The scroll handlers: the active-link scroll spy, updateActiveNav
// (language.js:800-817, with the same code at index.js:200-217), and the
// back-to-top button, toggleBackToTop (language.js:884-890, index.js:352-358).
// Section offsets and the scroll offset are CSS pixels, kept as reals.
module ScrollSpy {
  import opened Wrappers

  /** Where the spy probes: 100 pixels below the top of the viewport. */
  const ProbeOffset: real := 100.0

  /** The back-to-top button shows once the page is scrolled past this. */
  const BackToTopThreshold: real := 300.0

  /** A `section[id]`: its offsetTop, offsetHeight and id. */
  datatype Section = Section(top: real, height: real, id: string)

  /** The probe lies inside the section (top inclusive, bottom exclusive). */
  predicate Covers(section: Section, pos: real) {
    section.top <= pos < section.top + section.height
  }

  /** The flags a section leaves on the links when it covers the probe: a
      link is active exactly when its href is "#" followed by the section's
      id. A link without an href never is. */
  function Highlight(hrefs: seq<Option<string>>, id: string): (flags: seq<bool>)
    ensures |flags| == |hrefs|
    ensures forall k | 0 <= k < |hrefs| :: flags[k] <==> hrefs[k] == Some("#" + id)
  {
    seq(|hrefs|, k requires 0 <= k < |hrefs| => hrefs[k] == Some("#" + id))
  }

  /** The flags after the forEach over `sections` has run from `flags`:
      every covering section, in order, rewrites all of them. */
  function Scan(sections: seq<Section>, hrefs: seq<Option<string>>, pos: real, flags: seq<bool>): (r: seq<bool>)
    ensures (forall i | 0 <= i < |sections| :: !Covers(sections[i], pos)) ==> r == flags
    ensures |flags| == |hrefs| ==> |r| == |hrefs|
    decreases |sections|
  {
    if sections == [] then flags
    else
      var last := sections[|sections| - 1];
      if Covers(last, pos) then Highlight(hrefs, last.id)
      else Scan(sections[..|sections| - 1], hrefs, pos, flags)
  }

  /** The index of the last section that covers the probe, if any. */
  function LastCovering(sections: seq<Section>, pos: real): (j: Option<nat>)
    ensures j.Some? ==> j.value < |sections| && Covers(sections[j.value], pos)
                        && forall i | j.value < i < |sections| :: !Covers(sections[i], pos)
    ensures j.None? ==> forall i | 0 <= i < |sections| :: !Covers(sections[i], pos)
    decreases |sections|
  {
    if sections == [] then None
    else if Covers(sections[|sections| - 1], pos) then Some(|sections| - 1)
    else LastCovering(sections[..|sections| - 1], pos)
  }

  /** The flags after updateActiveNav: highlighting for the last section that
      covers the probe; if none does, the flags are left as they were. */
  function ActiveAfterScroll(sections: seq<Section>, hrefs: seq<Option<string>>, scrollY: real, flags: seq<bool>): (r: seq<bool>)
    ensures (forall i | 0 <= i < |sections| :: !Covers(sections[i], scrollY + ProbeOffset)) ==> r == flags
    ensures forall i | 0 <= i < |sections| && Covers(sections[i], scrollY + ProbeOffset)
                       && (forall j | i < j < |sections| :: !Covers(sections[j], scrollY + ProbeOffset)) ::
              r == Highlight(hrefs, sections[i].id)
  {
    match LastCovering(sections, scrollY + ProbeOffset)
    case None => flags
    case Some(j) => Highlight(hrefs, sections[j].id)
  }

  /** The loop's step-by-step effect is that of the last covering section. */
  lemma {:induction false} ScanIsLastCovering(sections: seq<Section>, hrefs: seq<Option<string>>, pos: real, flags: seq<bool>)
    ensures Scan(sections, hrefs, pos, flags)
            == match LastCovering(sections, pos)
               case None => flags
               case Some(j) => Highlight(hrefs, sections[j].id)
    decreases |sections|
  {
    if sections != [] && !Covers(sections[|sections| - 1], pos) {
      var prefix := sections[..|sections| - 1];
      ScanIsLastCovering(prefix, hrefs, pos, flags);
      var j := LastCovering(prefix, pos);
      if j.Some? {
        assert prefix[j.value] == sections[j.value];
      }
    }
  }

  /** updateActiveNav over the page's sections and nav links. `active[k]` is
      whether link k has the `active` class. */
  method UpdateActiveNav(sections: seq<Section>, hrefs: seq<Option<string>>, active: array<bool>, scrollY: real)
    requires active.Length == |hrefs|
    modifies active
    ensures active[..] == ActiveAfterScroll(sections, hrefs, scrollY, old(active[..]))
  {
    var scrollPos := scrollY + ProbeOffset;
    ghost var start := active[..];
    for i := 0 to |sections|
      invariant active[..] == Scan(sections[..i], hrefs, scrollPos, start)
    {
      var section := sections[i];
      if section.top <= scrollPos && scrollPos < section.top + section.height {
        for k := 0 to active.Length
          invariant forall m | 0 <= m < k :: active[m] == (hrefs[m] == Some("#" + section.id))
          invariant forall m | k <= m < active.Length :: active[m] == Scan(sections[..i], hrefs, scrollPos, start)[m]
        {
          active[k] := false;
          if hrefs[k] == Some("#" + section.id) {
            active[k] := true;
          }
        }
        assert active[..] == Highlight(hrefs, section.id);
      }
      assert sections[..i + 1][..i] == sections[..i];
    }
    assert sections[..|sections|] == sections;
    ScanIsLastCovering(sections, hrefs, scrollPos, start);
  }

  /** Scrolling runs the spy from both scripts, and once more at load; at the
      same offset a second run changes nothing. */
  lemma ActiveAfterScrollIdempotent(sections: seq<Section>, hrefs: seq<Option<string>>, scrollY: real, flags: seq<bool>)
    ensures var once := ActiveAfterScroll(sections, hrefs, scrollY, flags);
            ActiveAfterScroll(sections, hrefs, scrollY, once) == once
  {
  }

  /** When some section covers the probe the result no longer depends on
      the flags before. */
  lemma ActiveAfterScrollForgets(sections: seq<Section>, hrefs: seq<Option<string>>, scrollY: real, f: seq<bool>, g: seq<bool>, i: nat)
    requires i < |sections| && Covers(sections[i], scrollY + ProbeOffset)
    ensures ActiveAfterScroll(sections, hrefs, scrollY, f) == ActiveAfterScroll(sections, hrefs, scrollY, g)
  {
  }

  /** No two links point at the same place. */
  predicate DistinctHrefs(hrefs: seq<Option<string>>) {
    forall a, b | 0 <= a < b < |hrefs| :: hrefs[a].Some? ==> hrefs[a] != hrefs[b]
  }

  /** With distinct hrefs, whenever a section covers the probe at most one
      link is active. */
  lemma AtMostOneActive(sections: seq<Section>, hrefs: seq<Option<string>>, scrollY: real, flags: seq<bool>, a: nat, b: nat)
    requires DistinctHrefs(hrefs)
    requires LastCovering(sections, scrollY + ProbeOffset).Some?
    requires a < b < |hrefs|
    ensures var after := ActiveAfterScroll(sections, hrefs, scrollY, flags);
            !(after[a] && after[b])
  {
  }

  /** With sections that do not overlap, the highlighted section is the one
      the probe is in: an earlier covering section cannot be overridden. */
  lemma DisjointSectionsHighlightTheCoveringOne(sections: seq<Section>, hrefs: seq<Option<string>>, scrollY: real, flags: seq<bool>, i: nat)
    requires forall a, b | 0 <= a < b < |sections| :: sections[a].top + sections[a].height <= sections[b].top
    requires i < |sections| && Covers(sections[i], scrollY + ProbeOffset)
    ensures ActiveAfterScroll(sections, hrefs, scrollY, flags) == Highlight(hrefs, sections[i].id)
  {
  }

  /** The back-to-top button, whose `show` class toggleBackToTop sets. */
  class BackToTop {
    var shown: bool

    /** The button as the page markup leaves it, without `show`; the
        load-time toggleBackToTop call is a first OnScroll. */
    constructor ()
      ensures !shown
    {
      shown := false;
    }

    /** toggleBackToTop: shown exactly when the page is scrolled more than
        300 pixels. */
    method OnScroll(scrollY: real)
      modifies this
      ensures shown <==> scrollY > BackToTopThreshold
    {
      if scrollY > BackToTopThreshold {
        shown := true;
      } else {
        shown := false;
      }
    }
  }
}
