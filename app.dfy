/**
 * The page shell: which section the navigation highlights, navigating to a section,
 * and the scroll spy that follows the reader down the page.
 */
module App {
  import opened Common

  /** The `Section` enum of the shared types, with its string values. */
  datatype Section = Hero | Work | About | Contact
  {
    function Value(): string
    {
      match this
      case Hero => "hero"
      case Work => "work"
      case About => "about"
      case Contact => "contact"
    }
  }

  /** The order the scroll spy visits the sections in. */
  const SpyOrder: seq<Section> := [Hero, Work, About, Contact]

  /** The horizontal line, in pixels from the top of the viewport, the spy tests. */
  const SpyLine: real := 300.0

  /** The element id `scrollToSection` looks up: the page root for the hero, the
      section's own value otherwise. */
  function TargetId(s: Section): (id: string)
    ensures s == Hero ==> id == "root"
    ensures s != Hero ==> id == s.Value()
  {
    if s == Hero then "root" else s.Value()
  }

  /** Different sections scroll to different elements. */
  lemma TargetIdInjective(s: Section, t: Section)
    requires TargetId(s) == TargetId(t)
    ensures s == t
  {
  }

  /** A section's rectangle straddles the spy line. */
  predicate Straddles(r: Rect)
  {
    r.top <= SpyLine <= r.Bottom()
  }

  /** What the scroll spy selects for a scroll offset and the rectangles of the
      sections present on the page (keyed by element id): the hero near the top,
      otherwise the first of `sections` whose rectangle straddles the line, or
      nothing. */
  function SpyPick(scrollY: real, rects: map<string, Rect>, sections: seq<Section>): Option<Section>
  {
    if sections == [] then None
    else if sections[0] == Hero then
      (if scrollY < SpyLine then Some(Hero) else SpyPick(scrollY, rects, sections[1..]))
    else if sections[0].Value() in rects && Straddles(rects[sections[0].Value()]) then Some(sections[0])
    else SpyPick(scrollY, rects, sections[1..])
  }

  /** A section qualifies at a scroll offset when the spy would stop at it. */
  predicate Qualifies(scrollY: real, rects: map<string, Rect>, s: Section)
  {
    if s == Hero then scrollY < SpyLine
    else s.Value() in rects && Straddles(rects[s.Value()])
  }

  /** The spy's pick is the first qualifying section of the list, and nothing when
      none qualifies. */
  lemma {:induction false} SpyPickIsFirst(scrollY: real, rects: map<string, Rect>, sections: seq<Section>)
    ensures SpyPick(scrollY, rects, sections).Some? <==>
              exists k :: 0 <= k < |sections| && Qualifies(scrollY, rects, sections[k])
    ensures SpyPick(scrollY, rects, sections).Some? ==>
              exists k :: 0 <= k < |sections| && sections[k] == SpyPick(scrollY, rects, sections).value
                && Qualifies(scrollY, rects, sections[k])
                && forall m :: 0 <= m < k ==> !Qualifies(scrollY, rects, sections[m])
  {
    if sections != [] {
      SpyPickIsFirst(scrollY, rects, sections[1..]);
      var r := SpyPick(scrollY, rects, sections[1..]);
      if !Qualifies(scrollY, rects, sections[0]) {
        if r.Some? {
          var k :| 0 <= k < |sections[1..]| && sections[1..][k] == r.value
                && Qualifies(scrollY, rects, sections[1..][k])
                && forall m :: 0 <= m < k ==> !Qualifies(scrollY, rects, sections[1..][m]);
          assert sections[k + 1] == r.value && Qualifies(scrollY, rects, sections[k + 1]);
          forall m | 0 <= m < k + 1 ensures !Qualifies(scrollY, rects, sections[m]) {
            if m > 0 { assert sections[m] == sections[1..][m - 1]; }
          }
        } else {
          forall k | 0 <= k < |sections| ensures !Qualifies(scrollY, rects, sections[k]) {
            if k > 0 { assert sections[k] == sections[1..][k - 1]; }
          }
        }
      }
    }
  }

  /** Near the top of the page the spy always selects the hero. */
  lemma SpyNearTop(scrollY: real, rects: map<string, Rect>)
    requires scrollY < SpyLine
    ensures SpyPick(scrollY, rects, SpyOrder) == Some(Hero)
  {
  }

  /** The shell's state: the section the navigation highlights. */
  class Shell {
    var currentSection: Section

    constructor ()
      ensures currentSection == Hero
    {
      currentSection := Hero;
    }

    /** `scrollToSection`: the highlight moves only when the target element exists
        (`present` holds the ids of the elements on the page). */
    method ScrollToSection(s: Section, present: set<string>)
      modifies this
      ensures currentSection == (if TargetId(s) in present then s else old(currentSection))
    {
      var id := TargetId(s);
      if id in present {
        currentSection := s;
      }
    }

    /** The scroll spy's `handleScroll`: visits the sections in order, stops at the
        hero when near the top, skips sections whose element is missing, and stops
        at the first section straddling the line; if none does, nothing changes. */
    method HandleScroll(scrollY: real, rects: map<string, Rect>)
      modifies this
      ensures currentSection == match SpyPick(scrollY, rects, SpyOrder)
                                case Some(s) => s
                                case None => old(currentSection)
    {
      var sections := SpyOrder;
      var i := 0;
      while i < |sections|
        invariant 0 <= i <= |sections|
        invariant currentSection == old(currentSection)
        invariant SpyPick(scrollY, rects, sections) == SpyPick(scrollY, rects, sections[i..])
      {
        var section := sections[i];
        assert sections[i..][1..] == sections[i + 1..];
        if section == Hero {
          if scrollY < SpyLine {
            currentSection := Hero;
            break;
          }
          i := i + 1;
          continue;
        }
        var id := section.Value();
        if id in rects {
          var rect := rects[id];
          if rect.top <= SpyLine && rect.Bottom() >= SpyLine {
            currentSection := section;
            break;
          }
        }
        i := i + 1;
      }
    }
  }
}
