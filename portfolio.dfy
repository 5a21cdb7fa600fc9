/**
 * The work grid: a constant list of projects, a category filter chosen by
 * three buttons, and the per-card link buttons and parallax direction.
 */
module Portfolio {
  import opened Common

  datatype Category = Development | Design | Strategy

  /** An optional link field (`demo?: string`): whether the project has that link.
      The address itself is content and is not modelled. */
  datatype Link = NoLink | Link

  /** The optional outbound links of a project; a button is shown per present link. */
  datatype Links = Links(demo: Link, code: Link, design: Link, caseStudy: Link)

  /** A card of the grid (`Project` of the shared types); the description and image
      are content and are not modelled. */
  datatype Project = Project(id: string, title: string, category: Category,
                             year: string, tags: seq<string>, links: Links)

  /** The filter buttons: "All", "Development", "Design". */
  datatype Filter = All | Only(category: Category)

  /** The three filters the page offers, in button order. */
  const Filters: seq<Filter> := [All, Only(Development), Only(Design)]

  /** The link buttons, in the order the card renders them. */
  datatype Button = LiveDemo | SourceCode | ViewDesign | CaseStudy

  /** The predicate handed to `Array.prototype.filter`. */
  predicate Keeps(f: Filter, p: Project)
  {
    f == All || p.category == f.category
  }

  /** `allProjects.filter(p => filter === 'All' || p.category === filter)`. */
  function Filtered(f: Filter, ps: seq<Project>): (r: seq<Project>)
    ensures |r| <= |ps|
  {
    if ps == [] then []
    else (if Keeps(f, ps[0]) then [ps[0]] else []) + Filtered(f, ps[1..])
  }

  /** A project is in the result exactly when it is in the list and passes the filter. */
  lemma {:induction false} FilterMembership(f: Filter, ps: seq<Project>, p: Project)
    ensures p in Filtered(f, ps) <==> p in ps && Keeps(f, p)
  {
    if ps != [] {
      FilterMembership(f, ps[1..], p);
      assert p in ps <==> p == ps[0] || p in ps[1..];
    }
  }

  /** `a` can be obtained from `b` by deleting elements, keeping the order. */
  predicate IsSubsequence<T(==)>(a: seq<T>, b: seq<T>)
  {
    if a == [] then true
    else if b == [] then false
    else if a[0] == b[0] then IsSubsequence(a[1..], b[1..])
    else IsSubsequence(a, b[1..])
  }

  lemma {:induction false} FilterAllIsIdentity(ps: seq<Project>)
    ensures Filtered(All, ps) == ps
  {
    if ps != [] {
      FilterAllIsIdentity(ps[1..]);
      assert ps == [ps[0]] + ps[1..];
    }
  }

  lemma {:induction false} FilterIsSubsequence(f: Filter, ps: seq<Project>)
    ensures IsSubsequence(Filtered(f, ps), ps)
  {
    if ps != [] {
      FilterIsSubsequence(f, ps[1..]);
      var rest := Filtered(f, ps[1..]);
      if Keeps(f, ps[0]) {
        assert ([ps[0]] + rest)[1..] == rest;
      } else {
        assert Filtered(f, ps) == rest;
        SubsequenceOfTail(rest, ps);
      }
    }
  }

  lemma {:induction false} SubsequenceOfTail<T>(a: seq<T>, b: seq<T>)
    requires b != [] && IsSubsequence(a, b[1..])
    ensures IsSubsequence(a, b)
  {
    if a != [] && a[0] == b[0] {
      SubsequenceTail(a, b[1..]);
    }
  }

  lemma {:induction false} SubsequenceTail<T>(a: seq<T>, b: seq<T>)
    requires a != [] && IsSubsequence(a, b)
    ensures IsSubsequence(a[1..], b)
  {
    if b != [] {
      if a[0] == b[0] {
        if a[1..] != [] {
          SubsequenceTail(a[1..], b[1..]);
          SubsequenceOfTail(a[1..], b);
        }
      } else {
        SubsequenceTail(a, b[1..]);
        SubsequenceOfTail(a[1..], b);
      }
    }
  }

  /** Filtering a concatenation filters each part. */
  lemma {:induction false} FilterAppend(f: Filter, a: seq<Project>, b: seq<Project>)
    ensures Filtered(f, a + b) == Filtered(f, a) + Filtered(f, b)
  {
    if a == [] {
      assert a + b == b;
    } else {
      var head := if Keeps(f, a[0]) then [a[0]] else [];
      assert (a + b)[0] == a[0] && (a + b)[1..] == a[1..] + b;
      calc {
        Filtered(f, a + b);
        head + Filtered(f, a[1..] + b);
        { FilterAppend(f, a[1..], b); }
        head + (Filtered(f, a[1..]) + Filtered(f, b));
        (head + Filtered(f, a[1..])) + Filtered(f, b);
      }
    }
  }

  /** A list whose every project passes is returned whole. */
  lemma {:induction false} FilterAllPass(f: Filter, ps: seq<Project>)
    requires forall i :: 0 <= i < |ps| ==> Keeps(f, ps[i])
    ensures Filtered(f, ps) == ps
  {
    if ps != [] {
      FilterAllPass(f, ps[1..]);
      assert ps == [ps[0]] + ps[1..];
    }
  }

  /** A list where no project passes gives nothing. */
  lemma {:induction false} FilterNonePass(f: Filter, ps: seq<Project>)
    requires forall i :: 0 <= i < |ps| ==> !Keeps(f, ps[i])
    ensures Filtered(f, ps) == []
  {
    if ps != [] {
      FilterNonePass(f, ps[1..]);
    }
  }

  /** The three category filters split any list: their results together are as long
      as the list, and (by FilterMembership) each project passes exactly one of them. */
  lemma {:induction false} CategoryFiltersPartition(ps: seq<Project>)
    ensures |Filtered(Only(Development), ps)| + |Filtered(Only(Design), ps)|
            + |Filtered(Only(Strategy), ps)| == |ps|
  {
    if ps != [] {
      CategoryFiltersPartition(ps[1..]);
    }
  }

  /** A list of development work followed by design work splits at the boundary. */
  lemma {:induction false} SplitAtBoundary(ps: seq<Project>, k: nat)
    requires k <= |ps|
    requires forall i :: 0 <= i < k ==> ps[i].category == Development
    requires forall i :: k <= i < |ps| ==> ps[i].category == Design
    ensures Filtered(Only(Development), ps) == ps[..k]
    ensures Filtered(Only(Design), ps) == ps[k..]
    ensures Filtered(Only(Strategy), ps) == []
  {
    if k == 0 {
      FilterNonePass(Only(Development), ps);
      FilterAllPass(Only(Design), ps);
    } else {
      SplitAtBoundary(ps[1..], k - 1);
      assert ps[..k] == [ps[0]] + ps[1..][..k - 1];
      assert ps[k..] == ps[1..][k - 1..];
    }
    FilterNonePass(Only(Strategy), ps);
  }

  lemma {:induction false} FilterIdempotent(f: Filter, ps: seq<Project>)
    ensures Filtered(f, Filtered(f, ps)) == Filtered(f, ps)
  {
    if ps != [] {
      FilterIdempotent(f, ps[1..]);
      if Keeps(f, ps[0]) {
        assert ([ps[0]] + Filtered(f, ps[1..]))[1..] == Filtered(f, ps[1..]);
      } else {
        assert Filtered(f, ps) == Filtered(f, ps[1..]);
      }
    }
  }

  /** Results for two different categories never share a project. */
  lemma CategoryFiltersDisjoint(c: Category, d: Category, ps: seq<Project>)
    requires c != d
    ensures forall p :: p in Filtered(Only(c), ps) ==> p !in Filtered(Only(d), ps)
  {
    forall p | p in Filtered(Only(c), ps)
      ensures p !in Filtered(Only(d), ps)
    {
      FilterMembership(Only(c), ps, p);
      FilterMembership(Only(d), ps, p);
    }
  }

  /** The action buttons of a card, each present iff its link is. */
  function Buttons(l: Links): (r: seq<Button>)
    ensures LiveDemo in r <==> l.demo.Link?
    ensures SourceCode in r <==> l.code.Link?
    ensures ViewDesign in r <==> l.design.Link?
    ensures CaseStudy in r <==> l.caseStudy.Link?
    ensures forall i, j :: 0 <= i < j < |r| ==> ButtonRank(r[i]) < ButtonRank(r[j])
  {
    (if l.demo.Link? then [LiveDemo] else [])
    + (if l.code.Link? then [SourceCode] else [])
    + (if l.design.Link? then [ViewDesign] else [])
    + (if l.caseStudy.Link? then [CaseStudy] else [])
  }

  /** Position of a button in the card's fixed layout order. */
  function ButtonRank(b: Button): nat
  {
    match b
    case LiveDemo => 0
    case SourceCode => 1
    case ViewDesign => 2
    case CaseStudy => 3
  }

  /** The image parallax speed of the card at `index` in the filtered grid. */
  function ParallaxSpeed(index: nat): (s: real)
    ensures s == 0.3 || s == -0.3
    ensures (s == 0.3) <==> index % 2 == 0
  {
    if index % 2 == 0 then 0.3 else -0.3
  }

  /** Neighbouring cards drift in opposite directions. */
  lemma ParallaxAlternates(index: nat)
    ensures ParallaxSpeed(index + 1) == -ParallaxSpeed(index)
  {
  }
}

/** The page's constant project list (`allProjects`) and what the filter makes of it. */
module PortfolioProjects {
  import opened Common
  import opened Portfolio

  /** `allProjects`, in the order the grid shows them. */
  function AllProjects(): (ps: seq<Project>)
    ensures |ps| == 9
    ensures forall i :: 0 <= i < 4 ==> ps[i].category == Development
    ensures forall i :: 4 <= i < 9 ==> ps[i].category == Design
    ensures forall i, j :: 0 <= i < j < |ps| ==> ps[i].id != ps[j].id
  {
    [Project("1", "Glass Calculator", Development, "2024",
       ["HTML", "CSS", "JS"],
       Links(Link, Link, NoLink, NoLink)),
     Project("2", "FocusHub Landing", Development, "2024",
       ["Frontend", "Animation"],
       Links(Link, Link, NoLink, NoLink)),
     Project("3", "NexusCheck To-Do", Development, "2023",
       ["Productivity", "Web App"],
       Links(Link, Link, NoLink, NoLink)),
     Project("4", "Mood Changer", Development, "2023",
       ["Interactive", "Theme"],
       Links(Link, Link, NoLink, NoLink)),
     Project("5", "Squidly Expense Tracker", Design, "2024",
       ["Figma", "UI/UX"],
       Links(NoLink, NoLink, Link, Link)),
     Project("6", "Cookbook Recipe App", Design, "2024",
       ["Mobile App", "Micro-interactions"],
       Links(NoLink, NoLink, Link, NoLink)),
     Project("7", "Quizify", Design, "2024",
       ["Web Design", "Internship"],
       Links(NoLink, NoLink, Link, NoLink)),
     Project("8", "Women's Safety App", Design, "2024",
       ["UX Research", "Social Impact"],
       Links(NoLink, NoLink, Link, NoLink)),
     Project("9", "TownSync Event App", Design, "2024",
       ["App Design", "Community"],
       Links(NoLink, NoLink, Link, NoLink))]
  }

  /** On the page's own list the first four projects are development work, the other
      five design work, and there is no Strategy project. */
  lemma AllProjectsSplit()
    ensures Filtered(Only(Development), AllProjects()) == AllProjects()[..4]
    ensures Filtered(Only(Design), AllProjects()) == AllProjects()[4..]
    ensures Filtered(Only(Strategy), AllProjects()) == []
  {
    SplitAtBoundary(AllProjects(), 4);
  }

}
