/**
 * The slice of the DOM that the pointer and click handlers look at: an element,
 * the path from an event target up through its ancestors, `Element.closest` over
 * a selector list, `getAttribute`, and the string operations applied to text.
 */
module Dom {
  import opened Common

  /** What the handlers read from an element: its lower-case tag name, its
      attributes (the id is the attribute "id"), its classes, its `textContent`,
      and whether its computed style has `cursor: pointer`. */
  datatype Element = Element(tag: string, attrs: map<string, string>, classes: set<string>,
                             textContent: string, pointer: bool)

  /** One compound-free selector of a selector list. */
  datatype Selector =
    | Tag(name: string)                    // `a`, `button`, `img`, ...
    | HasAttr(name: string)                // `[data-magnetic]`
    | AttrIs(name: string, value: string)  // `[role="button"]`, and `#id` as `[id="id"]`
    | HasClass(name: string)               // `.certificate-card`

  predicate Matches(e: Element, s: Selector)
  {
    match s
    case Tag(n) => e.tag == n
    case HasAttr(n) => n in e.attrs
    case AttrIs(n, v) => n in e.attrs && e.attrs[n] == v
    case HasClass(n) => n in e.classes
  }

  /** `e.matches("s1, s2, ...")`. */
  predicate MatchesAny(e: Element, sels: seq<Selector>)
  {
    exists i :: 0 <= i < |sels| && Matches(e, sels[i])
  }

  /** Position of the first element of `path` (target first, then its ancestors)
      that matches the list, or `|path|` when none does. */
  function FirstMatch(path: seq<Element>, sels: seq<Selector>): (k: nat)
    ensures k <= |path|
    ensures k < |path| ==> MatchesAny(path[k], sels)
    ensures forall m :: 0 <= m < k ==> !MatchesAny(path[m], sels)
  {
    if path == [] then 0
    else if MatchesAny(path[0], sels) then 0
    else 1 + FirstMatch(path[1..], sels)
  }

  /** `target.closest(selectors)`: the nearest element, starting at the target itself,
      that matches; nothing when no element on the path does. */
  function Closest(path: seq<Element>, sels: seq<Selector>): (r: Option<Element>)
    ensures r.Some? <==> exists k :: 0 <= k < |path| && MatchesAny(path[k], sels)
    ensures r.Some? ==> MatchesAny(r.value, sels) && r.value in path
  {
    var k := FirstMatch(path, sels);
    if k < |path| then Some(path[k]) else None
  }

  /** An element that matches makes `closest` succeed from any path through it, and the
      answer is never further up than that element. */
  lemma ClosestNoFurther(path: seq<Element>, sels: seq<Selector>, j: nat)
    requires j < |path| && MatchesAny(path[j], sels)
    ensures Closest(path, sels).Some?
    ensures FirstMatch(path, sels) <= j
  {
  }

  /** `getAttribute(name)`: the value, or null when the attribute is absent. */
  function GetAttribute(e: Element, name: string): (r: Option<string>)
    ensures r.Some? <==> name in e.attrs
    ensures r.Some? ==> r.value == e.attrs[name]
  {
    if name in e.attrs then Some(e.attrs[name]) else None
  }

  /** The characters `String.prototype.trim` removes: the ECMAScript WhiteSpace and
      LineTerminator code points. */
  const Whitespace: set<char> := {
    '\t', '\U{000B}', '\U{000C}', ' ', '\U{00A0}', '\U{FEFF}', '\n', '\r', '\U{2028}', '\U{2029}',
    '\U{1680}', '\U{2000}', '\U{2001}', '\U{2002}', '\U{2003}', '\U{2004}', '\U{2005}',
    '\U{2006}', '\U{2007}', '\U{2008}', '\U{2009}', '\U{200A}', '\U{202F}', '\U{205F}', '\U{3000}'
  }

  /** Drops leading whitespace. */
  function TrimStart(s: string): (r: string)
    ensures |r| <= |s| && r == s[|s| - |r|..]
    ensures r == [] || r[0] !in Whitespace
    ensures forall i :: 0 <= i < |s| - |r| ==> s[i] in Whitespace
  {
    if s != [] && s[0] in Whitespace then TrimStart(s[1..]) else s
  }

  /** Drops trailing whitespace. */
  function TrimEnd(s: string): (r: string)
    ensures |r| <= |s| && r == s[..|r|]
    ensures r == [] || r[|r| - 1] !in Whitespace
    ensures forall i :: |r| <= i < |s| ==> s[i] in Whitespace
  {
    if s != [] && s[|s| - 1] in Whitespace then TrimEnd(s[..|s| - 1]) else s
  }

  /** `s.trim()`. */
  function Trim(s: string): string
  {
    TrimEnd(TrimStart(s))
  }

  /** The trimmed text is the slice of the text between its leading and its trailing
      whitespace, and begins and ends with a non-whitespace character. */
  lemma TrimIsSlice(s: string)
    ensures exists i, j :: 0 <= i <= j <= |s| && Trim(s) == s[i..j]
              && (forall k :: 0 <= k < i ==> s[k] in Whitespace)
              && (forall k :: j <= k < |s| ==> s[k] in Whitespace)
    ensures Trim(s) == [] || (Trim(s)[0] !in Whitespace && Trim(s)[|Trim(s)| - 1] !in Whitespace)
  {
    var t := TrimStart(s);
    var i := |s| - |t|;
    var u := TrimEnd(t);
    var j := i + |u|;
    assert u == t[..|u|];
    assert t == s[i..];
    assert u == s[i..j];
    forall k | j <= k < |s| ensures s[k] in Whitespace {
      assert s[k] == t[k - i];
    }
    assert forall k :: 0 <= k < i ==> s[k] in Whitespace;
    assert Trim(s) == s[i..j];
  }

  /** Trimming twice is trimming once. */
  lemma TrimIdempotent(s: string)
    ensures Trim(Trim(s)) == Trim(s)
  {
    var t := Trim(s);
    TrimIsSlice(s);
    if t != [] {
      assert TrimStart(t) == t;
      assert TrimEnd(t) == t;
    }
  }

  /** `s.substring(0, n)` for a non-negative `n`. */
  function Prefix(s: string, n: nat): (r: string)
    ensures |r| == if |s| < n then |s| else n
    ensures r == s[..|r|]
  {
    if |s| < n then s else s[..n]
  }
}
