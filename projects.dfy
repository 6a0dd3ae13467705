/** The projects section: the row of tag buttons and the list of projects the active tag
    selects. */
module Projects {

  /** The parts of a project the tag index and the filter read. */
  datatype Project = Project(title: string, tags: seq<string>)

  /** The button that shows every project, and the filter the section starts with. */
  const AllFilter: string := "All"
  const InitialFilter: string := AllFilter

  /** `projects.flatMap(p => p.tags)`: every tag of every project, project by project. */
  function Flatten(ps: seq<Project>): (tags: seq<string>)
    ensures forall t :: t in tags <==> exists p :: p in ps && t in p.tags
    decreases |ps|
  {
    if ps == [] then []
    else
      var init := ps[..|ps| - 1];
      assert ps == init + [ps[|ps| - 1]];
      Flatten(init) + ps[|ps| - 1].tags
  }

  /** The position of the first occurrence of `x` in `s`. */
  function FirstIndex(s: seq<string>, x: string): (i: nat)
    requires x in s
    ensures i < |s| && s[i] == x && x !in s[..i]
    decreases |s|
  {
    var init := s[..|s| - 1];
    if x in init then FirstIndex(init, x)
    else
      assert s == init + [x];
      |s| - 1
  }

  predicate NoDuplicates<T(==)>(s: seq<T>)
  {
    forall i, j :: 0 <= i < j < |s| ==> s[i] != s[j]
  }

  /** `Array.from(new Set(s))`: the distinct strings of `s`, each where a `Set` inserts it,
      that is, in the order of their first occurrences. */
  function Distinct(s: seq<string>): (r: seq<string>)
    ensures forall x :: x in r <==> x in s
    ensures NoDuplicates(r)
    ensures forall i, j :: 0 <= i < j < |r| ==> FirstIndex(s, r[i]) < FirstIndex(s, r[j])
    decreases |s|
  {
    if s == [] then []
    else
      var init, last := s[..|s| - 1], s[|s| - 1];
      assert s == init + [last];
      var d := Distinct(init);
      FirstIndexOfPrefix(init, last, d);
      if last in d then d else d + [last]
  }

  /** Appending an element leaves the first occurrences of the elements already present. */
  lemma FirstIndexOfPrefix(init: seq<string>, last: string, d: seq<string>)
    requires forall x :: x in d ==> x in init
    ensures forall x :: x in d ==> FirstIndex(init + [last], x) == FirstIndex(init, x)
  {
    var s := init + [last];
    forall x | x in d ensures FirstIndex(s, x) == FirstIndex(init, x) {
      assert s[..|s| - 1] == init;
    }
  }

  /** The tag buttons: `'All'` followed by every tag used by some project, once each, in
      the order the tags first appear across the projects. */
  function AllTags(ps: seq<Project>): (tags: seq<string>)
    ensures |tags| >= 1 && tags[0] == AllFilter
    ensures forall t :: t in tags[1..] <==> exists p :: p in ps && t in p.tags
    ensures NoDuplicates(tags[1..])
    ensures forall i, j :: 1 <= i < j < |tags| ==>
      tags[i] in Flatten(ps) && tags[j] in Flatten(ps) &&
      FirstIndex(Flatten(ps), tags[i]) < FirstIndex(Flatten(ps), tags[j])
  {
    var distinct := Distinct(Flatten(ps));
    assert ([AllFilter] + distinct)[1..] == distinct;
    [AllFilter] + distinct
  }

  /** `a` is `b` with some elements left out, the others kept in order. */
  predicate IsSubsequence<T(==)>(a: seq<T>, b: seq<T>)
    decreases |b|
  {
    if b == [] then a == []
    else (a != [] && a[0] == b[0] && IsSubsequence(a[1..], b[1..])) || IsSubsequence(a, b[1..])
  }

  /** `projects.filter(p => p.tags.includes(tag))`. */
  function FilterByTag(ps: seq<Project>, tag: string): (r: seq<Project>)
    ensures IsSubsequence(r, ps)
    ensures forall p :: multiset(r)[p] == if tag in p.tags then multiset(ps)[p] else 0
    decreases |ps|
  {
    if ps == [] then []
    else
      var rest := FilterByTag(ps[1..], tag);
      assert ps == [ps[0]] + ps[1..];
      if tag in ps[0].tags then
        assert ([ps[0]] + rest)[1..] == rest;
        [ps[0]] + rest
      else
        rest
  }

  /** `filteredProjects`: the whole list for `'All'`, otherwise exactly the projects
      carrying the active tag, each as often as in the list, in their original order. */
  function VisibleProjects(ps: seq<Project>, activeFilter: string): (r: seq<Project>)
    ensures activeFilter == AllFilter ==> r == ps
    ensures IsSubsequence(r, ps)
    ensures activeFilter != AllFilter ==>
      forall p :: multiset(r)[p] == if activeFilter in p.tags then multiset(ps)[p] else 0
    ensures activeFilter != AllFilter && (forall p :: p in ps ==> activeFilter !in p.tags) ==> r == []
  {
    if activeFilter == AllFilter then
      SubsequenceOfItself(ps);
      ps
    else
      var r := FilterByTag(ps, activeFilter);
      assert (forall p :: p in ps ==> activeFilter !in p.tags) ==> multiset(r) == multiset{};
      r
  }

  lemma {:induction false} SubsequenceOfItself<T>(s: seq<T>)
    ensures IsSubsequence(s, s)
    decreases |s|
  {
    if s != [] {
      SubsequenceOfItself(s[1..]);
    }
  }

  /** The section opens with every project shown. */
  lemma InitiallyAllShown(ps: seq<Project>)
    ensures VisibleProjects(ps, InitialFilter) == ps
  {
  }
}
