/**
 * What the resolver sees of Pivotal Tracker: projects (PivotalTracker::Project
 * .all) with their stories, and the lookup of a story by numeric id
 * (project.stories.find). Both are remote calls; here they are given lists.
 */
module Tracker {
  import opened Wrappers
  import opened RubyString

  datatype Story = Story(id: nat, name: string)

  datatype Project = Project(id: nat, name: string, stories: seq<Story>)

  /** project.stories.find id: the story with that id, or none. */
  function FindStory(stories: seq<Story>, id: int): (r: Option<Story>)
    ensures r.Some? ==> r.value in stories && r.value.id == id
    ensures r.None? <==> forall i :: 0 <= i < |stories| ==> stories[i].id != id
  {
    if stories == [] then None
    else if stories[0].id == id then Some(stories[0])
    else FindStory(stories[1..], id)
  }

  predicate SortedByName(ps: seq<Project>) {
    forall i, j :: 0 <= i < j < |ps| ==> NameLe(ps[i].name, ps[j].name)
  }

  /** One step of the insertion sort behind sort_by: p goes before the first
      project whose name it does not exceed. */
  function InsertByName(p: Project, ps: seq<Project>): seq<Project> {
    if ps == [] || NameLe(p.name, ps[0].name) then [p] + ps
    else [ps[0]] + InsertByName(p, ps[1..])
  }

  /** Inserting adds p and keeps every project of the list. */
  lemma {:induction false} InsertPermutes(p: Project, ps: seq<Project>)
    ensures multiset(InsertByName(p, ps)) == multiset(ps) + multiset{p}
  {
    if ps != [] && !NameLe(p.name, ps[0].name) {
      InsertPermutes(p, ps[1..]);
      assert ps == [ps[0]] + ps[1..];
    }
  }

  /** Inserting into a list sorted by name keeps it sorted by name. */
  lemma {:induction false} InsertSorted(p: Project, ps: seq<Project>)
    requires SortedByName(ps)
    ensures SortedByName(InsertByName(p, ps))
  {
    if ps == [] {
    } else if NameLe(p.name, ps[0].name) {
      BelowFirst(p, ps);
      SortedCons(p, ps);
    } else {
      NameLeTotal(p.name, ps[0].name);
      var rest := InsertByName(p, ps[1..]);
      InsertSorted(p, ps[1..]);
      InsertPermutes(p, ps[1..]);
      BoundByMultiset(ps[0], ps[1..], p, rest);
      SortedCons(ps[0], rest);
    }
  }

  /** A name at most the first name of a sorted list is at most all of them. */
  lemma BelowFirst(p: Project, ps: seq<Project>)
    requires SortedByName(ps) && ps != [] && NameLe(p.name, ps[0].name)
    ensures forall j :: 0 <= j < |ps| ==> NameLe(p.name, ps[j].name)
  {
    forall j | 0 < j < |ps| {
      NameLeTransitive(p.name, ps[0].name, ps[j].name);
    }
  }

  /** A project whose name is at most every name of a sorted list can go in
      front of it. */
  lemma SortedCons(q: Project, ps: seq<Project>)
    requires SortedByName(ps)
    requires forall j :: 0 <= j < |ps| ==> NameLe(q.name, ps[j].name)
    ensures SortedByName([q] + ps)
  {
    var r := [q] + ps;
    forall i, j | 0 <= i < j < |r|
      ensures NameLe(r[i].name, r[j].name)
    {
      if i > 0 {
        assert r[i] == ps[i - 1] && r[j] == ps[j - 1];
      } else {
        assert r[j] == ps[j - 1];
      }
    }
  }

  /** A lower bound for the names of ps and for the name of p bounds every
      name of a list holding the same projects as ps and p. */
  lemma BoundByMultiset(q: Project, ps: seq<Project>, p: Project, rest: seq<Project>)
    requires forall j :: 0 <= j < |ps| ==> NameLe(q.name, ps[j].name)
    requires NameLe(q.name, p.name)
    requires multiset(rest) == multiset(ps) + multiset{p}
    ensures forall j :: 0 <= j < |rest| ==> NameLe(q.name, rest[j].name)
  {
    forall j | 0 <= j < |rest|
      ensures NameLe(q.name, rest[j].name)
    {
      assert rest[j] in multiset(rest);
      if rest[j] != p {
        assert rest[j] in multiset(ps);
        var k :| 0 <= k < |ps| && ps[k] == rest[j];
      }
    }
  }

  /** projects.sort_by { |project| project.name }: the same projects, in
      ascending order of name. */
  function SortByName(ps: seq<Project>): (r: seq<Project>)
    ensures SortedByName(r)
    ensures multiset(r) == multiset(ps)
  {
    if ps == [] then []
    else
      var sorted := SortByName(ps[1..]);
      InsertSorted(ps[0], sorted);
      InsertPermutes(ps[0], sorted);
      assert ps == [ps[0]] + ps[1..];
      InsertByName(ps[0], sorted)
  }
}
