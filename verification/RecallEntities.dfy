/**
 Which objects a walk over tool results finds, and in which order: every object with an entity id, wherever it is
 nested, outer before inner and in the order of the document.
 */
module RecallEntities {
  import opened Prelude
  import opened EntityIds
  import opened RecallTrace

  // ---- Nested values by path ----

  /** Where a value is nested: the position at each level, from the outside in. */
  type Path = seq<nat>

  function Values(members: seq<Field>): seq<Json> {
    seq(|members|, i requires 0 <= i < |members| => members[i].value)
  }

  function Children(v: Json): seq<Json> {
    match v
    case Array(items) => items
    case Object(members) => Values(members)
    case _ => []
  }

  /** The value at the path, if there is one. */
  function Inside(v: Json, path: Path): Option<Json>
    decreases |path|, 1
  {
    if path == [] then Some(v) else InsideAll(Children(v), path)
  }

  function InsideAll(children: seq<Json>, path: Path): Option<Json>
    decreases |path|, 0
  {
    if path == [] || path[0] >= |children| then None else Inside(children[path[0]], path[1..])
  }

  /** An outer value comes before what is nested in it, and siblings come in order. */
  predicate Precedes(p: Path, q: Path)
    decreases |p|
  {
    q != [] && (p == [] || p[0] < q[0] || (p[0] == q[0] && Precedes(p[1..], q[1..])))
  }

  /** The value is an object that carries this entity id. */
  predicate IsEntity(part: Option<Json>, visit: Visit) {
    && part == Some(Object(visit.members))
    && Get(visit.members, "id") == Some(String(visit.id))
    && IsEntityId(visit.id)
  }

  predicate EntityAt(v: Json, path: Path, visit: Visit) {
    IsEntity(Inside(v, path), visit)
  }

  predicate Ascending(paths: seq<Path>) {
    forall i, j :: 0 <= i < j < |paths| ==> Precedes(paths[i], paths[j])
  }

  /** The visits are the entities nested in the value, all of them, in order. */
  ghost predicate Lists(v: Json, visits: seq<Visit>, paths: seq<Path>) {
    && |visits| == |paths| && Ascending(paths)
    && (forall i :: 0 <= i < |paths| ==> IsEntity(Inside(v, paths[i]), visits[i]))
    && (forall path, visit :: IsEntity(Inside(v, path), visit) ==> path in paths)
  }

  ghost predicate ListsAll(children: seq<Json>, visits: seq<Visit>, paths: seq<Path>) {
    && |visits| == |paths| && Ascending(paths)
    && (forall i :: 0 <= i < |paths| ==> IsEntity(InsideAll(children, paths[i]), visits[i]))
    && (forall path, visit :: IsEntity(InsideAll(children, path), visit) ==> path in paths)
  }

  // ---- Putting lists together ----

  function Under(n: nat, paths: seq<Path>): seq<Path> {
    seq(|paths|, i requires 0 <= i < |paths| => [n] + paths[i])
  }

  lemma UnderHas(n: nat, paths: seq<Path>, path: Path)
    requires path in paths
    ensures [n] + path in Under(n, paths)
  {
    var i :| 0 <= i < |paths| && paths[i] == path;
    assert Under(n, paths)[i] == [n] + path;
  }

  lemma InsideLast(children: seq<Json>, child: Json, path: Path)
    ensures InsideAll(children + [child], path)
         == if path != [] && path[0] == |children| then Inside(child, path[1..]) else InsideAll(children, path)
  {
  }

  lemma InsideUnder(children: seq<Json>, child: Json, path: Path)
    ensures InsideAll(children + [child], [|children|] + path) == Inside(child, path)
  {
    assert ([|children|] + path)[1..] == path;
  }

  lemma UnderAscends(n: nat, paths: seq<Path>)
    requires Ascending(paths)
    ensures Ascending(Under(n, paths))
  {
    forall i, j | 0 <= i < j < |paths| ensures Precedes(Under(n, paths)[i], Under(n, paths)[j]) {
      assert ([n] + paths[i])[1..] == paths[i] && ([n] + paths[j])[1..] == paths[j];
    }
  }

  /** All of these paths lead into the first `n` children. */
  predicate Within(paths: seq<Path>, n: nat) {
    forall i :: 0 <= i < |paths| ==> paths[i] != [] && paths[i][0] < n
  }

  lemma ListedWithin(children: seq<Json>, visits: seq<Visit>, paths: seq<Path>)
    requires ListsAll(children, visits, paths)
    ensures Within(paths, |children|)
  {
    forall i | 0 <= i < |paths| ensures paths[i] != [] && paths[i][0] < |children| {
      assert IsEntity(InsideAll(children, paths[i]), visits[i]);
    }
  }

  lemma AscendsAcross(n: nat, a: seq<Path>, b: seq<Path>)
    requires Ascending(a) && Ascending(b) && Within(a, n)
    ensures Ascending(a + Under(n, b))
  {
    UnderAscends(n, b);
    var all := a + Under(n, b);
    forall i, j | 0 <= i < j < |all| ensures Precedes(all[i], all[j]) {
      if i < |a| && j >= |a| { assert all[j] == [n] + b[j - |a|]; }
    }
  }

  lemma OneMoreListed(children: seq<Json>, child: Json, visits: seq<Visit>, paths: seq<Path>, more: seq<Visit>, below: seq<Path>)
    requires ListsAll(children, visits, paths) && Lists(child, more, below)
    ensures ListsAll(children + [child], visits + more, paths + Under(|children|, below))
  {
    var n, all, found := |children|, paths + Under(|children|, below), visits + more;
    ListedWithin(children, visits, paths);
    AscendsAcross(n, paths, below);
    forall i | 0 <= i < |all| ensures IsEntity(InsideAll(children + [child], all[i]), found[i]) {
      if i < |paths| {
        assert IsEntity(InsideAll(children, paths[i]), visits[i]);
        InsideLast(children, child, paths[i]);
      } else {
        assert IsEntity(Inside(child, below[i - |paths|]), more[i - |paths|]);
        InsideUnder(children, child, below[i - |paths|]);
      }
    }
    forall path, visit | IsEntity(InsideAll(children + [child], path), visit) ensures path in all {
      InsideLast(children, child, path);
      if path != [] && path[0] == n {
        UnderHas(n, below, path[1..]);
        assert path == [n] + path[1..];
      }
    }
  }

  lemma NoneListed()
    ensures ListsAll([], [], [])
  {
  }

  lemma ArrayListed(items: seq<Json>, visits: seq<Visit>, paths: seq<Path>)
    requires ListsAll(items, visits, paths)
    ensures Lists(Array(items), visits, paths)
  {
    ListedWithin(items, visits, paths);
    forall i | 0 <= i < |paths| ensures IsEntity(Inside(Array(items), paths[i]), visits[i]) {
      assert IsEntity(InsideAll(items, paths[i]), visits[i]);
    }
    forall path, visit | IsEntity(Inside(Array(items), path), visit) ensures path in paths {
      assert IsEntity(InsideAll(items, path), visit);
    }
  }

  lemma OutermostFirst(paths: seq<Path>, n: nat)
    requires Ascending(paths) && Within(paths, n)
    ensures Ascending([[]] + paths)
  {
  }

  lemma InsideObject(members: seq<Field>, path: Path)
    ensures Inside(Object(members), path) == if path == [] then Some(Object(members)) else InsideAll(Values(members), path)
  {
  }

  lemma HereIs(members: seq<Field>, visit: Visit)
    ensures IsEntity(Some(Object(members)), visit) <==> Here(members) == [visit]
    ensures Here(members) == [] || (|Here(members)| == 1 && IsEntity(Some(Object(members)), Here(members)[0]))
  {
  }

  lemma AnonymousListed(members: seq<Field>, visits: seq<Visit>, paths: seq<Path>)
    requires ListsAll(Values(members), visits, paths) && Here(members) == []
    ensures Lists(Object(members), visits, paths)
  {
    ListedWithin(Values(members), visits, paths);
    forall i | 0 <= i < |paths| ensures IsEntity(Inside(Object(members), paths[i]), visits[i]) {
      assert IsEntity(InsideAll(Values(members), paths[i]), visits[i]);
      InsideObject(members, paths[i]);
    }
    forall path, visit | IsEntity(Inside(Object(members), path), visit) ensures path in paths {
      InsideObject(members, path);
      HereIs(members, visit);
      assert IsEntity(InsideAll(Values(members), path), visit);
    }
  }

  lemma EntityListed(members: seq<Field>, here: Visit, visits: seq<Visit>, paths: seq<Path>)
    requires ListsAll(Values(members), visits, paths) && IsEntity(Some(Object(members)), here)
    ensures Lists(Object(members), [here] + visits, [[]] + paths)
  {
    var all, found: seq<Visit> := [[]] + paths, [here] + visits;
    ListedWithin(Values(members), visits, paths);
    OutermostFirst(paths, |members|);
    forall i | 0 <= i < |all| ensures IsEntity(Inside(Object(members), all[i]), found[i]) {
      InsideObject(members, all[i]);
      if i > 0 { assert IsEntity(InsideAll(Values(members), paths[i - 1]), visits[i - 1]); }
    }
    forall path, visit | IsEntity(Inside(Object(members), path), visit) ensures path in all {
      InsideObject(members, path);
      if path == [] { assert all[0] == []; } else { assert IsEntity(InsideAll(Values(members), path), visit); }
    }
  }

  lemma ObjectListed(members: seq<Field>, visits: seq<Visit>, paths: seq<Path>)
    requires ListsAll(Values(members), visits, paths)
    ensures Lists(Object(members), Here(members) + visits, (if Here(members) == [] then [] else [[]]) + paths)
  {
    if Here(members) == [] {
      AnonymousListed(members, visits, paths);
      assert [] + paths == paths && [] + visits == visits;
    } else {
      HereIs(members, Here(members)[0]);
      EntityListed(members, Here(members)[0], visits, paths);
      assert Here(members) == [Here(members)[0]];
    }
  }

  lemma LeafListed(v: Json)
    requires !v.Array? && !v.Object?
    ensures Lists(v, [], [])
  {
    forall path, visit ensures !IsEntity(Inside(v, path), visit) {}
  }

  lemma ItemsMore(items: seq<Json>, n: nat)
    requires n < |items|
    ensures VisitsOfItems(items[..n + 1]) == VisitsOfItems(items[..n]) + Visits(items[n])
    ensures items[..n + 1] == items[..n] + [items[n]]
  {
    ItemsStep([], items, n);
    assert [] + VisitsOfItems(items[..n + 1]) == VisitsOfItems(items[..n + 1]);
    assert [] + VisitsOfItems(items[..n]) == VisitsOfItems(items[..n]);
  }

  lemma MembersMore(members: seq<Field>, n: nat)
    requires n < |members|
    ensures VisitsOfMembers(members[..n + 1]) == VisitsOfMembers(members[..n]) + Visits(members[n].value)
    ensures Values(members[..n + 1]) == Values(members[..n]) + [members[n].value]
  {
    MembersStep([], members, n);
    assert [] + VisitsOfMembers(members[..n + 1]) == VisitsOfMembers(members[..n + 1]);
    assert [] + VisitsOfMembers(members[..n]) == VisitsOfMembers(members[..n]);
  }

  // ---- The walk ----

  /** A walk visits exactly the objects nested in the value that carry an entity id, outer before inner and siblings in
      order. */
  lemma {:induction false} VisitsAreListed(v: Json) returns (paths: seq<Path>)
    ensures Lists(v, Visits(v), paths)
    decreases v, 0
  {
    match v
    case Array(items) =>
      paths := ItemsAreListed(items, |items|);
      assert items[..|items|] == items;
      ArrayListed(items, VisitsOfItems(items), paths);
    case Object(members) =>
      var below := MembersAreListed(members, |members|);
      assert members[..|members|] == members;
      ObjectListed(members, VisitsOfMembers(members), below);
      paths := (if Here(members) == [] then [] else [[]]) + below;
    case _ =>
      paths := [];
      LeafListed(v);
  }

  lemma {:induction false} ItemsAreListed(items: seq<Json>, n: nat) returns (paths: seq<Path>)
    requires n <= |items|
    ensures ListsAll(items[..n], VisitsOfItems(items[..n]), paths)
    decreases items, n + 1
  {
    if n == 0 {
      paths := [];
      NoneListed();
    } else {
      var before := ItemsAreListed(items, n - 1);
      var below := VisitsAreListed(items[n - 1]);
      OneMoreListed(items[..n - 1], items[n - 1], VisitsOfItems(items[..n - 1]), before, Visits(items[n - 1]), below);
      ItemsMore(items, n - 1);
      paths := before + Under(n - 1, below);
    }
  }

  lemma {:induction false} MembersAreListed(members: seq<Field>, n: nat) returns (paths: seq<Path>)
    requires n <= |members|
    ensures ListsAll(Values(members[..n]), VisitsOfMembers(members[..n]), paths)
    decreases members, n + 1
  {
    if n == 0 {
      paths := [];
      NoneListed();
    } else {
      var before := MembersAreListed(members, n - 1);
      var below := VisitsAreListed(members[n - 1].value);
      OneMoreListed(Values(members[..n - 1]), members[n - 1].value, VisitsOfMembers(members[..n - 1]), before,
                    Visits(members[n - 1].value), below);
      MembersMore(members, n - 1);
      paths := before + Under(n - 1, below);
    }
  }

  /** In particular, an object is visited if and only if it is nested in the value at some path and carries an entity
      id. */
  lemma VisitIff(v: Json, visit: Visit)
    ensures visit in Visits(v) <==> exists path: Path :: EntityAt(v, path, visit)
  {
    var paths := VisitsAreListed(v);
    if visit in Visits(v) {
      var i :| 0 <= i < |Visits(v)| && Visits(v)[i] == visit;
      assert EntityAt(v, paths[i], visit);
    }
    if exists path: Path :: EntityAt(v, path, visit) {
      var path: Path :| EntityAt(v, path, visit);
      assert path in paths;
      var i :| 0 <= i < |paths| && paths[i] == path;
      assert IsEntity(Inside(v, paths[i]), Visits(v)[i]);
      SameEntity(Inside(v, path), visit, Visits(v)[i]);
    }
  }

  lemma SameEntity(part: Option<Json>, a: Visit, b: Visit)
    requires IsEntity(part, a) && IsEntity(part, b)
    ensures a == b
  {
  }

  /** The outputs a trace is searched for entities: errored and missing ones show nothing. */
  function Searched(tools: seq<ToolTrace>): seq<Json> {
    seq(|tools|, i requires 0 <= i < |tools| =>
      if tools[i].output.None? || (tools[i].isError.Some? && tools[i].isError.value) then Null else tools[i].output.value)
  }

  /** The same over a whole trace: tool by tool, and within a tool as above. */
  lemma {:induction false} ShownIsListed(tools: seq<ToolTrace>) returns (paths: seq<Path>)
    ensures ListsAll(Searched(tools), Shown(tools), paths)
  {
    if tools == [] {
      paths := [];
      NoneListed();
    } else {
      var n := |tools| - 1;
      var before := ShownIsListed(tools[..n]);
      var output := Searched(tools)[n];
      var below := VisitsAreListed(output);
      OneMoreListed(Searched(tools[..n]), output, Shown(tools[..n]), before, Visits(output), below);
      paths := before + Under(n, below);
      assert Searched(tools) == Searched(tools[..n]) + [output];
      assert OutputVisits(tools[n]) == Visits(output);
    }
  }

  /** The trace shows the entity: some output holds an object with its id. */
  ghost predicate Shows(tools: seq<ToolTrace>, id: string) {
    exists path, members :: IsEntity(InsideAll(Searched(tools), path), Visit(id, members))
  }

  /** The entity ids of a trace, and so the entities its citations are of, are exactly those its outputs show at any
      depth. */
  lemma EntityIdsIff(tools: seq<ToolTrace>, id: string)
    ensures id in IdsOf(Shown(tools)) <==> Shows(tools, id)
    ensures Cited(CitationsOf(Shown(tools)), id) <==> Shows(tools, id)
  {
    var paths := ShownIsListed(tools);
    var visits := Shown(tools);
    CitedAreShown(visits, id);
    if id in IdsOf(visits) {
      var i :| 0 <= i < |visits| && visits[i].id == id;
      assert IsEntity(InsideAll(Searched(tools), paths[i]), Visit(id, visits[i].members));
    }
    if Shows(tools, id) {
      var path, members :| IsEntity(InsideAll(Searched(tools), path), Visit(id, members));
      var i :| 0 <= i < |paths| && paths[i] == path;
      assert IsEntity(InsideAll(Searched(tools), paths[i]), visits[i]);
      assert visits[i].id == id;
    }
  }

  /** The citations come in the order in which their entities are first shown. */
  lemma {:induction false} CitationOrder(visits: seq<Visit>) returns (ks: seq<nat>)
    ensures |ks| == |CitationsOf(visits)| && forall i, j :: 0 <= i < j < |ks| ==> ks[i] < ks[j]
    ensures forall i :: 0 <= i < |ks| ==> ks[i] < |visits| && FirstVisit(visits, ks[i]) && CitationsOf(visits)[i] == CitationOf(visits[ks[i]])
  {
    if visits == [] {
      ks := [];
    } else {
      var n := |visits| - 1;
      var init, v := visits[..n], visits[n];
      assert visits == init + [v];
      ks := CitationOrder(init);
      forall i | 0 <= i < |ks| ensures FirstVisit(visits, ks[i]) && visits[ks[i]] == init[ks[i]] {
        assert FirstVisit(init, ks[i]);
      }
      if !Cited(CitationsOf(init), v.id) {
        CitedAreShown(init, v.id);
        assert FirstVisit(visits, n);
        ks := ks + [n];
      }
    }
  }

  /** Each citation of a trace describes the first object that shows its entity: no path before shows it. */
  lemma CitationIsFirstShown(tools: seq<ToolTrace>, c: Citation) returns (path: Path, visit: Visit)
    requires c in CitationsOf(Shown(tools))
    ensures IsEntity(InsideAll(Searched(tools), path), visit) && c == CitationOf(visit)
    ensures forall earlier, other :: IsEntity(InsideAll(Searched(tools), earlier), other) && Precedes(earlier, path) ==> other.id != visit.id
  {
    var visits := Shown(tools);
    var paths := ShownIsListed(tools);
    CitationComesFirst(visits, c);
    var k :| 0 <= k < |visits| && FirstVisit(visits, k) && c == CitationOf(visits[k]);
    path, visit := paths[k], visits[k];
    forall earlier, other | IsEntity(InsideAll(Searched(tools), earlier), other) && Precedes(earlier, path)
      ensures other.id != visit.id
    {
      var i :| 0 <= i < |paths| && paths[i] == earlier;
      if i > k { AntiSymmetric(paths[k], paths[i]); } else if i == k { Irreflexive(path); }
      assert IsEntity(InsideAll(Searched(tools), paths[i]), visits[i]);
    }
  }

  lemma {:induction false} AntiSymmetric(p: Path, q: Path)
    requires Precedes(p, q)
    ensures !Precedes(q, p)
    decreases |p|
  {
    if p != [] && p[0] == q[0] { AntiSymmetric(p[1..], q[1..]); }
  }

  lemma {:induction false} Irreflexive(p: Path)
    ensures !Precedes(p, p)
    decreases |p|
  {
    if p != [] { Irreflexive(p[1..]); }
  }
}
