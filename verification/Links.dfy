/** Link conservation: what the loop of TransferLinks calls keeps, and what it counts. */
module Links {
  import opened Tables
  import opened Effects
  import opened Store

  /** The endpoints, two to a link, that are among the ids. */
  function EndpointsAmong(links: map<Id, Link>, ids: set<Id>): nat {
    |SourcesAmong(links, ids)| + |TargetsAmong(links, ids)|
  }

  lemma OneMore(before: set<Id>, after: set<Id>, l: Id, counts: bool)
    requires l !in before && forall k :: k in after <==> k in before || (k == l && counts)
    ensures |after| == |before| + if counts then 1 else 0
  {
    assert after == before + if counts then {l} else {};
  }

  /** An end among the ids counts for one, so a link with both ends there for two. */
  lemma EachEndCounts(links: map<Id, Link>, l: Id, link: Link, ids: set<Id>)
    requires l !in links
    ensures EndpointsAmong(map[], ids) == 0
    ensures EndpointsAmong(links[l := link], ids) ==
            EndpointsAmong(links, ids) + (if link.source in ids then 1 else 0) + (if link.target in ids then 1 else 0)
  {
    assert SourcesAmong(map[], ids) == {} && TargetsAmong(map[], ids) == {};
    OneMore(SourcesAmong(links, ids), SourcesAmong(links[l := link], ids), l, link.source in ids);
    OneMore(TargetsAmong(links, ids), TargetsAmong(links[l := link], ids), l, link.target in ids);
  }

  /** What the calls of the loop return, added up. */
  function Reported(links: map<Id, Link>, sources: seq<Id>, to: Id): nat {
    if sources == [] then 0
    else Endpoints(links, sources[0]) + Reported(Substituted(links, {sources[0]}, to), sources[1..], to)
  }

  lemma Parts(whole: set<Id>, a: set<Id>, b: set<Id>)
    requires a !! b && forall l :: l in whole <==> l in a || l in b
    ensures |whole| == |a| + |b|
  {
    assert whole == a + b;
  }

  lemma OneByOne(links: map<Id, Link>, a: Id, rest: set<Id>, to: Id)
    requires to != a && to !in rest
    ensures EndpointsAmong(links, {a} + rest) == Endpoints(links, a) + EndpointsAmong(Substituted(links, {a}, to), rest)
  {
    var moved := Substituted(links, {a}, to);
    Parts(SourcesAmong(links, {a} + rest), SourcesAmong(links, {a}), SourcesAmong(moved, rest));
    Parts(TargetsAmong(links, {a} + rest), TargetsAmong(links, {a}), TargetsAmong(moved, rest));
  }

  /** Each endpoint is counted once, by the call that renames it, even when a source is
      listed several times. */
  lemma {:induction false} ReportedIsRenamed(links: map<Id, Link>, sources: seq<Id>, to: Id)
    requires to !in sources
    ensures Reported(links, sources, to) == EndpointsAmong(links, Elements(sources))
  {
    if sources == [] {
      assert SourcesAmong(links, {}) == {} && TargetsAmong(links, {}) == {};
      assert Elements(sources) == {};
    } else {
      ReportedIsRenamed(Substituted(links, {sources[0]}, to), sources[1..], to);
      OneByOne(links, sources[0], Elements(sources[1..]), to);
      assert Elements(sources) == {sources[0]} + Elements(sources[1..]);
    }
  }

  /** No link is lost or made, none changes but in its endpoints, exactly the endpoints
      among the sources move, and none is left there. */
  lemma LinksAreConserved(links: map<Id, Link>, sources: seq<Id>, to: Id)
    requires to !in sources
    ensures var after := Substituted(links, Elements(sources), to);
            && after.Keys == links.Keys
            && (forall l | l in links ::
                  && after[l].(source := links[l].source, target := links[l].target) == links[l]
                  && (after[l].source == if links[l].source in sources then to else links[l].source)
                  && (after[l].target == if links[l].target in sources then to else links[l].target)
                  && !Touches(after[l], Elements(sources)))
            && EndpointsAmong(after, Elements(sources)) == 0
  {
    var after := Substituted(links, Elements(sources), to);
    assert SourcesAmong(after, Elements(sources)) == {} && TargetsAmong(after, Elements(sources)) == {};
  }
}
