/** The source list both views derive from a message's events
    (frontend/src/components/ChatMessage.tsx, lines 17-23, and the same
    reduce in ResearchingIndicator.tsx, lines 18-24): the links of every
    `links_found` event, in order, each kept only when no link already
    collected has its URL. */
module Links {
  import opened Options
  import opened Types

  /** The URLs of `ls`. */
  function Urls(ls: seq<Link>): set<string> {
    if ls == [] then {} else Urls(ls[..|ls| - 1]) + {ls[|ls| - 1].url}
  }

  /** The links of `ls` whose URL is not among those of `acc`:
      `newLinks = links.filter(l => !acc.find(x => x.url === l.url))`. */
  function Fresh(acc: seq<Link>, ls: seq<Link>): seq<Link> {
    if ls == [] then []
    else Fresh(acc, ls[..|ls| - 1]) + (if ls[|ls| - 1].url in Urls(acc) then [] else [ls[|ls| - 1]])
  }

  /** One step of the reduce. */
  function AddEvent(acc: seq<Link>, e: AgentEvent): seq<Link> {
    if e.kind == "links_found" && e.links.Some? then acc + Fresh(acc, e.links.value) else acc
  }

  /** The reduce over the events, from the empty list. */
  function Collect(es: seq<AgentEvent>): seq<Link> {
    if es == [] then [] else AddEvent(Collect(es[..|es| - 1]), es[|es| - 1])
  }

  // ----- Reference: all found links, first occurrence of each URL -----

  /** Every link of every `links_found` event, in event order then list order. */
  function Found(es: seq<AgentEvent>): seq<Link> {
    if es == [] then []
    else
      var e := es[|es| - 1];
      Found(es[..|es| - 1]) + (if e.kind == "links_found" && e.links.Some? then e.links.value else [])
  }

  /** `acc` followed by the links of `ls` whose URL has not been seen yet,
      counting those just taken. */
  function DedupInto(acc: seq<Link>, ls: seq<Link>): seq<Link> {
    if ls == [] then acc
    else
      var d := DedupInto(acc, ls[..|ls| - 1]);
      if ls[|ls| - 1].url in Urls(d) then d else d + [ls[|ls| - 1]]
  }

  /** The first link of each URL, in order. */
  function Dedup(ls: seq<Link>): seq<Link> {
    DedupInto([], ls)
  }

  predicate DistinctUrls(ls: seq<Link>) {
    forall i, j :: 0 <= i < j < |ls| ==> ls[i].url != ls[j].url
  }

  /** No two links of one event share a URL. */
  predicate EventsHaveDistinctUrls(es: seq<AgentEvent>) {
    forall k :: 0 <= k < |es| && es[k].links.Some? ==> DistinctUrls(es[k].links.value)
  }

  // ----- Lemmas -----

  lemma {:induction false} UrlsMembers(ls: seq<Link>)
    ensures forall u :: u in Urls(ls) <==> exists i :: 0 <= i < |ls| && ls[i].url == u
  {
    if ls != [] {
      var init := ls[..|ls| - 1];
      UrlsMembers(init);
      forall u | u in Urls(ls)
        ensures exists i :: 0 <= i < |ls| && ls[i].url == u
      {
        if u in Urls(init) {
          var i :| 0 <= i < |init| && init[i].url == u;
          assert ls[i] == init[i];
        } else {
          assert ls[|ls| - 1].url == u;
        }
      }
      forall u | exists i :: 0 <= i < |ls| && ls[i].url == u
        ensures u in Urls(ls)
      {
        var i :| 0 <= i < |ls| && ls[i].url == u;
        if i < |init| {
          assert init[i] == ls[i];
        }
      }
    }
  }

  lemma {:induction false} UrlsAppend(a: seq<Link>, b: seq<Link>)
    ensures Urls(a + b) == Urls(a) + Urls(b)
    decreases |b|
  {
    if b == [] {
      assert a + b == a;
    } else {
      var init := b[..|b| - 1];
      assert (a + b)[..|a + b| - 1] == a + init;
      assert (a + b)[|a + b| - 1] == b[|b| - 1];
      UrlsAppend(a, init);
    }
  }

  lemma {:induction false} FreshUrls(acc: seq<Link>, ls: seq<Link>)
    ensures Urls(Fresh(acc, ls)) <= Urls(ls)
    ensures Urls(Fresh(acc, ls)) !! Urls(acc)
  {
    if ls != [] {
      var init := ls[..|ls| - 1];
      var last := ls[|ls| - 1];
      FreshUrls(acc, init);
      UrlsAppend(Fresh(acc, init), if last.url in Urls(acc) then [] else [last]);
      var single: seq<Link> := [last];
      assert Urls(single) == {last.url} by {
        assert single[..0] == [];
      }
    }
  }

  /** Filtering against the accumulator and taking links one at a time agree
      when the links of the step do not repeat a URL among themselves. */
  lemma {:induction false} AddIsDedup(acc: seq<Link>, ls: seq<Link>)
    requires DistinctUrls(ls)
    ensures acc + Fresh(acc, ls) == DedupInto(acc, ls)
  {
    if ls == [] {
      assert acc + [] == acc;
    } else {
      var init := ls[..|ls| - 1];
      var last := ls[|ls| - 1];
      AddIsDedup(acc, init);
      var d := DedupInto(acc, init);
      UrlsAppend(acc, Fresh(acc, init));
      FreshUrls(acc, init);
      UrlsMembers(init);
      assert last.url !in Urls(init);
      assert last.url in Urls(d) <==> last.url in Urls(acc);
      if last.url !in Urls(acc) {
        assert acc + (Fresh(acc, init) + [last]) == (acc + Fresh(acc, init)) + [last];
      } else {
        assert Fresh(acc, init) + [] == Fresh(acc, init);
      }
    }
  }

  lemma {:induction false} DedupIntoAppend(acc: seq<Link>, a: seq<Link>, b: seq<Link>)
    ensures DedupInto(acc, a + b) == DedupInto(DedupInto(acc, a), b)
    decreases |b|
  {
    if b == [] {
      assert a + b == a;
    } else {
      var init := b[..|b| - 1];
      assert (a + b)[..|a + b| - 1] == a + init;
      assert (a + b)[|a + b| - 1] == b[|b| - 1];
      DedupIntoAppend(acc, a, init);
    }
  }

  /** When no single event repeats a URL, the reduce keeps exactly the first
      link of each URL among all links found, in order. */
  lemma {:induction false} CollectIsDedup(es: seq<AgentEvent>)
    requires EventsHaveDistinctUrls(es)
    ensures Collect(es) == Dedup(Found(es))
  {
    if es != [] {
      var init := es[..|es| - 1];
      var e := es[|es| - 1];
      assert EventsHaveDistinctUrls(init) by {
        forall k | 0 <= k < |init| && init[k].links.Some?
          ensures DistinctUrls(init[k].links.value)
        {
          assert init[k] == es[k];
        }
      }
      CollectIsDedup(init);
      var step := if e.kind == "links_found" && e.links.Some? then e.links.value else [];
      DedupIntoAppend([], Found(init), step);
      if e.kind == "links_found" && e.links.Some? {
        AddIsDedup(Collect(init), e.links.value);
      } else {
        assert Found(init) + [] == Found(init);
      }
    }
  }

  /** Taking first occurrences keeps one link per URL, loses no URL, and
      keeps every link that is the first of its URL. */
  lemma {:induction false} DedupIntoSpec(acc: seq<Link>, ls: seq<Link>)
    requires DistinctUrls(acc)
    ensures DistinctUrls(DedupInto(acc, ls))
    ensures Urls(DedupInto(acc, ls)) == Urls(acc) + Urls(ls)
    ensures forall i :: 0 <= i < |ls| && ls[i].url !in Urls(acc) && ls[i].url !in Urls(ls[..i]) ==>
      ls[i] in DedupInto(acc, ls)
  {
    if ls != [] {
      var init := ls[..|ls| - 1];
      var last := ls[|ls| - 1];
      DedupIntoSpec(acc, init);
      var d := DedupInto(acc, init);
      UrlsMembers(d);
      if last.url !in Urls(d) {
        var r := d + [last];
        forall i, j | 0 <= i < j < |r|
          ensures r[i].url != r[j].url
        {
          if j == |r| - 1 {
            assert r[i] == d[i];
          }
        }
      }
      assert Urls(ls) == Urls(init) + {last.url};
      forall i | 0 <= i < |ls| && ls[i].url !in Urls(acc) && ls[i].url !in Urls(ls[..i])
        ensures ls[i] in DedupInto(acc, ls)
      {
        if i < |init| {
          assert ls[..i] == init[..i];
          assert init[i] == ls[i];
        } else {
          assert ls[..i] == init;
        }
      }
    }
  }

  /** What the views show as sources: for events whose lists do not repeat a
      URL, one link per URL found, none lost, and each the first link found
      with its URL, so its title is the first one seen. */
  lemma CollectSpec(es: seq<AgentEvent>)
    requires EventsHaveDistinctUrls(es)
    ensures DistinctUrls(Collect(es))
    ensures Urls(Collect(es)) == Urls(Found(es))
    ensures forall i :: 0 <= i < |Found(es)| && Found(es)[i].url !in Urls(Found(es)[..i]) ==>
      Found(es)[i] in Collect(es)
  {
    CollectIsDedup(es);
    DedupIntoSpec([], Found(es));
    assert Urls([]) == {};
  }

  /** Whatever the events, no URL found is lost. */
  lemma {:induction false} CollectUrls(es: seq<AgentEvent>)
    ensures Urls(Collect(es)) == Urls(Found(es))
  {
    if es != [] {
      var init := es[..|es| - 1];
      var e := es[|es| - 1];
      CollectUrls(init);
      if e.kind == "links_found" && e.links.Some? {
        var acc := Collect(init);
        var ls := e.links.value;
        UrlsAppend(acc, Fresh(acc, ls));
        UrlsAppend(Found(init), ls);
        FreshUrls(acc, ls);
        FreshCovers(acc, ls);
      } else {
        assert Found(init) + [] == Found(init);
      }
    }
  }

  /** Every URL of `ls` is either already in `acc` or taken. */
  lemma {:induction false} FreshCovers(acc: seq<Link>, ls: seq<Link>)
    ensures Urls(ls) <= Urls(acc) + Urls(Fresh(acc, ls))
  {
    if ls != [] {
      var init := ls[..|ls| - 1];
      var last := ls[|ls| - 1];
      FreshCovers(acc, init);
      UrlsAppend(Fresh(acc, init), if last.url in Urls(acc) then [] else [last]);
      var single: seq<Link> := [last];
      assert Urls(single) == {last.url} by {
        assert single[..0] == [];
      }
    }
  }

  /** The reduce compares against links from earlier events only: two links
      with one URL in the same event are both kept. */
  lemma RepeatWithinEventIsKept(l: Link)
    ensures Collect([AgentEvent("links_found", None, None, None, None, Some([l, l]))]) == [l, l]
  {
    var e := AgentEvent("links_found", None, None, None, None, Some([l, l]));
    var es := [e];
    assert es[..0] == [];
    var ls := [l, l];
    assert ls[..1] == [l] && [l][..0] == [];
    assert Fresh([], [l]) == [l];
  }
}
