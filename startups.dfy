/** pages/Startups.tsx: the grouped Startups page. Groups are shown in key order; the
    source filter keeps one group, the search, region and sector filters keep articles,
    groups left empty are hidden, and the page counts what it shows. */
module Startups {
  import opened Text
  import opened Types
  import opened Sorting
  import AppContext
  import RssFetcher

  /** The page's filter state. */
  datatype Filters = Filters(search: string, region: string, source: string, sector: string)

  const AllOption: string := "All"

  /** The state `handleResetFilters` sets. */
  const ResetFilters: Filters := Filters("", AllOption, AllOption, AllOption)

  /** The article filter: the search term (lower-cased) occurs in the lower-cased title or
      description, and the region and sector filters are 'All' or equal the article's. */
  predicate Matches(item: NewsItem, f: Filters) {
    && (Contains(Lower(item.title), Lower(f.search)) || Contains(Lower(item.description), Lower(f.search)))
    && (f.region == AllOption || item.region.Name() == f.region)
    && (f.sector == AllOption || item.sector == f.sector)
  }

  function MatchesUnder(f: Filters): NewsItem -> bool {
    item => Matches(item, f)
  }

  /** The source filter lets this group through. */
  predicate Admits(g: Group, f: Filters) {
    f.source == AllOption || g.source == f.source
  }

  /** What one group contributes: nothing when the source filter skips it or no article
      passes, else the group with the passing articles. */
  function Shown(g: Group, f: Filters): seq<Group> {
    if !Admits(g, f) then []
    else
      var filtered := Filter(g.items, MatchesUnder(f));
      if |filtered| == 0 then [] else [Group(g.source, filtered)]
  }

  /** The groups the page shows, in key order. */
  function VisibleGroups(gs: seq<Group>, f: Filters): seq<Group> {
    if gs == [] then [] else VisibleGroups(gs[..|gs| - 1], f) + Shown(gs[|gs| - 1], f)
  }

  // ---------------------------------------------------------------------------
  // What the page shows
  // ---------------------------------------------------------------------------

  /** An empty search with the region and sector filters at 'All' lets every article
      through. */
  lemma DefaultFiltersMatchAll(item: NewsItem, source: string)
    ensures Matches(item, Filters("", AllOption, source, AllOption))
  {
    assert Lower("") == "";
    assert OccursAt(Lower(item.title), "", 0);
    ContainsWitness(Lower(item.title), "", 0);
  }

  /** Every shown group is non-empty, is let through by the source filter, and holds
      exactly the matching articles of the group of that name, in order. */
  ghost predicate ShownFrom(v: Group, gs: seq<Group>, f: Filters) {
    && v.items != []
    && (f.source != AllOption ==> v.source == f.source)
    && exists i :: 0 <= i < |gs| && gs[i].source == v.source && Admits(gs[i], f)
                   && v.items == Filter(gs[i].items, MatchesUnder(f))
  }

  /** The last group's contribution is appended after the others'. */
  lemma VisibleGroupsSnoc(gs: seq<Group>, f: Filters)
    requires gs != []
    ensures VisibleGroups(gs, f) == VisibleGroups(gs[..|gs| - 1], f) + Shown(gs[|gs| - 1], f)
  {
  }

  lemma {:induction false} VisibleGroupsShown(gs: seq<Group>, f: Filters)
    ensures forall v :: v in VisibleGroups(gs, f) ==> ShownFrom(v, gs, f)
  {
    if gs != [] {
      var init := gs[..|gs| - 1];
      var last := gs[|gs| - 1];
      VisibleGroupsShown(init, f);
      VisibleGroupsSnoc(gs, f);
      forall v | v in VisibleGroups(gs, f) ensures ShownFrom(v, gs, f) {
        if v in VisibleGroups(init, f) {
          assert ShownFrom(v, init, f);
          var i :| 0 <= i < |init| && init[i].source == v.source && Admits(init[i], f)
                   && v.items == Filter(init[i].items, MatchesUnder(f));
          assert gs[i] == init[i];
        } else {
          assert v in Shown(last, f);
          assert v == Group(last.source, Filter(last.items, MatchesUnder(f)));
        }
      }
    }
  }

  /** The shown groups keep the order of the dictionary's keys. */
  lemma {:induction false} VisibleGroupsOrdered(gs: seq<Group>, f: Filters)
    ensures IsSubsequence(Sources(VisibleGroups(gs, f)), Sources(gs))
  {
    if gs != [] {
      var init := gs[..|gs| - 1];
      var last := gs[|gs| - 1];
      VisibleGroupsOrdered(init, f);
      VisibleGroupsSnoc(gs, f);
      var vs := VisibleGroups(init, f);
      assert gs == init + [last];
      SourcesSnoc(init, last);
      SourcesAppend(vs, Shown(last, f));
      SubsequenceSnoc(Sources(vs), Sources(init), last.source);
      if Shown(last, f) == [] {
        assert VisibleGroups(gs, f) == vs;
      } else {
        assert Sources(Shown(last, f)) == [last.source];
      }
    }
  }

  lemma SourcesSnoc(gs: seq<Group>, g: Group)
    ensures Sources(gs + [g]) == Sources(gs) + [g.source]
  {
  }

  lemma SourcesAppend(a: seq<Group>, b: seq<Group>)
    ensures Sources(a + b) == Sources(a) + Sources(b)
  {
  }

  /** Some group the source filter lets through holds `x`, and `x` matches. */
  ghost predicate Admitted(gs: seq<Group>, f: Filters, x: NewsItem) {
    exists i :: 0 <= i < |gs| && Admits(gs[i], f) && x in gs[i].items && Matches(x, f)
  }

  lemma ShownMembers(g: Group, f: Filters, x: NewsItem)
    ensures x in Flatten(Shown(g, f)) <==> Admits(g, f) && x in g.items && Matches(x, f)
  {
    FilterFacts(g.items, MatchesUnder(f));
    if Admits(g, f) && Filter(g.items, MatchesUnder(f)) != [] {
      var v := Group(g.source, Filter(g.items, MatchesUnder(f)));
      assert Flatten([v]) == v.items + Flatten([]);
    }
  }

  lemma AdmittedSnoc(gs: seq<Group>, f: Filters, x: NewsItem)
    requires gs != []
    ensures Admitted(gs, f, x)
            <==> Admitted(gs[..|gs| - 1], f, x) || (Admits(gs[|gs| - 1], f) && x in gs[|gs| - 1].items && Matches(x, f))
  {
    var init := gs[..|gs| - 1];
    if Admitted(gs, f, x) {
      var i :| 0 <= i < |gs| && Admits(gs[i], f) && x in gs[i].items && Matches(x, f);
      if i < |init| {
        assert init[i] == gs[i];
      }
    }
    if Admitted(init, f, x) {
      var i :| 0 <= i < |init| && Admits(init[i], f) && x in init[i].items && Matches(x, f);
      assert gs[i] == init[i];
    }
  }

  /** An article is on the page exactly when its group is let through by the source
      filter and it matches. */
  lemma {:induction false} VisibleMembers(gs: seq<Group>, f: Filters, x: NewsItem)
    ensures x in Flatten(VisibleGroups(gs, f)) <==> Admitted(gs, f, x)
  {
    if gs != [] {
      var init := gs[..|gs| - 1];
      var last := gs[|gs| - 1];
      VisibleMembers(init, f, x);
      VisibleGroupsSnoc(gs, f);
      FlattenAppend(VisibleGroups(init, f), Shown(last, f));
      ShownMembers(last, f, x);
      AdmittedSnoc(gs, f, x);
    }
  }

  /** The empty-state message appears exactly when nothing is shown, which is exactly
      when no article of a group the source filter lets through matches. */
  lemma {:induction false} EmptyStateIff(gs: seq<Group>, f: Filters)
    ensures TotalItems(VisibleGroups(gs, f)) == 0 <==> VisibleGroups(gs, f) == []
    ensures VisibleGroups(gs, f) == [] <==> forall x :: !Admitted(gs, f, x)
  {
    var vs := VisibleGroups(gs, f);
    VisibleGroupsShown(gs, f);
    if vs != [] {
      assert vs[0] in vs;
      assert vs[0].items != [];
      PositiveTotal(vs);
      var x := vs[0].items[0];
      assert vs == [vs[0]] + vs[1..];
      FlattenAppend([vs[0]], vs[1..]);
      assert x in Flatten(vs);
      VisibleMembers(gs, f, x);
    } else {
      forall x ensures !Admitted(gs, f, x) {
        VisibleMembers(gs, f, x);
      }
    }
  }

  lemma PositiveTotal(gs: seq<Group>)
    requires gs != [] && gs[0].items != []
    ensures TotalItems(gs) > 0
  {
  }

  /** With the filters reset a group is shown whole, or hidden when it has no article. */
  lemma ResetShowsGroup(g: Group)
    ensures Shown(g, ResetFilters) == if g.items == [] then [] else [g]
  {
    forall y | y in g.items ensures MatchesUnder(ResetFilters)(y) {
      DefaultFiltersMatchAll(y, AllOption);
    }
    FilterFacts(g.items, MatchesUnder(ResetFilters));
  }

  /** After the filters are reset every article of every group is shown, in order. */
  lemma {:induction false} ResetShowsEverything(gs: seq<Group>)
    ensures Flatten(VisibleGroups(gs, ResetFilters)) == Flatten(gs)
  {
    if gs != [] {
      var init := gs[..|gs| - 1];
      var last := gs[|gs| - 1];
      ResetShowsEverything(init);
      VisibleGroupsSnoc(gs, ResetFilters);
      ResetShowsGroup(last);
      assert gs == init + [last];
      FlattenAppend(VisibleGroups(init, ResetFilters), Shown(last, ResetFilters));
      FlattenAppend(init, [last]);
      assert Flatten([last]) == last.items + Flatten([]);
    }
  }

  /** `Object.values(groupedStartups).some(arr => arr.length > 0)` is false. */
  predicate ShouldAutoSync(gs: seq<Group>) {
    forall i :: 0 <= i < |gs| ==> gs[i].items == []
  }

  lemma AutoSyncIffNoArticle(gs: seq<Group>)
    ensures ShouldAutoSync(gs) <==> Flatten(gs) == []
  {
    if ShouldAutoSync(gs) {
      if Flatten(gs) != [] {
        var x := Flatten(gs)[0];
        FlattenMembers(gs, x);
      }
    } else {
      var i :| 0 <= i < |gs| && gs[i].items != [];
      FlattenMembers(gs, gs[i].items[0]);
    }
  }

  // ---------------------------------------------------------------------------
  // The page
  // ---------------------------------------------------------------------------

  class StartupsPage {
    var searchTerm: string
    var regionFilter: string
    var sourceFilter: string
    var sectorFilter: string

    function Current(): Filters
      reads this
    {
      Filters(searchTerm, regionFilter, sourceFilter, sectorFilter)
    }

    constructor()
      ensures Current() == ResetFilters
    {
      searchTerm, regionFilter, sourceFilter, sectorFilter := "", AllOption, AllOption, AllOption;
    }

    /** `handleResetFilters`. */
    method ResetAll()
      modifies this
      ensures Current() == ResetFilters
    {
      regionFilter := AllOption;
      sourceFilter := AllOption;
      sectorFilter := AllOption;
      searchTerm := "";
    }

    /** The render pass over `Object.keys(groupedStartups)`: the groups it draws and the
        `totalVisibleItems` counter. */
    method Render(groups: seq<Group>) returns (shown: seq<Group>, totalVisibleItems: nat)
      ensures shown == VisibleGroups(groups, Current())
      ensures totalVisibleItems == TotalItems(shown)
    {
      var f := Current();
      shown := [];
      totalVisibleItems := 0;
      for k := 0 to |groups|
        invariant shown == VisibleGroups(groups[..k], f)
        invariant totalVisibleItems == TotalItems(shown)
      {
        assert groups[..k + 1][..k] == groups[..k];
        var sourceName := groups[k].source;
        if sourceFilter != AllOption && sourceName != sourceFilter {
          assert Shown(groups[k], f) == [];
          assert VisibleGroups(groups[..k + 1], f) == shown + [];
          continue;
        }
        var articles := groups[k].items;
        var filteredArticles := Filter(articles, MatchesUnder(f));
        if |filteredArticles| == 0 {
          assert VisibleGroups(groups[..k + 1], f) == shown + [];
          continue;
        }
        TotalItemsAppend(shown, [Group(sourceName, filteredArticles)]);
        totalVisibleItems := totalVisibleItems + |filteredArticles|;
        shown := shown + [Group(sourceName, filteredArticles)];
      }
      assert groups[..|groups|] == groups;
    }

    /** The mount effect: sync when no group has an article. */
    method OnMount(app: AppContext.AppState, env: Env, finishedAt: nat)
      modifies app
      ensures !ShouldAutoSync(old(app.groupedStartups)) ==> app.Data() == old(app.Data())
      ensures ShouldAutoSync(old(app.groupedStartups)) ==>
                app.Data() == AppContext.Refreshed(old(app.Data()), RssFetcher.ProcessFeeds(old(app.resources), env), finishedAt)
    {
      if ShouldAutoSync(app.groupedStartups) {
        app.RefreshCategoryFeed(env, finishedAt);
      }
    }
  }
}
