/** context/AppContext.tsx: the application state the provider keeps (favorites, saved
    chats, the news lists, the grouped startups, the resources, the podcasts and the
    last-fetch stamp), the updater functions its setters apply, and the refresh that
    replaces the feeds from the fetcher's result. */
module AppContext {
  import opened Text
  import opened Types
  import opened Sorting
  import Config
  import RssFetcher

  // ---------------------------------------------------------------------------
  // toggleFavorite
  // ---------------------------------------------------------------------------

  /** `prev.includes(id) ? prev.filter(fid => fid !== id) : [...prev, id]`. */
  function Toggled(prev: seq<string>, id: string): seq<string> {
    if id in prev then Filter(prev, fid => fid != id) else prev + [id]
  }

  /** A present id is removed everywhere, every other id staying in its order; an absent
      id is appended. */
  lemma ToggledFacts(prev: seq<string>, id: string)
    ensures id in prev ==> id !in Toggled(prev, id) && IsSubsequence(Toggled(prev, id), prev)
                           && forall y :: y != id ==> (y in Toggled(prev, id) <==> y in prev)
    ensures id !in prev ==> Toggled(prev, id) == prev + [id]
  {
    FilterFacts(prev, fid => fid != id);
  }

  /** Toggling an absent id twice gives the list back. */
  lemma ToggleTwice(prev: seq<string>, id: string)
    requires id !in prev
    ensures Toggled(Toggled(prev, id), id) == prev
  {
    var p := fid => fid != id;
    assert id in prev + [id];
    FilterSnoc(prev, id, p);
    FilterFacts(prev, p);
  }

  // ---------------------------------------------------------------------------
  // deleteItem(id, 'resources')
  // ---------------------------------------------------------------------------

  /** `prev.filter(i => i.id !== id)`. */
  function WithoutId(prev: seq<Resource>, id: string): seq<Resource> {
    Filter(prev, (r: Resource) => r.id != id)
  }

  /** Exactly the resources with that id go; the others stay, in order. */
  lemma WithoutIdFacts(prev: seq<Resource>, id: string)
    ensures forall r :: r in WithoutId(prev, id) <==> r in prev && r.id != id
    ensures IsSubsequence(WithoutId(prev, id), prev)
    ensures (forall r :: r in prev ==> r.id != id) ==> WithoutId(prev, id) == prev
  {
    FilterFacts(prev, (r: Resource) => r.id != id);
  }

  // ---------------------------------------------------------------------------
  // saveCurrentChat
  // ---------------------------------------------------------------------------

  datatype SavedChat = SavedChat(id: string, title: string, messages: seq<ChatMessage>, date: string)

  /** The clock readings a save uses: `Date.now().toString()`, `toLocaleDateString()` and
      `toISOString()`. */
  datatype ChatClock = ChatClock(stamp: string, localDate: string, iso: string)

  /** `messages[0]?.content`. */
  function FirstContent(messages: seq<ChatMessage>): Option<string> {
    if messages == [] then None else Some(messages[0].content)
  }

  function ChatTitle(messages: seq<ChatMessage>, clock: ChatClock): string
    requires messages != []
  {
    "Chat " + clock.localDate + " - " + Prefix(messages[0].content, 20) + Ellipsis
  }

  /** The saved chats after saving `messages`: nothing for an empty conversation; the top
      chat updated in place when it starts with the same message; a new chat on top
      otherwise. */
  function ChatsAfterSave(prev: seq<SavedChat>, messages: seq<ChatMessage>, clock: ChatClock): seq<SavedChat> {
    if messages == [] then prev
    else if |prev| > 0 && FirstContent(prev[0].messages) == FirstContent(messages) then
      prev[0 := prev[0].(messages := messages, date := clock.iso)]
    else
      [SavedChat(clock.stamp, ChatTitle(messages, clock), messages, clock.iso)] + prev
  }

  /** The three outcomes of a save and what each keeps. */
  lemma ChatsAfterSaveFacts(prev: seq<SavedChat>, messages: seq<ChatMessage>, clock: ChatClock)
    ensures var r := ChatsAfterSave(prev, messages, clock);
      && (messages == [] ==> r == prev)
      && (messages != [] && |prev| > 0 && FirstContent(prev[0].messages) == Some(messages[0].content) ==>
            && |r| == |prev| && r[1..] == prev[1..]
            && r[0].id == prev[0].id && r[0].title == prev[0].title
            && r[0].messages == messages && r[0].date == clock.iso)
      && (messages != [] && !(|prev| > 0 && FirstContent(prev[0].messages) == Some(messages[0].content)) ==>
            && |r| == |prev| + 1 && r[1..] == prev
            && r[0].id == clock.stamp && r[0].messages == messages
            && r[0].title == "Chat " + clock.localDate + " - " + Prefix(messages[0].content, 20) + "...")
  {
  }

  // ---------------------------------------------------------------------------
  // refreshCategoryFeed: startups flattened, podcasts merged
  // ---------------------------------------------------------------------------

  /** `Object.values(startups).flat()` sorted newest first. */
  function FlatStartups(groups: seq<Group>): seq<NewsItem> {
    SortDesc(Flatten(groups), DateKey)
  }

  /** Every item of every group, once per occurrence, newest first. */
  lemma FlatStartupsFacts(groups: seq<Group>)
    ensures |FlatStartups(groups)| == TotalItems(groups)
    ensures SortedDesc(FlatStartups(groups), DateKey)
    ensures multiset(FlatStartups(groups)) == multiset(Flatten(groups))
    ensures forall x :: x in FlatStartups(groups) <==> exists i :: 0 <= i < |groups| && x in groups[i].items
  {
    FlattenLength(groups);
    forall x ensures x in FlatStartups(groups) <==> exists i :: 0 <= i < |groups| && x in groups[i].items {
      SortedMembers(Flatten(groups), DateKey, x);
      FlattenMembers(groups, x);
    }
  }

  function PodcastUrls(ps: seq<PodcastItem>): set<string> {
    set p | p in ps :: p.url
  }

  /** `p => !existingUrls.has(p.url)`. */
  function NotYetListed(prev: seq<PodcastItem>): PodcastItem -> bool {
    (p: PodcastItem) => p.url !in PodcastUrls(prev)
  }

  /** `[...fetched.filter(p => !existingUrls.has(p.url)), ...prev]`. */
  function MergePodcasts(prev: seq<PodcastItem>, fetched: seq<PodcastItem>): seq<PodcastItem> {
    Filter(fetched, NotYetListed(prev)) + prev
  }

  lemma NotYetListedIff(prev: seq<PodcastItem>, p: PodcastItem)
    ensures NotYetListed(prev)(p) <==> forall q :: q in prev ==> q.url != p.url
  {
    if exists q :: q in prev && q.url == p.url {
      var q :| q in prev && q.url == p.url;
      assert q.url in PodcastUrls(prev);
    }
  }

  /** The previous podcasts stay intact at the end; in front come exactly the fetched
      episodes whose url no previous episode has, in their fetched order. */
  lemma MergePodcastsFacts(prev: seq<PodcastItem>, fetched: seq<PodcastItem>)
    ensures var r := MergePodcasts(prev, fetched);
      var front := r[..|r| - |prev|];
      && |r| >= |prev| && r[|r| - |prev|..] == prev
      && IsSubsequence(front, fetched)
      && (forall p :: p in front <==> p in fetched && forall q :: q in prev ==> q.url != p.url)
  {
    var front := Filter(fetched, NotYetListed(prev));
    FilterFacts(fetched, NotYetListed(prev));
    var r := front + prev;
    assert r[..|r| - |prev|] == front && r[|r| - |prev|..] == prev;
    forall p ensures p in front <==> p in fetched && forall q :: q in prev ==> q.url != p.url {
      NotYetListedIff(prev, p);
    }
  }

  // ---------------------------------------------------------------------------
  // The auto-refresh rule
  // ---------------------------------------------------------------------------

  /** `!lastFetch || now - parseInt(lastFetch) > oneDay`: no stamp (or an empty one)
      refreshes; an unreadable stamp gives NaN, and a comparison with NaN is false. */
  predicate ShouldAutoRefresh(lastFetch: Option<string>, now: int) {
    || lastFetch.None?
    || lastFetch.value == ""
    || (ParseInt(lastFetch.value).Some? && now - ParseInt(lastFetch.value).value > MsPerDay)
  }

  /** After a refresh stamped at `t`, the next mount refreshes exactly when more than a
      day has passed since `t`. */
  lemma AutoRefreshAfterStamp(t: nat, now: int)
    ensures ShouldAutoRefresh(Some(NatToString(t)), now) <==> now - t > MsPerDay
  {
    ParseIntRoundTrip(t);
  }

  /** A stamp that is not a number never triggers a refresh. */
  lemma UnreadableStampNeverRefreshes(stamp: string, now: int)
    requires stamp != "" && ParseInt(stamp).None?
    ensures !ShouldAutoRefresh(Some(stamp), now)
  {
  }

  // ---------------------------------------------------------------------------
  // The provider's state
  // ---------------------------------------------------------------------------

  /** The fields of the state, read together. */
  datatype AppData = AppData(
    favorites: seq<string>,
    savedChats: seq<SavedChat>,
    latestNews: seq<NewsItem>,
    startupNews: seq<NewsItem>,
    groupedStartups: seq<Group>,
    resources: seq<Resource>,
    podcasts: seq<PodcastItem>,
    lastFetch: Option<string>)

  /** The state after a refresh whose fetch resolved to `res`, finished at `finishedAt`: a
      non-empty Latest result replaces the Latest list; the grouped startups are always
      replaced and the Startups list rebuilt from them; non-empty podcasts are merged in;
      the stamp becomes `finishedAt`. */
  function Refreshed(d: AppData, res: RssFetcher.FetchResult, finishedAt: nat): AppData {
    d.(latestNews := if |res.latest| > 0 then res.latest else d.latestNews,
       groupedStartups := res.startups,
       startupNews := FlatStartups(res.startups),
       podcasts := if |res.podcasts| > 0 then MergePodcasts(d.podcasts, res.podcasts) else d.podcasts,
       lastFetch := Some(NatToString(finishedAt)))
  }

  /** What a refresh keeps and what it changes: favorites, chats and resources are left
      alone; an empty Latest result keeps the old list; the Startups list has one entry
      per grouped item; the old podcasts survive at the end; and the next mount within a
      day does not refresh again. */
  lemma RefreshedFacts(d: AppData, res: RssFetcher.FetchResult, finishedAt: nat, now: int)
    ensures var r := Refreshed(d, res, finishedAt);
      && r.favorites == d.favorites && r.savedChats == d.savedChats && r.resources == d.resources
      && (|res.latest| == 0 ==> r.latestNews == d.latestNews)
      && (|res.latest| > 0 ==> r.latestNews == res.latest)
      && r.groupedStartups == res.startups
      && |r.startupNews| == TotalItems(res.startups) && SortedDesc(r.startupNews, DateKey)
      && |r.podcasts| >= |d.podcasts| && r.podcasts[|r.podcasts| - |d.podcasts|..] == d.podcasts
      && (ShouldAutoRefresh(r.lastFetch, now) <==> now - finishedAt > MsPerDay)
  {
    FlatStartupsFacts(res.startups);
    if |res.podcasts| > 0 {
      MergePodcastsFacts(d.podcasts, res.podcasts);
    }
    AutoRefreshAfterStamp(finishedAt, now);
  }

  /** The stored values read at start-up (None: absent, or not parseable). */
  datatype Stored = Stored(
    favorites: Option<seq<string>>,
    savedChats: Option<seq<SavedChat>>,
    latestNews: Option<seq<NewsItem>>,
    startupNews: Option<seq<NewsItem>>,
    groupedStartups: Option<seq<Group>>,
    resources: Option<seq<Resource>>,
    podcasts: Option<seq<PodcastItem>>,
    lastFetch: Option<string>)

  function OrElse<T>(o: Option<T>, d: T): T {
    if o.Some? then o.value else d
  }

  class AppState {
    var favorites: seq<string>
    var savedChats: seq<SavedChat>
    var latestNews: seq<NewsItem>
    var startupNews: seq<NewsItem>
    var groupedStartups: seq<Group>
    var resources: seq<Resource>
    var podcasts: seq<PodcastItem>
    var lastFetch: Option<string>

    function Data(): AppData
      reads this
    {
      AppData(favorites, savedChats, latestNews, startupNews, groupedStartups, resources, podcasts, lastFetch)
    }

    /** The initial state: each stored value, else its default (the configured resources
        and the built-in podcast list for those two, empty otherwise). */
    constructor(stored: Stored, defaultPodcasts: seq<PodcastItem>)
      ensures Data() == AppData(
        OrElse(stored.favorites, []), OrElse(stored.savedChats, []),
        OrElse(stored.latestNews, []), OrElse(stored.startupNews, []),
        OrElse(stored.groupedStartups, []), OrElse(stored.resources, Config.Resources()),
        OrElse(stored.podcasts, defaultPodcasts), stored.lastFetch)
    {
      favorites := OrElse(stored.favorites, []);
      savedChats := OrElse(stored.savedChats, []);
      latestNews := OrElse(stored.latestNews, []);
      startupNews := OrElse(stored.startupNews, []);
      groupedStartups := OrElse(stored.groupedStartups, []);
      resources := OrElse(stored.resources, Config.Resources());
      podcasts := OrElse(stored.podcasts, defaultPodcasts);
      lastFetch := stored.lastFetch;
    }

    method ToggleFavorite(id: string)
      modifies this
      ensures Data() == old(Data()).(favorites := Toggled(old(favorites), id))
    {
      favorites := Toggled(favorites, id);
    }

    /** `addItem(category, item)`: a copy with a fresh id on top of the Latest or the
        Startups list; every other category is ignored. */
    method AddItem(category: string, item: NewsItem, stamp: string)
      modifies this
      ensures category == "latest" ==> Data() == old(Data()).(latestNews := [item.(id := stamp)] + old(latestNews))
      ensures category == "startup" ==> Data() == old(Data()).(startupNews := [item.(id := stamp)] + old(startupNews))
      ensures category != "latest" && category != "startup" ==> Data() == old(Data())
    {
      var newItem := item.(id := stamp);
      if category == "latest" {
        latestNews := [newItem] + latestNews;
      } else if category == "startup" {
        startupNews := [newItem] + startupNews;
      }
    }

    /** `deleteItem(id, category)`: only the resources category is handled. */
    method DeleteItem(id: string, category: string)
      modifies this
      ensures category == "resources" ==> Data() == old(Data()).(resources := WithoutId(old(resources), id))
      ensures category != "resources" ==> Data() == old(Data())
    {
      if category == "resources" {
        resources := WithoutId(resources, id);
      }
    }

    method AddResource(item: Resource)
      modifies this
      ensures Data() == old(Data()).(resources := [item] + old(resources))
    {
      resources := [item] + resources;
    }

    method SaveCurrentChat(messages: seq<ChatMessage>, clock: ChatClock)
      modifies this
      ensures Data() == old(Data()).(savedChats := ChatsAfterSave(old(savedChats), messages, clock))
    {
      if |messages| == 0 {
        return;
      }
      savedChats := ChatsAfterSave(savedChats, messages, clock);
    }

    /** `refreshCategoryFeed()`: fetches with the current resources and applies the
        result. */
    method RefreshCategoryFeed(env: Env, finishedAt: nat)
      modifies this
      ensures Data() == Refreshed(old(Data()), RssFetcher.ProcessFeeds(old(resources), env), finishedAt)
    {
      var res := RssFetcher.FetchAndProcessFeeds(resources, env);
      ApplyFetch(res, finishedAt);
    }

    /** The state updates after the fetcher resolved to `res`. */
    method ApplyFetch(res: RssFetcher.FetchResult, finishedAt: nat)
      modifies this
      ensures Data() == Refreshed(old(Data()), res, finishedAt)
    {
      if |res.latest| > 0 {
        latestNews := res.latest;
      }
      groupedStartups := res.startups;
      var flatStartups := SortDesc(Flatten(res.startups), DateKey);
      startupNews := flatStartups;
      if |res.podcasts| > 0 {
        podcasts := MergePodcasts(podcasts, res.podcasts);
      }
      lastFetch := Some(NatToString(finishedAt));
    }

    /** The mount effect: refresh when the stamp says so, otherwise leave everything. */
    method OnMount(env: Env, finishedAt: nat)
      modifies this
      ensures !ShouldAutoRefresh(old(lastFetch), env.now) ==> Data() == old(Data())
      ensures ShouldAutoRefresh(old(lastFetch), env.now) ==>
                Data() == Refreshed(old(Data()), RssFetcher.ProcessFeeds(old(resources), env), finishedAt)
    {
      if ShouldAutoRefresh(lastFetch, env.now) {
        RefreshCategoryFeed(env, finishedAt);
      }
    }
  }
}
