/** The records of types.ts that the feed pipeline and the application state use, the
    parsed feed entry the pipeline reads, and the string-keyed dictionary of news groups. */
module Types {
  import opened Text

  datatype Region = Global | Egypt | MENA {
    function Name(): string {
      match this
      case Global => "Global"
      case Egypt => "Egypt"
      case MENA => "MENA"
    }
  }

  /** NewsItem.category: 'Tech' | 'Startup' | 'Economy'. */
  datatype NewsCategory = TechNews | StartupNews | EconomyNews

  /** ResourceItem.type. */
  datatype ResourceType = NewsSource | StartupSource | EventSource | PodcastSource
                        | NewsletterSource | OtherSource

  /** A news item; `date` is the UTC calendar day (days since 1970-01-01) that the source
      keeps as an ISO `YYYY-MM-DD` string. */
  datatype NewsItem = NewsItem(
    id: string,
    title: string,
    description: string,
    url: string,
    source: string,
    date: int,
    region: Region,
    category: NewsCategory,
    sector: string,
    imageUrl: string,
    tags: seq<string>)

  /** The sort key of both fetchers' `sortByDate` and of the Startups list. */
  function DateKey(n: NewsItem): int {
    n.date
  }

  datatype PodcastItem = PodcastItem(
    id: string,
    title: string,
    description: string,
    url: string,
    source: string,
    date: int,
    region: Region,
    imageUrl: string,
    duration: string,
    summaryPoints: seq<string>,
    language: string,
    topic: string,
    youtubeUrl: Option<string>,
    audioUrl: Option<string>,
    channelUrl: Option<string>)

  /** A registered data source (ResourceItem). */
  datatype Resource = Resource(
    id: string,
    name: string,
    url: string,
    rssUrl: Option<string>,
    kind: ResourceType,
    description: Option<string>)

  datatype Role = UserRole | ModelRole

  datatype ChatMessage = ChatMessage(id: string, role: Role, content: string, timestamp: int)

  // ---------------------------------------------------------------------------
  // A parsed feed entry
  // ---------------------------------------------------------------------------

  /** An RSS `<item>` or an Atom `<entry>`. */
  datatype EntryKind = RssItem | AtomEntry

  /** An `<enclosure>` element with its `type` and `url` attributes (None: attribute absent). */
  datatype Enclosure = Enclosure(mime: Option<string>, url: Option<string>)

  /** What the DOM queries of the two fetchers read from one entry. Text fields hold the
      element's text content, or "" when the element is absent; `linkHref` is the `href`
      attribute of the first `<link>` ("" when absent); `mediaDescription` is the text of
      `media:group > media:description` when both exist; `mediaContentUrl` and
      `mediaThumbnailUrl` are present when the element exists and hold its `url`
      attribute ("" when absent); `itunesImage` is the `href` of `itunes:image`. */
  datatype Entry = Entry(
    kind: EntryKind,
    title: string,
    linkText: string,
    linkHref: string,
    pubDate: string,
    published: string,
    description: string,
    mediaDescription: Option<string>,
    contentEncoded: string,
    videoId: string,
    enclosure: Option<Enclosure>,
    itunesImage: string,
    mediaContentUrl: Option<string>,
    mediaThumbnailUrl: Option<string>)

  // ---------------------------------------------------------------------------
  // The outside world of a sync: network, clock, date parser, random numbers
  // ---------------------------------------------------------------------------

  const MsPerDay: int := 86400000

  /** `d.toISOString().split('T')[0]` as a day number: the UTC day of the instant `ms`
      (Dafny's division rounds down for a positive divisor, as calendar days do). */
  function DayOf(ms: int): int {
    ms / MsPerDay
  }

  /** Everything a sync reads besides its arguments. `fetch(url)` is the parsed entry list
      of the feed at `url` (None when the request fails, is not ok, or does not parse);
      `parse(text)` is `new Date(text).getTime()` (None for an invalid date); `now` is the
      clock in milliseconds; `stamp(f, e)` and `noise(f, e)` stand for the
      `Date.now()`/`Math.random()` text drawn for entry `e` of feed `f`, the first for ids
      and the second for placeholder images. */
  datatype Env = Env(
    fetch: string -> Option<seq<Entry>>,
    parse: string -> Option<int>,
    now: int,
    stamp: (nat, nat) -> string,
    noise: (nat, nat) -> string)

  /** The random placeholder picture both fetchers fall back to, before its number. */
  const PicsumPrefix: string := "https://picsum.photos/800/400?random="

  /** The picture both fetchers take from an entry's HTML: the capture of
      /<img[^>]+src="([^">]+)"/, else the random placeholder. */
  function ExtractImage(content: string, noise: string): string {
    match ImgSrc(content)
    case Some(v) => v
    case None => PicsumPrefix + noise
  }

  /** When the pattern matches, the picture is the value of its reported match (the last
      `src="` the leftmost `<img` tag allows), a `src` value that appears in the content;
      when it matches nowhere, and in particular when the content has no "<img", the
      picture is the placeholder. */
  lemma ExtractImageFacts(content: string, noise: string)
    ensures var r := ExtractImage(content, noise);
      && ((exists i: nat, p: nat :: ImgMatchAt(content, i, p)) ==>
            && (exists i: nat, p: nat :: FirstImgMatch(content, i, p) && SrcAt(content, p) == Some(r))
            && IsSrcValue(r) && Contains(content, "src=\"" + r + "\""))
      && ((forall i: nat, p: nat :: !ImgMatchAt(content, i, p)) ==> r == PicsumPrefix + noise)
      && (!Contains(content, "<img") ==> r == PicsumPrefix + noise)
  {
    ImgSrcFacts(content);
  }

  function Today(env: Env): int {
    DayOf(env.now)
  }

  // ---------------------------------------------------------------------------
  // Record<string, NewsItem[]>: keys in insertion order
  // ---------------------------------------------------------------------------

  datatype Group = Group(source: string, items: seq<NewsItem>)

  /** `Object.keys(groups)`. */
  function Sources(gs: seq<Group>): (r: seq<string>)
    ensures |r| == |gs|
    ensures forall i :: 0 <= i < |gs| ==> r[i] == gs[i].source
  {
    if gs == [] then [] else [gs[0].source] + Sources(gs[1..])
  }

  ghost predicate DistinctSources(gs: seq<Group>) {
    forall i, j :: 0 <= i < j < |gs| ==> gs[i].source != gs[j].source
  }

  /** `groups[name]`. */
  function Lookup(gs: seq<Group>, name: string): (r: Option<seq<NewsItem>>)
    ensures r.Some? <==> name in Sources(gs)
    ensures r.Some? ==> exists i :: 0 <= i < |gs| && gs[i] == Group(name, r.value)
  {
    if gs == [] then None
    else if gs[0].source == name then Some(gs[0].items)
    else Lookup(gs[1..], name)
  }

  /** `groups[name] = items`: an existing key keeps its place, a new key goes last. */
  function Assign(gs: seq<Group>, name: string, items: seq<NewsItem>): (r: seq<Group>)
    ensures |r| == if name in Sources(gs) then |gs| else |gs| + 1
  {
    if gs == [] then [Group(name, items)]
    else if gs[0].source == name then [Group(name, items)] + gs[1..]
    else
      assert Sources(gs) == [gs[0].source] + Sources(gs[1..]);
      [gs[0]] + Assign(gs[1..], name, items)
  }

  lemma {:induction false} AssignSources(gs: seq<Group>, name: string, items: seq<NewsItem>)
    ensures Sources(Assign(gs, name, items))
            == if name in Sources(gs) then Sources(gs) else Sources(gs) + [name]
  {
    var r := Assign(gs, name, items);
    if gs == [] {
    } else if gs[0].source == name {
      assert r[1..] == gs[1..];
      assert Sources(r) == [name] + Sources(gs[1..]);
      assert Sources(gs) == [name] + Sources(gs[1..]);
    } else {
      AssignSources(gs[1..], name, items);
      assert r[1..] == Assign(gs[1..], name, items);
      assert Sources(r) == [gs[0].source] + Sources(r[1..]);
      assert Sources(gs) == [gs[0].source] + Sources(gs[1..]);
    }
  }

  lemma {:induction false} AssignLookup(gs: seq<Group>, name: string, items: seq<NewsItem>, n: string)
    ensures Lookup(Assign(gs, name, items), n) == if n == name then Some(items) else Lookup(gs, n)
  {
    var r := Assign(gs, name, items);
    if gs == [] {
    } else if gs[0].source == name {
      assert r[1..] == gs[1..];
    } else {
      AssignLookup(gs[1..], name, items, n);
      assert r[1..] == Assign(gs[1..], name, items);
    }
  }

  lemma AssignDistinct(gs: seq<Group>, name: string, items: seq<NewsItem>)
    requires DistinctSources(gs)
    ensures DistinctSources(Assign(gs, name, items))
  {
    var r := Assign(gs, name, items);
    AssignSources(gs, name, items);
    var sg := Sources(gs);
    var sr := Sources(r);
    forall i, j | 0 <= i < j < |r| ensures r[i].source != r[j].source {
      assert sr[i] == r[i].source && sr[j] == r[j].source;
      if name in sg {
        assert sr == sg;
      } else {
        assert sr == sg + [name];
        if j == |gs| {
          assert sg[i] == gs[i].source;
        }
      }
    }
  }

  /** `groups[name].push(item)` guarded by `if (groups[name])`: no-op for a missing key. */
  function Append(gs: seq<Group>, name: string, item: NewsItem): (r: seq<Group>)
    ensures Lookup(gs, name).None? ==> r == gs
  {
    match Lookup(gs, name)
    case None => gs
    case Some(items) => Assign(gs, name, items + [item])
  }

  lemma AppendFacts(gs: seq<Group>, name: string, item: NewsItem, n: string)
    ensures Sources(Append(gs, name, item)) == Sources(gs)
    ensures Lookup(Append(gs, name, item), n)
            == if n == name && Lookup(gs, name).Some? then Some(Lookup(gs, name).value + [item])
               else Lookup(gs, n)
    ensures DistinctSources(gs) ==> DistinctSources(Append(gs, name, item))
  {
    match Lookup(gs, name)
    case None =>
    case Some(items) =>
      AssignSources(gs, name, items + [item]);
      AssignLookup(gs, name, items + [item], n);
      if DistinctSources(gs) { AssignDistinct(gs, name, items + [item]); }
  }

  /** `Object.values(groups).flat()`. */
  function Flatten(gs: seq<Group>): (r: seq<NewsItem>)
  {
    if gs == [] then [] else gs[0].items + Flatten(gs[1..])
  }

  function TotalItems(gs: seq<Group>): nat {
    if gs == [] then 0 else |gs[0].items| + TotalItems(gs[1..])
  }

  lemma {:induction false} FlattenLength(gs: seq<Group>)
    ensures |Flatten(gs)| == TotalItems(gs)
  {
    if gs != [] {
      FlattenLength(gs[1..]);
    }
  }

  /** Every item of the flattened dictionary comes from one of its groups and back. */
  lemma {:induction false} FlattenMembers(gs: seq<Group>, x: NewsItem)
    ensures x in Flatten(gs) <==> exists i :: 0 <= i < |gs| && x in gs[i].items
  {
    if gs != [] {
      FlattenMembers(gs[1..], x);
      if x in Flatten(gs[1..]) {
        var i :| 0 <= i < |gs[1..]| && x in gs[1..][i].items;
        assert x in gs[i + 1].items;
      }
      if exists i :: 0 <= i < |gs| && x in gs[i].items {
        var i :| 0 <= i < |gs| && x in gs[i].items;
        if i > 0 { assert x in gs[1..][i - 1].items; }
      }
    }
  }

  /** Flattening and counting distribute over concatenation. */
  lemma {:induction false} FlattenAppend(a: seq<Group>, b: seq<Group>)
    ensures Flatten(a + b) == Flatten(a) + Flatten(b)
  {
    if a == [] {
      assert a + b == b;
    } else {
      assert (a + b)[0] == a[0] && (a + b)[1..] == a[1..] + b;
      FlattenAppend(a[1..], b);
    }
  }

  lemma {:induction false} TotalItemsAppend(a: seq<Group>, b: seq<Group>)
    ensures TotalItems(a + b) == TotalItems(a) + TotalItems(b)
  {
    if a == [] {
      assert a + b == b;
    } else {
      assert (a + b)[0] == a[0] && (a + b)[1..] == a[1..] + b;
      TotalItemsAppend(a[1..], b);
    }
  }
}
