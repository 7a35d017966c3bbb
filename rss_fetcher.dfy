/** utils/rssFetcher.ts: fetch every registered feed, turn its entries into podcast
    episodes or news items, group the news by source for the Startups page and rank the
    twelve top stories for the Latest page. */
module RssFetcher {
  import opened Text
  import opened Types
  import opened Sorting

  const ImportantKeywords: seq<string> := ["launch", "unveil", "acquire", "acquisition",
    "billion", "million", "ipo", "series a", "series b", "unicorn", "funding", "raise", "apple",
    "google", "openai", "meta", "nvidia", "amazon", "egypt", "saudi"]

  /** The alternatives of the relevance pattern `/tech|startup|...|mena/`. */
  const RelevanceTerms: seq<string> := ["tech", "startup", "fund", "invest", "business", "ai",
    "finance", "money", "market", "egypt", "mena"]

  const TrustedSources: seq<string> := ["TechCrunch", "The Verge", "PitchBook", "Wired"]

  const WatchPrefix: string := "https://www.youtube.com/watch?v="
  const ThumbPrefix: string := "https://img.youtube.com/vi/"
  const ThumbSuffix: string := "/mqdefault.jpg"
  const DescriptionLimit: nat := 200
  const TopCount: nat := 12

  // ---------------------------------------------------------------------------
  // identifySector
  // ---------------------------------------------------------------------------

  /** The sector of a text: the first rule of the table whose keywords occur in the
      lower-cased text decides (SectorIsFirstMatch shows this is the source's if-chain). */
  function IdentifySector(text: string): (r: string)
    ensures r in SectorLabels
  {
    RulesLabelled();
    FirstMatchLabelled(SectorRules, Lower(text), 0);
    FirstMatchFrom(SectorRules, Lower(text), 0)
  }

  /** The if-chain of `identifySector`, on the lower-cased text. */
  function SectorChain(lower: string): string
  {
    if Contains(lower, "fintech") || Contains(lower, "bank") || Contains(lower, "payment") then "Fintech"
    else if Contains(lower, "ai ") || Contains(lower, "artificial intelligence") || Contains(lower, "llm") then "AI"
    else if Contains(lower, "health") || Contains(lower, "medtech") then "Healthtech"
    else if Contains(lower, "proptech") || Contains(lower, "real estate") then "Proptech"
    else if Contains(lower, "e-commerce") || Contains(lower, "retail") then "E-commerce"
    else if Contains(lower, "saas") || Contains(lower, "cloud") then "SaaS"
    else if Contains(lower, "deep tech") || Contains(lower, "biotech") then "Deep Tech"
    else if Contains(lower, "invest") || Contains(lower, "fund") || Contains(lower, "venture") then "Investment"
    else if Contains(lower, "tech") || Contains(lower, "software") || Contains(lower, "hardware") then "Technology"
    else if Contains(lower, "startup") || Contains(lower, "founder") || Contains(lower, "entrepreneur") then "Entrepreneurship"
    else if Contains(lower, "business") || Contains(lower, "market") || Contains(lower, "stock") then "Business"
    else "General"
  }

  /** The same chain as a table, read as "the first rule with a matching keyword". */
  datatype SectorRule = SectorRule(words: seq<string>, sector: string)

  const FintechTerms: seq<string> := ["fintech", "bank", "payment"]
  const AiTerms: seq<string> := ["ai ", "artificial intelligence", "llm"]
  const HealthTerms: seq<string> := ["health", "medtech"]
  const PropTerms: seq<string> := ["proptech", "real estate"]
  const CommerceTerms: seq<string> := ["e-commerce", "retail"]
  const SaasTerms: seq<string> := ["saas", "cloud"]
  const DeepTechTerms: seq<string> := ["deep tech", "biotech"]
  const InvestTerms: seq<string> := ["invest", "fund", "venture"]
  const TechTerms: seq<string> := ["tech", "software", "hardware"]
  const FounderTerms: seq<string> := ["startup", "founder", "entrepreneur"]
  const BusinessTerms: seq<string> := ["business", "market", "stock"]

  const SectorRules: seq<SectorRule> := [
    SectorRule(FintechTerms, "Fintech"),
    SectorRule(AiTerms, "AI"),
    SectorRule(HealthTerms, "Healthtech"),
    SectorRule(PropTerms, "Proptech"),
    SectorRule(CommerceTerms, "E-commerce"),
    SectorRule(SaasTerms, "SaaS"),
    SectorRule(DeepTechTerms, "Deep Tech"),
    SectorRule(InvestTerms, "Investment"),
    SectorRule(TechTerms, "Technology"),
    SectorRule(FounderTerms, "Entrepreneurship"),
    SectorRule(BusinessTerms, "Business")
  ]

  const FallbackSector: string := "General"

  const SectorLabels: set<string> := {"Fintech", "AI", "Healthtech", "Proptech", "E-commerce",
    "SaaS", "Deep Tech", "Investment", "Technology", "Entrepreneurship", "Business", "General"}

  /** Rule `m` is the first rule at or after `k` whose keywords occur in `text`. */
  ghost predicate FirstHitFrom(rules: seq<SectorRule>, text: string, k: int, m: int) {
    && 0 <= k <= m < |rules|
    && ContainsAny(text, rules[m].words)
    && (forall j :: k <= j < m ==> !ContainsAny(text, rules[j].words))
  }

  /** No rule at or after `k` has a keyword in `text`. */
  ghost predicate NoHitFrom(rules: seq<SectorRule>, text: string, k: int) {
    forall j :: 0 <= k <= j < |rules| ==> !ContainsAny(text, rules[j].words)
  }

  function FirstMatchFrom(rules: seq<SectorRule>, text: string, k: nat): string
    requires k <= |rules|
    decreases |rules| - k
  {
    if k == |rules| then FallbackSector
    else if AnyMatch(text, rules[k].words) then rules[k].sector
    else FirstMatchFrom(rules, text, k + 1)
  }

  /** The result is the label of the first rule from `k` on that hits, or the fallback
      when none does. */
  lemma {:induction false} FirstMatchFacts(rules: seq<SectorRule>, text: string, k: nat)
    requires k <= |rules|
    decreases |rules| - k
    ensures var r := FirstMatchFrom(rules, text, k);
            || (exists m :: FirstHitFrom(rules, text, k, m) && r == rules[m].sector)
            || (r == FallbackSector && NoHitFrom(rules, text, k))
  {
    if k == |rules| {
    } else if AnyMatch(text, rules[k].words) {
      AnyMatchIff(text, rules[k].words);
      assert FirstHitFrom(rules, text, k, k);
    } else {
      AnyMatchIff(text, rules[k].words);
      FirstMatchFacts(rules, text, k + 1);
      assert forall m :: FirstHitFrom(rules, text, k + 1, m) ==> FirstHitFrom(rules, text, k, m);
    }
  }

  /** The result is one of the labels when every rule is labelled. */
  lemma {:induction false} FirstMatchLabelled(rules: seq<SectorRule>, text: string, k: nat)
    requires k <= |rules|
    requires forall m :: 0 <= m < |rules| ==> rules[m].sector in SectorLabels
    decreases |rules| - k
    ensures FirstMatchFrom(rules, text, k) in SectorLabels
  {
    if k < |rules| && !AnyMatch(text, rules[k].words) {
      FirstMatchLabelled(rules, text, k + 1);
    }
  }

  lemma AnyOfTwo(t: string, a: string, b: string)
    ensures AnyMatch(t, [a, b]) == (Contains(t, a) || Contains(t, b))
  {
    var w := [a, b];
    assert w[1..] == [b] && w[1..][1..] == [];
    assert AnyMatch(t, [b]) == Contains(t, b);
  }

  lemma AnyOfThree(t: string, a: string, b: string, c: string)
    ensures AnyMatch(t, [a, b, c]) == (Contains(t, a) || Contains(t, b) || Contains(t, c))
  {
    var w := [a, b, c];
    assert w[1..] == [b, c];
    AnyOfTwo(t, b, c);
  }

  lemma Stage(t: string, k: nat, words: seq<string>, name: string)
    requires k < |SectorRules| && SectorRules[k] == SectorRule(words, name)
    ensures FirstMatchFrom(SectorRules, t, k)
            == if AnyMatch(t, words) then name else FirstMatchFrom(SectorRules, t, k + 1)
  {
  }

  /** The last four rules of the table. */
  lemma LastRules(t: string)
    ensures FirstMatchFrom(SectorRules, t, 7)
            == if Contains(t, "invest") || Contains(t, "fund") || Contains(t, "venture") then "Investment"
               else if Contains(t, "tech") || Contains(t, "software") || Contains(t, "hardware") then "Technology"
               else if Contains(t, "startup") || Contains(t, "founder") || Contains(t, "entrepreneur") then "Entrepreneurship"
               else if Contains(t, "business") || Contains(t, "market") || Contains(t, "stock") then "Business"
               else "General"
  {
    Stage(t, 7, InvestTerms, "Investment");
    AnyOfThree(t, "invest", "fund", "venture");
    Stage(t, 8, TechTerms, "Technology");
    AnyOfThree(t, "tech", "software", "hardware");
    Stage(t, 9, FounderTerms, "Entrepreneurship");
    AnyOfThree(t, "startup", "founder", "entrepreneur");
    Stage(t, 10, BusinessTerms, "Business");
    AnyOfThree(t, "business", "market", "stock");
    assert FirstMatchFrom(SectorRules, t, 11) == FallbackSector;
  }

  /** Rules six and seven of the table. */
  lemma SixthSeventhRules(t: string)
    ensures FirstMatchFrom(SectorRules, t, 5)
            == if Contains(t, "saas") || Contains(t, "cloud") then "SaaS"
               else if Contains(t, "deep tech") || Contains(t, "biotech") then "Deep Tech"
               else FirstMatchFrom(SectorRules, t, 7)
  {
    Stage(t, 5, SaasTerms, "SaaS");
    AnyOfTwo(t, "saas", "cloud");
    Stage(t, 6, DeepTechTerms, "Deep Tech");
    AnyOfTwo(t, "deep tech", "biotech");
  }

  /** Rules four and five of the table. */
  lemma FourthFifthRules(t: string)
    ensures FirstMatchFrom(SectorRules, t, 3)
            == if Contains(t, "proptech") || Contains(t, "real estate") then "Proptech"
               else if Contains(t, "e-commerce") || Contains(t, "retail") then "E-commerce"
               else FirstMatchFrom(SectorRules, t, 5)
  {
    Stage(t, 3, PropTerms, "Proptech");
    AnyOfTwo(t, "proptech", "real estate");
    Stage(t, 4, CommerceTerms, "E-commerce");
    AnyOfTwo(t, "e-commerce", "retail");
  }

  /** The first three rules of the table. */
  lemma FirstRules(t: string)
    ensures FirstMatchFrom(SectorRules, t, 0)
            == if Contains(t, "fintech") || Contains(t, "bank") || Contains(t, "payment") then "Fintech"
               else if Contains(t, "ai ") || Contains(t, "artificial intelligence") || Contains(t, "llm") then "AI"
               else if Contains(t, "health") || Contains(t, "medtech") then "Healthtech"
               else FirstMatchFrom(SectorRules, t, 3)
  {
    Stage(t, 0, FintechTerms, "Fintech");
    AnyOfThree(t, "fintech", "bank", "payment");
    Stage(t, 1, AiTerms, "AI");
    AnyOfThree(t, "ai ", "artificial intelligence", "llm");
    Stage(t, 2, HealthTerms, "Healthtech");
    AnyOfTwo(t, "health", "medtech");
  }

  /** The table read as a first match is the source's if-chain. */
  lemma SectorIsFirstMatch(text: string)
    ensures IdentifySector(text) == SectorChain(Lower(text))
  {
    var t := Lower(text);
    FirstRules(t);
    FourthFifthRules(t);
    SixthSeventhRules(t);
    LastRules(t);
  }

  /** Every rule carries one of the labels. */
  lemma RulesLabelled()
    ensures forall m :: 0 <= m < |SectorRules| ==> SectorRules[m].sector in SectorLabels
  {
    var R := SectorRules;
    assert R[0].sector in SectorLabels && R[1].sector in SectorLabels;
    assert R[2].sector in SectorLabels && R[3].sector in SectorLabels;
    assert R[4].sector in SectorLabels && R[5].sector in SectorLabels;
    assert R[6].sector in SectorLabels && R[7].sector in SectorLabels;
    assert R[8].sector in SectorLabels && R[9].sector in SectorLabels;
    assert R[10].sector in SectorLabels;
  }

  /** No rule is labelled with the fallback. */
  lemma RulesAvoidFallback()
    ensures forall m :: 0 <= m < |SectorRules| ==> SectorRules[m].sector != FallbackSector
  {
    var R := SectorRules;
    assert R[0].sector != FallbackSector && R[1].sector != FallbackSector;
    assert R[2].sector != FallbackSector && R[3].sector != FallbackSector;
    assert R[4].sector != FallbackSector && R[5].sector != FallbackSector;
    assert R[6].sector != FallbackSector && R[7].sector != FallbackSector;
    assert R[8].sector != FallbackSector && R[9].sector != FallbackSector;
    assert R[10].sector != FallbackSector;
  }

  /** The sector is "General" exactly when no keyword of any rule occurs, and otherwise
      the label of the first matching rule. */
  lemma SectorMeaning(text: string)
    ensures IdentifySector(text) == FallbackSector
            <==> forall j :: 0 <= j < |SectorRules| ==> !ContainsAny(Lower(text), SectorRules[j].words)
    ensures IdentifySector(text) != FallbackSector ==>
            exists m :: FirstHitFrom(SectorRules, Lower(text), 0, m)
                        && IdentifySector(text) == SectorRules[m].sector
  {
    RulesAvoidFallback();
    FirstMatchFacts(SectorRules, Lower(text), 0);
  }

  /** Matching ignores case. */
  lemma SectorIgnoresCase(text: string)
    ensures IdentifySector(Lower(text)) == IdentifySector(text)
  {
    LowerIdempotent(text);
  }

  // ---------------------------------------------------------------------------
  // One entry
  // ---------------------------------------------------------------------------

  /** The link: the `<link>` text, or for Atom entries its `href`. */
  function EntryLink(e: Entry): (r: string)
    ensures r == "" ==> e.linkText == "" && e.linkHref == ""
    ensures r in {e.linkText, e.linkHref}
  {
    if e.linkText != "" then e.linkText else e.linkHref
  }

  /** `pubDate`, else `published`. */
  function DateText(e: Entry): string {
    if e.pubDate != "" then e.pubDate else e.published
  }

  /** The day of the entry: the day of its parsed date, and today when it has no date or
      the date does not parse (`toISOString` throws and the default stays). */
  function EntryDate(e: Entry, env: Env): (d: int)
    ensures DateText(e) != "" && env.parse(DateText(e)).Some? ==> d == DayOf(env.parse(DateText(e)).value)
    ensures DateText(e) == "" || env.parse(DateText(e)).None? ==> d == Today(env)
  {
    var text := DateText(e);
    if text == "" then Today(env)
    else match env.parse(text)
      case None => Today(env)
      case Some(ms) => DayOf(ms)
  }

  /** The description: the YouTube `media:description` when present, else `<description>`. */
  function EntryDescription(e: Entry): string {
    match e.mediaDescription
    case Some(d) => d
    case None => e.description
  }

  /** The description without tags, cut to 200 characters, always followed by "...". */
  function CleanDescription(d: string): (r: string)
    ensures |r| >= |Ellipsis| && r[|r| - |Ellipsis|..] == Ellipsis
    ensures var body := r[..|r| - |Ellipsis|];
            && |body| == (if |StripTags(d)| <= DescriptionLimit then |StripTags(d)| else DescriptionLimit)
            && body == StripTags(d)[..|body|]
  {
    var body := Prefix(StripTags(d), DescriptionLimit);
    assert (body + Ellipsis)[..|body|] == body;
    body + Ellipsis
  }

  /** A short description without tags survives whole. */
  lemma CleanDescriptionOfPlainText(d: string)
    requires TagFree(d) && |d| <= DescriptionLimit
    ensures CleanDescription(d) == d + Ellipsis
  {
    StripTagsKeepsTagFree(d);
  }

  /** The enclosure announces audio (its type mentions "audio") and has a non-empty url. */
  predicate HasAudio(enc: Option<Enclosure>) {
    && enc.Some? && enc.value.mime.Some? && Contains(enc.value.mime.value, "audio")
    && enc.value.url.Some? && enc.value.url.value != ""
  }

  function AudioUrl(enc: Option<Enclosure>): (r: Option<string>)
    ensures r.Some? <==> HasAudio(enc)
    ensures r.Some? ==> enc.Some? && enc.value.url == r && r.value != ""
  {
    if HasAudio(enc) then enc.value.url else None
  }

  /** The podcast episode built from an entry of a podcast feed. */
  function PodcastOf(feed: Resource, e: Entry, date: int, id: string, noise: string): (p: PodcastItem)
    ensures p.source == feed.name && p.url == EntryLink(e) && p.date == date
    ensures p.title == CleanTitle(e.title) && p.description == CleanDescription(EntryDescription(e))
    ensures p.region == Global && p.duration == "N/A" && p.summaryPoints == []
    ensures p.channelUrl == Some(feed.url)
    ensures !(p.youtubeUrl.Some? && p.audioUrl.Some?)
    ensures e.videoId != "" ==>
              p.youtubeUrl == Some(WatchPrefix + e.videoId)
              && p.imageUrl == ThumbPrefix + e.videoId + ThumbSuffix
    ensures e.videoId == "" ==> p.youtubeUrl.None? && p.audioUrl == AudioUrl(e.enclosure)
    ensures e.videoId == "" && e.itunesImage != "" ==> p.imageUrl == e.itunesImage
    ensures e.videoId == "" && e.itunesImage == "" ==>
              p.imageUrl == ExtractImage(EntryDescription(e), noise)
  {
    var desc := EntryDescription(e);
    var youtube: Option<string> := if e.videoId != "" then Some(WatchPrefix + e.videoId) else None;
    var audio := if e.videoId != "" then None else AudioUrl(e.enclosure);
    var image :=
      if e.videoId != "" then ThumbPrefix + e.videoId + ThumbSuffix
      else if e.itunesImage != "" then e.itunesImage
      else ExtractImage(desc, noise);
    PodcastItem("pod_" + id, CleanTitle(e.title), CleanDescription(desc), EntryLink(e), feed.name,
      date, Global, image, "N/A", [], "en", "Tech", youtube, audio, Some(feed.url))
  }

  /** The lower-cased text the relevance test and the sector look at. */
  function SearchText(title: string, description: string): string {
    Lower(title + " " + description)
  }

  predicate IsRelevant(text: string) {
    AnyMatch(text, RelevanceTerms)
  }

  /** The region of a news item, decided by the feed (not by the configured region). */
  function RegionFor(feed: Resource): (r: Region)
    ensures r == Egypt <==>
              Contains(feed.url, ".eg") || Contains(feed.name, "Egypt") || Contains(feed.name, "Mal")
    ensures r == MENA <==>
              r != Egypt && (Contains(feed.name, "Wamda") || Contains(feed.name, "MENA"))
  {
    if Contains(feed.url, ".eg") || Contains(feed.name, "Egypt") || Contains(feed.name, "Mal") then Egypt
    else if Contains(feed.name, "Wamda") || Contains(feed.name, "MENA") then MENA
    else Global
  }

  /** What every news item the fetcher produces looks like, whatever entry it came
      from: the default category, a relevant text, and one of the sector labels as its
      only tag. */
  ghost predicate ArticleShape(n: NewsItem) {
    && n.category == TechNews
    && IsRelevant(SearchText(n.title, n.description))
    && n.sector in SectorLabels
    && n.tags == [n.sector]
  }

  /** What every podcast episode the fetcher produces looks like: a global item with no
      known duration that links to a video or to an audio file but never to both. */
  ghost predicate PodcastShape(p: PodcastItem) {
    && p.region == Global
    && p.duration == "N/A"
    && !(p.youtubeUrl.Some? && p.audioUrl.Some?)
  }

  /** The news item built from an entry of a news feed. */
  function NewsOf(feed: Resource, e: Entry, date: int, id: string, noise: string): (n: NewsItem)
    ensures n.source == feed.name
  {
    var desc := EntryDescription(e);
    var title := CleanTitle(e.title);
    var cleanDesc := CleanDescription(desc);
    var sector := IdentifySector(SearchText(title, cleanDesc));
    NewsItem("rss_" + id, title, cleanDesc, EntryLink(e), feed.name, date, RegionFor(feed),
      TechNews, sector, ExtractImage(desc, noise), [sector])
  }

  /** The item of a relevant entry has the shape of every article, and its sector is the
      one of its own cleaned title and description. */
  lemma NewsOfShape(feed: Resource, e: Entry, date: int, id: string, noise: string)
    requires IsRelevant(SearchText(CleanTitle(e.title), CleanDescription(EntryDescription(e))))
    ensures var n := NewsOf(feed, e, date, id, noise);
            && ArticleShape(n)
            && n.sector == IdentifySector(SearchText(n.title, n.description))
            && n.url == EntryLink(e) && n.date == date && n.region == RegionFor(feed)
            && n.title == CleanTitle(e.title) && n.description == CleanDescription(EntryDescription(e))
            && n.imageUrl == ExtractImage(EntryDescription(e), noise)
  {
    var n := NewsOf(feed, e, date, id, noise);
    LowerIdempotent(n.title + " " + n.description);
  }

  /** Where one entry goes. */
  datatype Routed = ToPodcast(podcast: PodcastItem) | ToNews(news: NewsItem) | Dropped

  /** The body of `items.forEach`: podcast feeds give episodes, other feeds give news items
      for relevant entries and drop the rest. */
  function Route(feed: Resource, e: Entry, env: Env, fi: nat, ei: nat): (r: Routed)
    ensures r.ToPodcast? <==> feed.kind == PodcastSource
    ensures r.ToPodcast? ==> r.podcast.source == feed.name && PodcastShape(r.podcast)
    ensures r.ToNews? ==> r.news.source == feed.name
  {
    var date := EntryDate(e, env);
    if feed.kind == PodcastSource then ToPodcast(PodcastOf(feed, e, date, env.stamp(fi, ei), env.noise(fi, ei)))
    else if IsRelevant(SearchText(CleanTitle(e.title), CleanDescription(EntryDescription(e)))) then
      ToNews(NewsOf(feed, e, date, env.stamp(fi, ei), env.noise(fi, ei)))
    else Dropped
  }

  /** A news feed keeps exactly the relevant entries, as articles dated by EntryDate with
      the sector of their own text. */
  lemma RouteFilters(feed: Resource, e: Entry, env: Env, fi: nat, ei: nat)
    ensures var r := Route(feed, e, env, fi, ei);
            && (r.ToNews? <==>
                  feed.kind != PodcastSource
                  && IsRelevant(SearchText(CleanTitle(e.title), CleanDescription(EntryDescription(e)))))
            && (r.ToNews? ==> ArticleShape(r.news) && r.news.date == EntryDate(e, env)
                              && r.news.sector == IdentifySector(SearchText(r.news.title, r.news.description)))
            && (r.ToPodcast? ==> r.podcast.date == EntryDate(e, env))
  {
    if feed.kind != PodcastSource
       && IsRelevant(SearchText(CleanTitle(e.title), CleanDescription(EntryDescription(e))))
    {
      NewsOfShape(feed, e, EntryDate(e, env), env.stamp(fi, ei), env.noise(fi, ei));
    }
  }

  // ---------------------------------------------------------------------------
  // The whole sync, as functions over the feeds and entries in order
  // ---------------------------------------------------------------------------

  /** A resource is fetched when it has an rss url longer than five characters. */
  predicate IsValidFeed(r: Resource) {
    r.rssUrl.Some? && |r.rssUrl.value| > 5
  }

  function ValidFeeds(rs: seq<Resource>): (v: seq<Resource>)
    ensures |v| <= |rs|
    ensures forall r :: r in v <==> r in rs && IsValidFeed(r)
    ensures IsSubsequence(v, rs)
  {
    FilterFacts(rs, IsValidFeed);
    Filter(rs, IsValidFeed)
  }

  /** `startupsGrouped[f.name] = []` for the first `n` valid feeds that are not podcasts. */
  function InitGroups(feeds: seq<Resource>, n: nat): seq<Group>
    requires n <= |feeds|
  {
    if n == 0 then []
    else
      var gs := InitGroups(feeds, n - 1);
      if feeds[n - 1].kind != PodcastSource then Assign(gs, feeds[n - 1].name, []) else gs
  }

  datatype Acc = Acc(articles: seq<NewsItem>, groups: seq<Group>, podcasts: seq<PodcastItem>)

  /** The news item as filed under its source on the Startups page. */
  function AsStartup(n: NewsItem): NewsItem {
    n.(category := StartupNews)
  }

  /** The pushes one routed entry makes. */
  function Absorb(acc: Acc, feed: Resource, r: Routed): Acc {
    match r
    case ToPodcast(p) => acc.(podcasts := acc.podcasts + [p])
    case ToNews(n) =>
      Acc(acc.articles + [n], Append(acc.groups, feed.name, AsStartup(n)), acc.podcasts)
    case Dropped => acc
  }

  /** The entries of a feed: none when it cannot be fetched. */
  function FeedEntries(feed: Resource, env: Env): seq<Entry> {
    if feed.rssUrl.None? then []
    else match env.fetch(feed.rssUrl.value)
      case None => []
      case Some(es) => es
  }

  /** `rs` lists where each entry of the `fi`-th feed goes, in order. */
  ghost predicate RoutedAll(feed: Resource, fi: nat, es: seq<Entry>, env: Env, rs: seq<Routed>) {
    && |rs| == |es|
    && forall i {:trigger Route(feed, es[i], env, fi, i)} :: 0 <= i < |es| ==> Route(feed, es[i], env, fi, i) == rs[i]
  }

  lemma RoutesExist(feed: Resource, fi: nat, es: seq<Entry>, env: Env)
    ensures exists rs :: RoutedAll(feed, fi, es, env, rs)
  {
    var rs := seq(|es|, i requires 0 <= i < |es| => Route(feed, es[i], env, fi, i));
    assert RoutedAll(feed, fi, es, env, rs);
  }

  /** Where each entry of the `fi`-th feed goes, in order (the list RoutesUnique shows to
      be the only one). */
  ghost function Routes(feed: Resource, fi: nat, es: seq<Entry>, env: Env): (rs: seq<Routed>)
    ensures RoutedAll(feed, fi, es, env, rs)
  {
    RoutesExist(feed, fi, es, env);
    var rs :| RoutedAll(feed, fi, es, env, rs);
    rs
  }

  lemma RoutesUnique(feed: Resource, fi: nat, es: seq<Entry>, env: Env, rs: seq<Routed>)
    requires RoutedAll(feed, fi, es, env, rs)
    ensures rs == Routes(feed, fi, es, env)
  {
    var qs := Routes(feed, fi, es, env);
    forall i | 0 <= i < |es| ensures rs[i] == qs[i] {
      assert Route(feed, es[i], env, fi, i) == rs[i];
    }
  }

  /** After the pushes of the first `n` routed entries of `feed`. */
  function RunEntries(acc: Acc, feed: Resource, rs: seq<Routed>, n: nat): Acc
    requires n <= |rs|
  {
    if n == 0 then acc
    else Absorb(RunEntries(acc, feed, rs, n - 1), feed, rs[n - 1])
  }

  lemma RunEntriesStep(acc: Acc, feed: Resource, rs: seq<Routed>, n: nat, r: Routed)
    requires n < |rs| && rs[n] == r
    ensures RunEntries(acc, feed, rs, n + 1) == Absorb(RunEntries(acc, feed, rs, n), feed, r)
  {
  }

  /** Where the entries of each feed go, feed by feed. */
  ghost function AllRoutes(feeds: seq<Resource>, env: Env): (rss: seq<seq<Routed>>)
    ensures |rss| == |feeds|
    ensures forall i :: 0 <= i < |feeds| ==> rss[i] == Routes(feeds[i], i, FeedEntries(feeds[i], env), env)
  {
    seq(|feeds|, i requires 0 <= i < |feeds| => Routes(feeds[i], i, FeedEntries(feeds[i], env), env))
  }

  /** After the pushes of the first `n` feeds, `routes[i]` being where the entries of
      `feeds[i]` go. */
  function RunFeeds(acc: Acc, feeds: seq<Resource>, routes: seq<seq<Routed>>, n: nat): Acc
    requires n <= |feeds| == |routes|
  {
    if n == 0 then acc
    else RunEntries(RunFeeds(acc, feeds, routes, n - 1), feeds[n - 1], routes[n - 1], |routes[n - 1]|)
  }

  /** Everything gathered from all valid feeds, before ranking. */
  ghost function Gather(resources: seq<Resource>, env: Env): Acc {
    var v := ValidFeeds(resources);
    RunFeeds(Acc([], InitGroups(v, |v|), []), v, AllRoutes(v, env), |v|)
  }

  // ---------------------------------------------------------------------------
  // Ranking for the Latest page
  // ---------------------------------------------------------------------------

  function Score(n: NewsItem, today: int): int {
    (if n.date == today then 5 else 0)
    + (if n.source in TrustedSources then 3 else 0)
    + (if AnyMatch(Lower(n.title), ImportantKeywords) then 4 else 0)
  }

  function ScoreKey(today: int): NewsItem -> int {
    n => Score(n, today)
  }

  /** The three bonuses can be read back from the score: no two combinations add up to
      the same value. */
  lemma ScoreDecodes(n: NewsItem, today: int)
    ensures Score(n, today) in {0, 3, 4, 5, 7, 8, 9, 12}
    ensures n.date == today <==> Score(n, today) in {5, 8, 9, 12}
    ensures n.source in TrustedSources <==> Score(n, today) in {3, 7, 8, 12}
    ensures AnyMatch(Lower(n.title), ImportantKeywords) <==> Score(n, today) in {4, 7, 9, 12}
  {
  }

  /** Newest first, then by score (stable, so newer first among equal scores), top twelve. */
  function Rank(pool: seq<NewsItem>, today: int): seq<NewsItem> {
    Prefix(SortDesc(SortDesc(pool, DateKey), ScoreKey(today)), TopCount)
  }

  lemma RankFacts(pool: seq<NewsItem>, today: int)
    ensures |Rank(pool, today)| == if |pool| <= TopCount then |pool| else TopCount
    ensures multiset(Rank(pool, today)) <= multiset(pool)
    ensures SortedLex(Rank(pool, today), ScoreKey(today), DateKey)
    ensures forall x, y :: x in Rank(pool, today) && y in multiset(pool) - multiset(Rank(pool, today))
              ==> LexBefore(x, y, ScoreKey(today), DateKey)
  {
    var s1 := SortDesc(pool, DateKey);
    SortThenSort(s1, ScoreKey(today), DateKey);
    PrefixOfSortedLex(SortDesc(s1, ScoreKey(today)), TopCount, ScoreKey(today), DateKey);
  }

  datatype FetchResult = FetchResult(latest: seq<NewsItem>, startups: seq<Group>, podcasts: seq<PodcastItem>)

  /** The value `fetchAndProcessFeeds` resolves to. */
  ghost function ProcessFeeds(resources: seq<Resource>, env: Env): FetchResult {
    var acc := Gather(resources, env);
    FetchResult(Rank(acc.articles, Today(env)), acc.groups, acc.podcasts)
  }

  // ---------------------------------------------------------------------------
  // What the gathered state always satisfies
  // ---------------------------------------------------------------------------

  /** `n` names a feed of `feeds` that is not a podcast feed. */
  ghost predicate IsNewsFeedName(feeds: seq<Resource>, n: string) {
    exists f :: f in feeds && f.kind != PodcastSource && f.name == n
  }

  ghost predicate IsPodcastFeedName(feeds: seq<Resource>, n: string) {
    exists f :: f in feeds && f.kind == PodcastSource && f.name == n
  }

  /** The items of `pool` whose source is `name`, in order. */
  function FromSource(pool: seq<NewsItem>, name: string): (r: seq<NewsItem>)
    ensures forall x :: x in r ==> x in pool && x.source == name
  {
    if pool == [] then []
    else
      var last := pool[|pool| - 1];
      FromSource(pool[..|pool| - 1], name) + (if last.source == name then [last] else [])
  }

  lemma FromSourceAppend(pool: seq<NewsItem>, x: NewsItem, name: string)
    ensures FromSource(pool + [x], name)
            == FromSource(pool, name) + (if x.source == name then [x] else [])
  {
    assert (pool + [x])[..|pool|] == pool;
  }

  function AllAsStartup(s: seq<NewsItem>): (r: seq<NewsItem>)
    ensures |r| == |s|
    ensures forall i :: 0 <= i < |s| ==> r[i] == AsStartup(s[i])
  {
    seq(|s|, i requires 0 <= i < |s| => AsStartup(s[i]))
  }

  /** One group per news feed name. */
  ghost predicate Keyed(groups: seq<Group>, feeds: seq<Resource>) {
    && DistinctSources(groups)
    && (forall n :: n in Sources(groups) <==> IsNewsFeedName(feeds, n))
  }

  /** Each group holds the Startups-page copies of exactly the articles from its source, in
      order. */
  ghost predicate Mirrors(groups: seq<Group>, articles: seq<NewsItem>) {
    forall n :: n in Sources(groups) ==> Lookup(groups, n) == Some(AllAsStartup(FromSource(articles, n)))
  }

  ghost predicate ArticlesFrom(articles: seq<NewsItem>, feeds: seq<Resource>) {
    forall a :: a in articles ==> ArticleShape(a) && IsNewsFeedName(feeds, a.source)
  }

  ghost predicate PodcastsFrom(podcasts: seq<PodcastItem>, feeds: seq<Resource>) {
    forall p :: p in podcasts ==> PodcastShape(p) && IsPodcastFeedName(feeds, p.source)
  }

  /** The invariant of a sync over `feeds`: articles only from news feeds, podcast episodes
      only from podcast feeds, and the groups keyed and filled as above. */
  ghost predicate Wellformed(acc: Acc, feeds: seq<Resource>) {
    && Keyed(acc.groups, feeds)
    && Mirrors(acc.groups, acc.articles)
    && ArticlesFrom(acc.articles, feeds)
    && PodcastsFrom(acc.podcasts, feeds)
  }

  /** What Route promises about an entry of `feed`. */
  ghost predicate RoutedFrom(feed: Resource, r: Routed) {
    && (r.ToPodcast? ==> feed.kind == PodcastSource && r.podcast.source == feed.name && PodcastShape(r.podcast))
    && (r.ToNews? ==> feed.kind != PodcastSource && r.news.source == feed.name && ArticleShape(r.news))
  }

  lemma AbsorbKeyed(acc: Acc, feeds: seq<Resource>, feed: Resource, r: Routed)
    requires Keyed(acc.groups, feeds)
    ensures Keyed(Absorb(acc, feed, r).groups, feeds)
  {
    if r.ToNews? {
      AppendFacts(acc.groups, feed.name, AsStartup(r.news), feed.name);
    }
  }

  lemma AllAsStartupAppend(s: seq<NewsItem>, x: NewsItem)
    ensures AllAsStartup(s + [x]) == AllAsStartup(s) + [AsStartup(x)]
  {
  }

  /** The group of one source after an article of `feed` is filed. */
  lemma MirrorStep(acc: Acc, feed: Resource, n: NewsItem, m: string)
    requires n.source == feed.name
    requires m in Sources(acc.groups) ==> Lookup(acc.groups, m) == Some(AllAsStartup(FromSource(acc.articles, m)))
    ensures var g := Append(acc.groups, feed.name, AsStartup(n));
            m in Sources(g) ==> Lookup(g, m) == Some(AllAsStartup(FromSource(acc.articles + [n], m)))
  {
    var g := Append(acc.groups, feed.name, AsStartup(n));
    AppendFacts(acc.groups, feed.name, AsStartup(n), m);
    FromSourceAppend(acc.articles, n, m);
    AllAsStartupAppend(FromSource(acc.articles, m), n);
    if m in Sources(g) {
      assert m in Sources(acc.groups);
      if m == feed.name {
        assert Lookup(g, m) == Some(AllAsStartup(FromSource(acc.articles, m)) + [AsStartup(n)]);
      } else {
        assert Lookup(g, m) == Lookup(acc.groups, m);
        assert FromSource(acc.articles + [n], m) == FromSource(acc.articles, m);
      }
    }
  }

  lemma AbsorbMirrors(acc: Acc, feed: Resource, r: Routed)
    requires Mirrors(acc.groups, acc.articles)
    requires r.ToNews? ==> r.news.source == feed.name
    ensures Mirrors(Absorb(acc, feed, r).groups, Absorb(acc, feed, r).articles)
  {
    if r.ToNews? {
      forall m ensures var g := Append(acc.groups, feed.name, AsStartup(r.news));
                       m in Sources(g) ==> Lookup(g, m) == Some(AllAsStartup(FromSource(acc.articles + [r.news], m)))
      {
        MirrorStep(acc, feed, r.news, m);
      }
    }
  }

  lemma AbsorbArticles(acc: Acc, feeds: seq<Resource>, feed: Resource, r: Routed)
    requires ArticlesFrom(acc.articles, feeds) && feed in feeds && RoutedFrom(feed, r)
    ensures ArticlesFrom(Absorb(acc, feed, r).articles, feeds)
  {
    if r.ToNews? {
      assert IsNewsFeedName(feeds, r.news.source) by {
        assert feed in feeds && feed.kind != PodcastSource && feed.name == r.news.source;
      }
    }
  }

  lemma AbsorbPodcasts(acc: Acc, feeds: seq<Resource>, feed: Resource, r: Routed)
    requires PodcastsFrom(acc.podcasts, feeds) && feed in feeds && RoutedFrom(feed, r)
    ensures PodcastsFrom(Absorb(acc, feed, r).podcasts, feeds)
  {
    if r.ToPodcast? {
      assert IsPodcastFeedName(feeds, r.podcast.source) by {
        assert feed in feeds && feed.kind == PodcastSource && feed.name == r.podcast.source;
      }
    }
  }

  lemma AbsorbKeeps(acc: Acc, feeds: seq<Resource>, feed: Resource, r: Routed)
    requires Wellformed(acc, feeds) && feed in feeds && RoutedFrom(feed, r)
    ensures Wellformed(Absorb(acc, feed, r), feeds)
  {
    AbsorbKeyed(acc, feeds, feed, r);
    AbsorbMirrors(acc, feed, r);
    AbsorbArticles(acc, feeds, feed, r);
    AbsorbPodcasts(acc, feeds, feed, r);
  }

  /** Every routed entry of a feed satisfies what Route promises. */
  lemma RoutesFrom(feed: Resource, fi: nat, es: seq<Entry>, env: Env)
    ensures forall i :: 0 <= i < |es| ==> RoutedFrom(feed, Routes(feed, fi, es, env)[i])
  {
    forall i | 0 <= i < |es| ensures RoutedFrom(feed, Routes(feed, fi, es, env)[i]) {
      RouteFilters(feed, es[i], env, fi, i);
      assert Route(feed, es[i], env, fi, i) == Routes(feed, fi, es, env)[i];
    }
  }

  lemma {:induction false} RunEntriesKeeps(acc: Acc, feeds: seq<Resource>, feed: Resource,
                                           rs: seq<Routed>, n: nat)
    requires n <= |rs| && Wellformed(acc, feeds) && feed in feeds
    requires forall i :: 0 <= i < |rs| ==> RoutedFrom(feed, rs[i])
    ensures Wellformed(RunEntries(acc, feed, rs, n), feeds)
  {
    if n > 0 {
      RunEntriesKeeps(acc, feeds, feed, rs, n - 1);
      AbsorbKeeps(RunEntries(acc, feed, rs, n - 1), feeds, feed, rs[n - 1]);
    }
  }

  /** Every routed entry of every feed satisfies what Route promises. */
  ghost predicate AllRoutedFrom(feeds: seq<Resource>, routes: seq<seq<Routed>>) {
    && |routes| == |feeds|
    && forall i, j :: 0 <= i < |feeds| && 0 <= j < |routes[i]| ==> RoutedFrom(feeds[i], routes[i][j])
  }

  lemma AllRoutesFrom(feeds: seq<Resource>, env: Env)
    ensures AllRoutedFrom(feeds, AllRoutes(feeds, env))
  {
    forall i | 0 <= i < |feeds| {
      RoutesFrom(feeds[i], i, FeedEntries(feeds[i], env), env);
    }
  }

  lemma {:induction false} RunFeedsKeeps(acc: Acc, feeds: seq<Resource>, routes: seq<seq<Routed>>, n: nat)
    requires n <= |feeds| && Wellformed(acc, feeds) && AllRoutedFrom(feeds, routes)
    ensures Wellformed(RunFeeds(acc, feeds, routes, n), feeds)
  {
    if n > 0 {
      RunFeedsKeeps(acc, feeds, routes, n - 1);
      var f := feeds[n - 1];
      assert f in feeds;
      RunEntriesKeeps(RunFeeds(acc, feeds, routes, n - 1), feeds, f, routes[n - 1], |routes[n - 1]|);
    }
  }

  lemma NewsFeedNameStep(feeds: seq<Resource>, n: nat, m: string)
    requires 0 < n <= |feeds|
    ensures IsNewsFeedName(feeds[..n], m)
            <==> IsNewsFeedName(feeds[..n - 1], m) || (feeds[n - 1].kind != PodcastSource && feeds[n - 1].name == m)
  {
    var f := feeds[n - 1];
    assert feeds[..n] == feeds[..n - 1] + [f];
    if IsNewsFeedName(feeds[..n], m) {
      var h :| h in feeds[..n] && h.kind != PodcastSource && h.name == m;
      if h != f { assert h in feeds[..n - 1]; }
    }
    if f.kind != PodcastSource && f.name == m { assert f in feeds[..n]; }
    if IsNewsFeedName(feeds[..n - 1], m) {
      var h :| h in feeds[..n - 1] && h.kind != PodcastSource && h.name == m;
      assert h in feeds[..n];
    }
  }

  /** The facts InitGroupsFacts states, for the groups of the first `n` feeds. */
  ghost predicate InitGroupsOk(feeds: seq<Resource>, n: nat, g: seq<Group>)
    requires n <= |feeds|
  {
    && DistinctSources(g)
    && (forall m :: m in Sources(g) <==> IsNewsFeedName(feeds[..n], m))
    && (forall m :: m in Sources(g) ==> Lookup(g, m) == Some([]))
  }

  /** The groups set up before fetching: one empty group per news feed name. */
  lemma {:induction false} InitGroupsFacts(feeds: seq<Resource>, n: nat)
    requires n <= |feeds|
    ensures DistinctSources(InitGroups(feeds, n))
    ensures forall m :: m in Sources(InitGroups(feeds, n)) <==> IsNewsFeedName(feeds[..n], m)
    ensures forall m :: m in Sources(InitGroups(feeds, n)) ==> Lookup(InitGroups(feeds, n), m) == Some([])
  {
    if n > 0 {
      InitGroupsFacts(feeds, n - 1);
      InitGroupsStep(feeds, n, InitGroups(feeds, n - 1));
    }
  }

  lemma InitGroupsStep(feeds: seq<Resource>, n: nat, g: seq<Group>)
    requires 0 < n <= |feeds| && InitGroupsOk(feeds, n - 1, g)
    ensures InitGroupsOk(feeds, n, if feeds[n - 1].kind != PodcastSource then Assign(g, feeds[n - 1].name, []) else g)
  {
    var f := feeds[n - 1];
    forall m ensures IsNewsFeedName(feeds[..n], m)
                     <==> IsNewsFeedName(feeds[..n - 1], m) || (f.kind != PodcastSource && f.name == m)
    {
      NewsFeedNameStep(feeds, n, m);
    }
    if f.kind != PodcastSource {
      AssignSources(g, f.name, []);
      AssignDistinct(g, f.name, []);
      forall m ensures Lookup(Assign(g, f.name, []), m) == if m == f.name then Some([]) else Lookup(g, m) {
        AssignLookup(g, f.name, [], m);
      }
    }
  }

  lemma StartWellformed(feeds: seq<Resource>)
    ensures Wellformed(Acc([], InitGroups(feeds, |feeds|), []), feeds)
  {
    InitGroupsFacts(feeds, |feeds|);
    assert feeds[..|feeds|] == feeds;
    assert forall n :: AllAsStartup(FromSource([], n)) == [];
  }

  /** What `fetchAndProcessFeeds` resolves to: at most twelve top stories, all from news
      feeds and in score-then-date order; one group per news feed name holding
      the Startups-page copies of every article from that source; episodes only from
      podcast feeds. */
  lemma ProcessFeedsFacts(resources: seq<Resource>, env: Env)
    ensures var res := ProcessFeeds(resources, env);
            var v := ValidFeeds(resources);
            && |res.latest| <= TopCount
            && SortedLex(res.latest, ScoreKey(Today(env)), DateKey)
            && (forall a :: a in res.latest ==> ArticleShape(a) && IsNewsFeedName(v, a.source))
            && DistinctSources(res.startups)
            && (forall n :: n in Sources(res.startups) <==> IsNewsFeedName(v, n))
            && (forall n :: n in Sources(res.startups) ==>
                  Lookup(res.startups, n) == Some(AllAsStartup(FromSource(Gather(resources, env).articles, n))))
            && (forall p :: p in res.podcasts ==> PodcastShape(p) && IsPodcastFeedName(v, p.source))
  {
    var v := ValidFeeds(resources);
    StartWellformed(v);
    AllRoutesFrom(v, env);
    RunFeedsKeeps(Acc([], InitGroups(v, |v|), []), v, AllRoutes(v, env), |v|);
    var acc := Gather(resources, env);
    var today := Today(env);
    RankFacts(acc.articles, today);
    var top := Rank(acc.articles, today);
    forall a | a in top ensures ArticleShape(a) && IsNewsFeedName(v, a.source) {
      assert a in multiset(top);
      assert a in multiset(acc.articles);
    }
  }

  // ---------------------------------------------------------------------------
  // The fetcher itself
  // ---------------------------------------------------------------------------

  /** The pushes of one routed entry: to the podcasts, or to the articles and the
      source's group. */
  method Push(feed: Resource, routed: Routed,
              articles: seq<NewsItem>, groups: seq<Group>, podcasts: seq<PodcastItem>)
    returns (articles': seq<NewsItem>, groups': seq<Group>, podcasts': seq<PodcastItem>)
    ensures Acc(articles', groups', podcasts') == Absorb(Acc(articles, groups, podcasts), feed, routed)
  {
    articles', groups', podcasts' := articles, groups, podcasts;
    match routed {
      case ToPodcast(p) =>
        podcasts' := podcasts' + [p];
      case ToNews(n) =>
        articles' := articles' + [n];
        if Lookup(groups', feed.name).Some? {
          groups' := Assign(groups', feed.name, Lookup(groups', feed.name).value + [AsStartup(n)]);
        }
      case Dropped =>
    }
  }

  /** The body of `items.forEach` for the `ei`-th entry: where that entry goes. */
  method RouteEntry(feed: Resource, fi: nat, items: seq<Entry>, ei: nat, env: Env) returns (routed: Routed)
    requires ei < |items|
    ensures routed == Routes(feed, fi, items, env)[ei]
  {
    var item := items[ei];
    var date := EntryDate(item, env);
    var desc := EntryDescription(item);
    if feed.kind == PodcastSource {
      routed := ToPodcast(PodcastOf(feed, item, date, env.stamp(fi, ei), env.noise(fi, ei)));
    } else {
      var title := CleanTitle(item.title);
      var cleanDesc := CleanDescription(desc);
      if IsRelevant(SearchText(title, cleanDesc)) {
        routed := ToNews(NewsOf(feed, item, date, env.stamp(fi, ei), env.noise(fi, ei)));
      } else {
        routed := Dropped;
      }
    }
    assert routed == Route(feed, items[ei], env, fi, ei);
  }

  /** The `items.forEach` loop of one feed: routes each entry and makes its pushes. */
  method ProcessEntries(feed: Resource, fi: nat, items: seq<Entry>, env: Env,
                        articles: seq<NewsItem>, groups: seq<Group>, podcasts: seq<PodcastItem>)
    returns (articles': seq<NewsItem>, groups': seq<Group>, podcasts': seq<PodcastItem>)
    ensures Acc(articles', groups', podcasts')
            == RunEntries(Acc(articles, groups, podcasts), feed, Routes(feed, fi, items, env), |items|)
  {
    ghost var rs := Routes(feed, fi, items, env);
    ghost var start := Acc(articles, groups, podcasts);
    articles', groups', podcasts' := articles, groups, podcasts;
    for ei := 0 to |items|
      invariant Acc(articles', groups', podcasts') == RunEntries(start, feed, rs, ei)
    {
      var routed := RouteEntry(feed, fi, items, ei, env);
      RunEntriesStep(start, feed, rs, ei, routed);
      articles', groups', podcasts' := Push(feed, routed, articles', groups', podcasts');
    }
  }

  /** `fetchAndProcessFeeds(resources)`, with the feeds fetched one after another in list
      order; what the result satisfies is ProcessFeedsFacts. */
  method FetchAndProcessFeeds(resources: seq<Resource>, env: Env) returns (res: FetchResult)
    ensures res == ProcessFeeds(resources, env)
  {
    var validFeeds := ValidFeeds(resources);
    var startupsGrouped := SetUpGroups(validFeeds);
    var allArticles, allPodcasts;
    allArticles, startupsGrouped, allPodcasts := FetchFeeds(validFeeds, env, startupsGrouped);

    var today := Today(env);
    var byDate := SortDesc(allArticles, DateKey);
    var byScore := SortDesc(byDate, ScoreKey(today));
    res := FetchResult(Prefix(byScore, TopCount), startupsGrouped, allPodcasts);
  }

  /** `startupsGrouped[feed.name] = []` for every feed that is not a podcast feed. */
  method SetUpGroups(feeds: seq<Resource>) returns (groups: seq<Group>)
    ensures groups == InitGroups(feeds, |feeds|)
  {
    groups := [];
    for i := 0 to |feeds|
      invariant groups == InitGroups(feeds, i)
    {
      if feeds[i].kind != PodcastSource {
        groups := Assign(groups, feeds[i].name, []);
      }
    }
  }

  /** One feed: its request and the pushes of its entries; a failed request pushes
      nothing. */
  method FetchFeed(feed: Resource, fi: nat, env: Env,
                   articles: seq<NewsItem>, groups: seq<Group>, podcasts: seq<PodcastItem>)
    returns (articles': seq<NewsItem>, groups': seq<Group>, podcasts': seq<PodcastItem>)
    requires feed.rssUrl.Some?
    ensures Acc(articles', groups', podcasts')
            == RunEntries(Acc(articles, groups, podcasts), feed, Routes(feed, fi, FeedEntries(feed, env), env),
                          |FeedEntries(feed, env)|)
  {
    var items: seq<Entry> := [];
    var response := env.fetch(feed.rssUrl.value);
    if response.Some? {
      items := response.value;
    }
    assert items == FeedEntries(feed, env);
    articles', groups', podcasts' := ProcessEntries(feed, fi, items, env, articles, groups, podcasts);
  }

  /** After the pushes of the first `n` feeds. */
  ghost function GatherUpTo(acc: Acc, feeds: seq<Resource>, env: Env, n: nat): Acc
    requires n <= |feeds|
  {
    RunFeeds(acc, feeds, AllRoutes(feeds, env), n)
  }

  lemma GatherUpToStep(acc: Acc, feeds: seq<Resource>, env: Env, n: nat)
    requires n < |feeds|
    ensures GatherUpTo(acc, feeds, env, n + 1)
            == RunEntries(GatherUpTo(acc, feeds, env, n), feeds[n],
                          Routes(feeds[n], n, FeedEntries(feeds[n], env), env), |FeedEntries(feeds[n], env)|)
  {
  }

  /** Fetches the feeds one after another and makes the pushes of their entries. */
  method FetchFeeds(feeds: seq<Resource>, env: Env, groups: seq<Group>)
    returns (articles: seq<NewsItem>, groups': seq<Group>, podcasts: seq<PodcastItem>)
    requires forall f :: f in feeds ==> f.rssUrl.Some?
    ensures Acc(articles, groups', podcasts) == GatherUpTo(Acc([], groups, []), feeds, env, |feeds|)
  {
    articles, groups', podcasts := [], groups, [];
    for fi := 0 to |feeds|
      invariant Acc(articles, groups', podcasts) == GatherUpTo(Acc([], groups, []), feeds, env, fi)
    {
      GatherUpToStep(Acc([], groups, []), feeds, env, fi);
      assert feeds[fi] in feeds;
      articles, groups', podcasts := FetchFeed(feeds[fi], fi, env, articles, groups', podcasts);
    }
  }
}
