/** services/contentService.ts: the strict sync over the configured feeds. An entry is kept
    only when it is at most a day old, its link has not been seen before in the sync, and
    its text mentions one of the keyword topics; kept entries go either to the Latest
    list or to the Startups list, and both lists come back newest first. */
module ContentService {
  import opened Text
  import opened Types
  import opened Sorting
  import opened Config

  // ---------------------------------------------------------------------------
  // identifyTopics
  // ---------------------------------------------------------------------------

  const TopicNames: seq<string> := ["Tech", "AI", "Business", "Entrepreneur", "Fintech", "Investment"]

  /** The keyword table behind each topic name, in the same order. */
  const TopicTables: seq<seq<string>> := [TechKeywords, AiKeywords, BusinessKeywords,
    EntrepreneurKeywords, FintechKeywords, InvestmentKeywords]

  /** The names of the first `k` tables that have a keyword in `lower`, in table order. */
  function TopicsUpTo(lower: string, k: nat): seq<string>
    requires k <= |TopicTables|
  {
    if k == 0 then []
    else TopicsUpTo(lower, k - 1) + (if AnyMatch(lower, TopicTables[k - 1]) then [TopicNames[k - 1]] else [])
  }

  /** The topics of a text: the name of each table with a keyword in the lower-cased text,
      in table order. */
  function Topics(text: string): seq<string> {
    TopicsUpTo(Lower(text), |TopicTables|)
  }

  /** `identifyTopics(text)`: lower-cases the text and pushes the name of each table with
      a keyword in it. */
  method IdentifyTopics(text: string) returns (topics: seq<string>)
    ensures topics == Topics(text)
  {
    var lowerText := Lower(text);
    topics := [];
    if AnyMatch(lowerText, TechKeywords) { topics := topics + ["Tech"]; }
    assert topics == TopicsUpTo(lowerText, 1);
    if AnyMatch(lowerText, AiKeywords) { topics := topics + ["AI"]; }
    assert topics == TopicsUpTo(lowerText, 2);
    if AnyMatch(lowerText, BusinessKeywords) { topics := topics + ["Business"]; }
    assert topics == TopicsUpTo(lowerText, 3);
    if AnyMatch(lowerText, EntrepreneurKeywords) { topics := topics + ["Entrepreneur"]; }
    assert topics == TopicsUpTo(lowerText, 4);
    if AnyMatch(lowerText, FintechKeywords) { topics := topics + ["Fintech"]; }
    assert topics == TopicsUpTo(lowerText, 5);
    if AnyMatch(lowerText, InvestmentKeywords) { topics := topics + ["Investment"]; }
  }

  lemma {:induction false} TopicsUpToMembers(lower: string, k: nat, x: string)
    requires k <= |TopicTables|
    ensures x in TopicsUpTo(lower, k)
            <==> exists j :: 0 <= j < k && AnyMatch(lower, TopicTables[j]) && TopicNames[j] == x
  {
    if k > 0 {
      TopicsUpToMembers(lower, k - 1, x);
    }
  }

  lemma {:induction false} TopicsUpToOrdered(lower: string, k: nat)
    requires k <= |TopicTables|
    ensures IsSubsequence(TopicsUpTo(lower, k), TopicNames[..k])
  {
    if k > 0 {
      TopicsUpToOrdered(lower, k - 1);
      assert TopicNames[..k] == TopicNames[..k - 1] + [TopicNames[k - 1]];
      var prev := TopicsUpTo(lower, k - 1);
      SubsequenceSnoc(prev, TopicNames[..k - 1], TopicNames[k - 1]);
      if !AnyMatch(lower, TopicTables[k - 1]) {
        assert TopicsUpTo(lower, k) == prev + [] == prev;
      }
    }
  }

  /** The topics keep the order of the tables and name each topic at most once. */
  lemma TopicsOrdered(text: string)
    ensures IsSubsequence(Topics(text), TopicNames)
  {
    TopicsUpToOrdered(Lower(text), |TopicTables|);
    assert TopicNames[..|TopicTables|] == TopicNames;
  }

  /** A topic is present exactly when one of its keywords occurs in the lower-cased text,
      and nothing else is ever a topic (in particular not "Startup"). */
  lemma TopicsMeaning(text: string)
    ensures forall j :: 0 <= j < |TopicNames| ==>
              (TopicNames[j] in Topics(text) <==> ContainsAny(Lower(text), TopicTables[j]))
    ensures forall x :: x in Topics(text) ==> x in TopicNames
    ensures "Startup" !in Topics(text)
  {
    var lower := Lower(text);
    forall j | 0 <= j < |TopicNames|
      ensures TopicNames[j] in Topics(text) <==> ContainsAny(lower, TopicTables[j])
    {
      TopicsUpToMembers(lower, |TopicTables|, TopicNames[j]);
      AnyMatchIff(lower, TopicTables[j]);
    }
    forall x | x in Topics(text) ensures x in TopicNames {
      TopicsUpToMembers(lower, |TopicTables|, x);
    }
  }

  /** Upper and lower case do not matter. */
  lemma TopicsIgnoreCase(text: string)
    ensures Topics(Lower(text)) == Topics(text)
  {
    LowerIdempotent(text);
  }

  // ---------------------------------------------------------------------------
  // extractImage
  // ---------------------------------------------------------------------------

  /** The `url` of `media:content`, or of `media:thumbnail` when there is no
      `media:content`, if it is non-empty. */
  function MediaUrl(e: Entry): Option<string> {
    var media := if e.mediaContentUrl.Some? then e.mediaContentUrl else e.mediaThumbnailUrl;
    if media.Some? && media.value != "" then media else None
  }

  /** An enclosure whose `type` starts with "image". */
  predicate IsImageEnclosure(enc: Option<Enclosure>) {
    enc.Some? && enc.value.mime.Some? && OccursAt(enc.value.mime.value, "image", 0)
  }

  /** `extractImage(item, content)` as written: an image enclosure returns its `url`
      attribute under a non-null assertion, so an image enclosure without `url` gives null
      (None here). */
  function ExtractImageAsWritten(e: Entry, content: string, noise: string): Option<string> {
    if MediaUrl(e).Some? then MediaUrl(e)
    else if IsImageEnclosure(e.enclosure) then e.enclosure.value.url
    else Some(ExtractImage(content, noise))
  }

  /** The picture an entry gets: media url, else the url of an image enclosure that has
      one, else the first `<img src>` of the content, else the placeholder. */
  function PickImage(e: Entry, content: string, noise: string): string {
    if MediaUrl(e).Some? then MediaUrl(e).value
    else if IsImageEnclosure(e.enclosure) && e.enclosure.value.url.Some? then e.enclosure.value.url.value
    else ExtractImage(content, noise)
  }

  const ImageOnlyEntry: Entry := Entry(RssItem, "", "", "", "", "", "", None, "", "",
    Some(Enclosure(Some("image/jpeg"), None)), "", None, None)

  /** An item whose only picture is an image enclosure without `url` gets a null image. */
  lemma ImageEnclosureWithoutUrl()
    ensures ExtractImageAsWritten(ImageOnlyEntry, "", "").None?
    ensures PickImage(ImageOnlyEntry, "", "") == PicsumPrefix
  {
    assert "image/jpeg"[0..5] == "image";
    assert ImgSrc("") == None;
  }

  /** Wherever the source gives a picture, the corrected choice gives the same one. */
  lemma PickImageAgrees(e: Entry, content: string, noise: string)
    ensures ExtractImageAsWritten(e, content, noise).Some? ==>
              PickImage(e, content, noise) == ExtractImageAsWritten(e, content, noise).value
  {
  }

  /** The priority of the picture sources. */
  lemma PickImagePriority(e: Entry, content: string, noise: string)
    ensures var r := PickImage(e, content, noise);
      && (MediaUrl(e).Some? ==> r == MediaUrl(e).value && r != "")
      && (MediaUrl(e).None? && IsImageEnclosure(e.enclosure) && e.enclosure.value.url.Some? ==>
            r == e.enclosure.value.url.value)
      && (MediaUrl(e).None? && !(IsImageEnclosure(e.enclosure) && e.enclosure.value.url.Some?) ==>
            && ((exists i: nat, p: nat :: ImgMatchAt(content, i, p)) ==>
                  exists i: nat, p: nat :: FirstImgMatch(content, i, p) && SrcAt(content, p) == Some(r))
            && ((forall i: nat, p: nat :: !ImgMatchAt(content, i, p)) ==> r == PicsumPrefix + noise))
  {
    ExtractImageFacts(content, noise);
  }

  // ---------------------------------------------------------------------------
  // One entry
  // ---------------------------------------------------------------------------

  const BlurbLimit: nat := 160

  /** The description without tags cut to 160 characters, with "..." when the raw
      description is longer than 160 characters. */
  function Blurb(desc: string): string {
    Prefix(StripTags(desc), BlurbLimit) + (if |desc| > BlurbLimit then Ellipsis else "")
  }

  /** The blurb starts with at most 160 characters of the tag-free text, and ends in "..."
      exactly when the raw text is longer than 160; text that had to be cut always gets
      the "...". */
  lemma BlurbFacts(desc: string)
    ensures var body := Prefix(StripTags(desc), BlurbLimit);
      && |body| <= BlurbLimit && body == StripTags(desc)[..|body|]
      && Blurb(desc) == body + (if |desc| > BlurbLimit then Ellipsis else "")
      && (|StripTags(desc)| > BlurbLimit ==> Blurb(desc) == StripTags(desc)[..BlurbLimit] + Ellipsis)
      && (|desc| <= BlurbLimit ==> Blurb(desc) == StripTags(desc))
  {
  }

  /** The pubDate instant is valid and not older than one day before now (`new Date("")` is
      invalid). */
  predicate IsRecent(e: Entry, env: Env) {
    e.pubDate != "" && env.parse(e.pubDate).Some? && env.parse(e.pubDate).value >= env.now - MsPerDay
  }

  function SectorOf(topics: seq<string>): string {
    if "Fintech" in topics then "Fintech" else if "AI" in topics then "AI" else "General"
  }

  predicate IsStartupContext(kind: FeedType, topics: seq<string>) {
    kind == StartupFeed || kind == InvestmentFeed || "Entrepreneur" in topics || "Startup" in topics
  }

  /** 'Startup' in a startup context, else 'Economy' for business feeds and 'Tech' otherwise. */
  function CategoryOf(kind: FeedType, topics: seq<string>): NewsCategory {
    if IsStartupContext(kind, topics) then StartupNews
    else if kind == BusinessFeed then EconomyNews
    else TechNews
  }

  /** What the body of `items.forEach` decides about one entry before looking at the
      seen set: a stale entry is skipped; a recent one marks its link and yields an item
      when it has topics. */
  datatype Verdict = Stale | Fresh(link: string, item: Option<NewsItem>)

  function Judge(feed: FeedConfig, e: Entry, env: Env, fi: nat, ei: nat): Verdict {
    if !IsRecent(e, env) then Stale
    else
      var topics := Topics(e.title + " " + e.description);
      if topics == [] then Fresh(e.linkText, None)
      else
        Fresh(e.linkText, Some(NewsItem(
          "rss_" + env.stamp(fi, ei),
          CleanTitle(e.title),
          Blurb(e.description),
          e.linkText,
          feed.name,
          DayOf(env.parse(e.pubDate).value),
          feed.region,
          CategoryOf(feed.kind, topics),
          SectorOf(topics),
          PickImage(e, e.description + e.contentEncoded, env.noise(fi, ei)),
          topics)))
  }

  /** The verdict in terms of the entry: stale exactly when the date gate fails; an item
      exactly when there is a topic, linked to the entry's link, dated by the pubDate,
      placed in the feed's region and filed by the routing rule. */
  lemma JudgeFacts(feed: FeedConfig, e: Entry, env: Env, fi: nat, ei: nat)
    ensures var v := Judge(feed, e, env, fi, ei);
      var topics := Topics(e.title + " " + e.description);
      && (v.Stale? <==> !IsRecent(e, env))
      && (v.Fresh? ==> v.link == e.linkText && (v.item.Some? <==> topics != []))
      && (v.Fresh? && v.item.Some? ==>
            var n := v.item.value;
            && n.url == e.linkText && n.source == feed.name && n.region == feed.region
            && n.date == DayOf(env.parse(e.pubDate).value)
            && n.title == CleanTitle(e.title) && n.description == Blurb(e.description)
            && n.tags == topics && n.sector == SectorOf(topics)
            && (n.category == StartupNews <==> IsStartupContext(feed.kind, topics))
            && (n.category == EconomyNews <==> !IsStartupContext(feed.kind, topics) && feed.kind == BusinessFeed))
  {
  }

  // ---------------------------------------------------------------------------
  // The sync state: seenUrls, allLatest, allStartups
  // ---------------------------------------------------------------------------

  datatype Sync = Sync(seen: set<string>, latest: seq<NewsItem>, startups: seq<NewsItem>)

  /** The effect of one verdict: a link seen before is skipped; otherwise the link is
      marked seen and the item, if any, is pushed to the list its category names. */
  function Accept(st: Sync, v: Verdict): Sync {
    match v
    case Stale => st
    case Fresh(link, item) =>
      if link in st.seen then st
      else
        var seen := st.seen + {link};
        match item
        case None => st.(seen := seen)
        case Some(n) =>
          if n.category == StartupNews then Sync(seen, st.latest, st.startups + [n])
          else Sync(seen, st.latest + [n], st.startups)
  }

  /** An entry survives exactly when it is recent, its link is unseen and it has a topic;
      a recent entry with an unseen link marks it seen even when the topic gate then drops
      it. */
  lemma AcceptFacts(st: Sync, feed: FeedConfig, e: Entry, env: Env, fi: nat, ei: nat)
    ensures var st' := Accept(st, Judge(feed, e, env, fi, ei));
      var kept := IsRecent(e, env) && e.linkText !in st.seen && Topics(e.title + " " + e.description) != [];
      && |st'.latest| + |st'.startups| == |st.latest| + |st.startups| + (if kept then 1 else 0)
      && st'.seen == (if IsRecent(e, env) then st.seen + {e.linkText} else st.seen)
      && st.latest <= st'.latest && st.startups <= st'.startups
  {
    JudgeFacts(feed, e, env, fi, ei);
  }

  function Url(n: NewsItem): string {
    n.url
  }

  /** What every pushed item satisfies: it has a topic, it is dated no earlier than the
      day of the one-day-ago instant, and its tags hold its topics. */
  ghost predicate ItemOk(n: NewsItem, env: Env) {
    n.tags != [] && n.date >= DayOf(env.now - MsPerDay)
  }

  /** No link twice in a list or across the two lists, every pushed link marked seen,
      every item well formed, and each list holding only its own category. */
  ghost predicate Wellformed(st: Sync, env: Env) {
    && DistinctBy(st.latest, Url) && DistinctBy(st.startups, Url)
    && (forall a, b :: a in st.latest && b in st.startups ==> a.url != b.url)
    && (forall n :: n in st.latest ==> n.url in st.seen && ItemOk(n, env) && n.category != StartupNews)
    && (forall n :: n in st.startups ==> n.url in st.seen && ItemOk(n, env) && n.category == StartupNews)
  }

  /** What JudgeFacts promises and Accept relies on. */
  ghost predicate VerdictOk(v: Verdict, env: Env) {
    v.Fresh? && v.item.Some? ==> v.item.value.url == v.link && ItemOk(v.item.value, env)
  }

  lemma JudgeOk(feed: FeedConfig, e: Entry, env: Env, fi: nat, ei: nat)
    ensures VerdictOk(Judge(feed, e, env, fi, ei), env)
  {
    JudgeFacts(feed, e, env, fi, ei);
    if IsRecent(e, env) {
      DayOfMonotone(env.now - MsPerDay, env.parse(e.pubDate).value);
    }
  }

  lemma DayOfMonotone(a: int, b: int)
    requires a <= b
    ensures DayOf(a) <= DayOf(b)
  {
  }

  /** An item whose link no item of `s` has can be pushed without repeating a link. */
  lemma DistinctSnoc(s: seq<NewsItem>, n: NewsItem)
    requires DistinctBy(s, Url)
    requires forall x :: x in s ==> x.url != n.url
    ensures DistinctBy(s + [n], Url)
  {
    var r := s + [n];
    forall i, j | 0 <= i < j < |r| ensures Url(r[i]) != Url(r[j]) {
      assert r[i] == s[i];
      if j < |s| { assert r[j] == s[j]; }
    }
  }

  /** Accepting a verdict keeps the sync state well formed. */
  lemma AcceptKeeps(st: Sync, v: Verdict, env: Env)
    requires Wellformed(st, env) && VerdictOk(v, env)
    ensures Wellformed(Accept(st, v), env)
  {
    if v.Fresh? && v.link !in st.seen && v.item.Some? {
      var n := v.item.value;
      if n.category == StartupNews {
        DistinctSnoc(st.startups, n);
      } else {
        DistinctSnoc(st.latest, n);
      }
    }
  }

  // ---------------------------------------------------------------------------
  // The verdicts of a feed's entries
  // ---------------------------------------------------------------------------

  /** `xml.querySelectorAll("item")`: the RSS items of the parsed document, in order. */
  function RssItems(es: seq<Entry>): seq<Entry> {
    if es == [] then [] else (if es[0].kind == RssItem then [es[0]] else []) + RssItems(es[1..])
  }

  /** The items of a feed: none when the request fails, is not ok or does not parse. */
  function FeedItems(feed: FeedConfig, env: Env): seq<Entry> {
    match env.fetch(feed.url)
    case None => []
    case Some(es) => RssItems(es)
  }

  /** `vs` is the verdict on each item of the `fi`-th feed, in order. */
  ghost predicate JudgedAll(feed: FeedConfig, fi: nat, es: seq<Entry>, env: Env, vs: seq<Verdict>) {
    && |vs| == |es|
    && forall i {:trigger Judge(feed, es[i], env, fi, i)} :: 0 <= i < |es| ==> Judge(feed, es[i], env, fi, i) == vs[i]
  }

  lemma VerdictsExist(feed: FeedConfig, fi: nat, es: seq<Entry>, env: Env)
    ensures exists vs :: JudgedAll(feed, fi, es, env, vs)
  {
    var vs := seq(|es|, i requires 0 <= i < |es| => Judge(feed, es[i], env, fi, i));
    assert JudgedAll(feed, fi, es, env, vs);
  }

  /** The verdict on each item of the `fi`-th feed (the list VerdictsUnique shows to be
      the only one). */
  ghost function Verdicts(feed: FeedConfig, fi: nat, es: seq<Entry>, env: Env): (vs: seq<Verdict>)
    ensures JudgedAll(feed, fi, es, env, vs)
  {
    VerdictsExist(feed, fi, es, env);
    var vs :| JudgedAll(feed, fi, es, env, vs);
    vs
  }

  lemma VerdictsUnique(feed: FeedConfig, fi: nat, es: seq<Entry>, env: Env, vs: seq<Verdict>)
    requires JudgedAll(feed, fi, es, env, vs)
    ensures vs == Verdicts(feed, fi, es, env)
  {
    var ws := Verdicts(feed, fi, es, env);
    forall i | 0 <= i < |es| ensures vs[i] == ws[i] {
      assert Judge(feed, es[i], env, fi, i) == vs[i];
    }
  }

  lemma VerdictsOk(feed: FeedConfig, fi: nat, es: seq<Entry>, env: Env)
    ensures forall v :: v in Verdicts(feed, fi, es, env) ==> VerdictOk(v, env)
  {
    var vs := Verdicts(feed, fi, es, env);
    forall v | v in vs ensures VerdictOk(v, env) {
      var i :| 0 <= i < |vs| && vs[i] == v;
      JudgeOk(feed, es[i], env, fi, i);
    }
  }

  /** After the first `n` verdicts. */
  function RunItems(st: Sync, vs: seq<Verdict>, n: nat): Sync
    requires n <= |vs|
  {
    if n == 0 then st else Accept(RunItems(st, vs, n - 1), vs[n - 1])
  }

  /** The verdicts on the items of each feed, feed by feed. */
  ghost function AllVerdicts(feeds: seq<FeedConfig>, env: Env): (vss: seq<seq<Verdict>>)
    ensures |vss| == |feeds|
    ensures forall i :: 0 <= i < |feeds| ==> vss[i] == Verdicts(feeds[i], i, FeedItems(feeds[i], env), env)
  {
    seq(|feeds|, i requires 0 <= i < |feeds| => Verdicts(feeds[i], i, FeedItems(feeds[i], env), env))
  }

  /** After the items of the first `n` feeds. */
  function RunFeeds(st: Sync, vss: seq<seq<Verdict>>, n: nat): Sync
    requires n <= |vss|
  {
    if n == 0 then st else RunItems(RunFeeds(st, vss, n - 1), vss[n - 1], |vss[n - 1]|)
  }

  /** The state after the first `n` feeds. */
  ghost function SyncUpTo(feeds: seq<FeedConfig>, env: Env, n: nat): Sync
    requires n <= |feeds|
  {
    RunFeeds(Sync({}, [], []), AllVerdicts(feeds, env), n)
  }

  lemma SyncUpToStep(feeds: seq<FeedConfig>, env: Env, n: nat)
    requires n < |feeds|
    ensures SyncUpTo(feeds, env, n + 1)
            == RunItems(SyncUpTo(feeds, env, n), Verdicts(feeds[n], n, FeedItems(feeds[n], env), env),
                        |FeedItems(feeds[n], env)|)
  {
  }

  /** The state after all configured feeds. */
  ghost function SyncAll(feeds: seq<FeedConfig>, env: Env): Sync {
    SyncUpTo(feeds, env, |feeds|)
  }

  datatype Synced = Synced(latest: seq<NewsItem>, startup: seq<NewsItem>)

  /** The value `fetchAllFeeds` resolves to. */
  ghost function FetchAll(feeds: seq<FeedConfig>, env: Env): Synced {
    var st := SyncAll(feeds, env);
    Synced(SortDesc(st.latest, DateKey), SortDesc(st.startups, DateKey))
  }

  // ---------------------------------------------------------------------------
  // What the result always satisfies
  // ---------------------------------------------------------------------------

  lemma {:induction false} RunItemsKeeps(st: Sync, vs: seq<Verdict>, n: nat, env: Env)
    requires n <= |vs| && Wellformed(st, env)
    requires forall v :: v in vs ==> VerdictOk(v, env)
    ensures Wellformed(RunItems(st, vs, n), env)
  {
    if n > 0 {
      RunItemsKeeps(st, vs, n - 1, env);
      AcceptKeeps(RunItems(st, vs, n - 1), vs[n - 1], env);
    }
  }

  ghost predicate AllOk(vss: seq<seq<Verdict>>, env: Env) {
    forall i, v :: 0 <= i < |vss| && v in vss[i] ==> VerdictOk(v, env)
  }

  lemma AllVerdictsOk(feeds: seq<FeedConfig>, env: Env)
    ensures AllOk(AllVerdicts(feeds, env), env)
  {
    var vss := AllVerdicts(feeds, env);
    forall i | 0 <= i < |vss| ensures forall v :: v in vss[i] ==> VerdictOk(v, env) {
      VerdictsOk(feeds[i], i, FeedItems(feeds[i], env), env);
    }
  }

  lemma {:induction false} RunFeedsKeeps(st: Sync, vss: seq<seq<Verdict>>, n: nat, env: Env)
    requires n <= |vss| && Wellformed(st, env) && AllOk(vss, env)
    ensures Wellformed(RunFeeds(st, vss, n), env)
  {
    if n > 0 {
      RunFeedsKeeps(st, vss, n - 1, env);
      RunItemsKeeps(RunFeeds(st, vss, n - 1), vss[n - 1], |vss[n - 1]|, env);
    }
  }

  /** Both lists come back newest first, each holding exactly the items pushed to it;
      no link appears twice in or across them; every item was marked seen, has a topic,
      and is dated no earlier than the day of the instant one day before now; the Latest
      list never holds a startup item and the Startups list holds nothing else. */
  lemma FetchAllFacts(feeds: seq<FeedConfig>, env: Env)
    ensures var st := SyncAll(feeds, env);
      var r := FetchAll(feeds, env);
      && SortedDesc(r.latest, DateKey) && SortedDesc(r.startup, DateKey)
      && multiset(r.latest) == multiset(st.latest) && multiset(r.startup) == multiset(st.startups)
      && DistinctBy(r.latest, Url) && DistinctBy(r.startup, Url)
      && (forall a, b :: a in r.latest && b in r.startup ==> a.url != b.url)
      && (forall n :: n in r.latest ==> n.url in st.seen && ItemOk(n, env) && n.category != StartupNews)
      && (forall n :: n in r.startup ==> n.url in st.seen && ItemOk(n, env) && n.category == StartupNews)
  {
    var st := SyncAll(feeds, env);
    AllVerdictsOk(feeds, env);
    RunFeedsKeeps(Sync({}, [], []), AllVerdicts(feeds, env), |feeds|, env);
    SortKeepsDistinct(st.latest, DateKey, Url);
    SortKeepsDistinct(st.startups, DateKey, Url);
    forall n ensures n in SortDesc(st.latest, DateKey) <==> n in st.latest {
      SortedMembers(st.latest, DateKey, n);
    }
    forall n ensures n in SortDesc(st.startups, DateKey) <==> n in st.startups {
      SortedMembers(st.startups, DateKey, n);
    }
  }

  // ---------------------------------------------------------------------------
  // fetchAllFeeds
  // ---------------------------------------------------------------------------

  /** The body of `items.forEach` for the `ei`-th item of the `fi`-th feed. */
  method ProcessItem(feed: FeedConfig, fi: nat, items: seq<Entry>, ei: nat, env: Env,
                     seenUrls: set<string>, allLatest: seq<NewsItem>, allStartups: seq<NewsItem>)
    returns (seenUrls': set<string>, allLatest': seq<NewsItem>, allStartups': seq<NewsItem>)
    requires ei < |items|
    ensures Sync(seenUrls', allLatest', allStartups')
            == Accept(Sync(seenUrls, allLatest, allStartups), Verdicts(feed, fi, items, env)[ei])
  {
    ghost var verdict := Verdicts(feed, fi, items, env)[ei];
    assert verdict == Judge(feed, items[ei], env, fi, ei);
    seenUrls', allLatest', allStartups' := seenUrls, allLatest, allStartups;
    var item := items[ei];
    var title := item.title;
    var link := item.linkText;
    var pubDateStr := item.pubDate;
    var desc := item.description;
    var contentEncoded := item.contentEncoded;

    var pubDate := if pubDateStr == "" then None else env.parse(pubDateStr);
    if pubDate.None? || pubDate.value < env.now - MsPerDay {
      return;
    }

    if link in seenUrls {
      return;
    }
    seenUrls' := seenUrls + {link};

    var topics := IdentifyTopics(title + " " + desc);
    if |topics| == 0 {
      return;
    }

    var newsItem := NewsItem("rss_" + env.stamp(fi, ei), CleanTitle(title), Blurb(desc), link,
      feed.name, DayOf(pubDate.value), feed.region, TechNews, SectorOf(topics),
      PickImage(item, desc + contentEncoded, env.noise(fi, ei)), topics);

    var isStartupContext := feed.kind == StartupFeed || feed.kind == InvestmentFeed
                            || "Entrepreneur" in topics || "Startup" in topics;
    if isStartupContext {
      newsItem := newsItem.(category := StartupNews);
      allStartups' := allStartups' + [newsItem];
    } else {
      newsItem := newsItem.(category := if feed.kind == BusinessFeed then EconomyNews else TechNews);
      allLatest' := allLatest' + [newsItem];
    }
  }

  /** The `items.forEach` loop of one feed. */
  method ProcessFeed(feed: FeedConfig, fi: nat, items: seq<Entry>, env: Env,
                     seenUrls: set<string>, allLatest: seq<NewsItem>, allStartups: seq<NewsItem>)
    returns (seenUrls': set<string>, allLatest': seq<NewsItem>, allStartups': seq<NewsItem>)
    ensures Sync(seenUrls', allLatest', allStartups')
            == RunItems(Sync(seenUrls, allLatest, allStartups), Verdicts(feed, fi, items, env), |items|)
  {
    ghost var vs := Verdicts(feed, fi, items, env);
    seenUrls', allLatest', allStartups' := seenUrls, allLatest, allStartups;
    for ei := 0 to |items|
      invariant Sync(seenUrls', allLatest', allStartups') == RunItems(Sync(seenUrls, allLatest, allStartups), vs, ei)
    {
      seenUrls', allLatest', allStartups' := ProcessItem(feed, fi, items, ei, env, seenUrls', allLatest', allStartups');
    }
  }

  /** One feed: its request, its items, and the item loop; a failed request leaves the
      state unchanged. */
  method SyncFeed(feed: FeedConfig, fi: nat, env: Env,
                  seenUrls: set<string>, allLatest: seq<NewsItem>, allStartups: seq<NewsItem>)
    returns (seenUrls': set<string>, allLatest': seq<NewsItem>, allStartups': seq<NewsItem>)
    ensures Sync(seenUrls', allLatest', allStartups')
            == RunItems(Sync(seenUrls, allLatest, allStartups), Verdicts(feed, fi, FeedItems(feed, env), env),
                        |FeedItems(feed, env)|)
  {
    var items: seq<Entry> := [];
    var response := env.fetch(feed.url);
    if response.Some? {
      items := RssItems(response.value);
    }
    assert items == FeedItems(feed, env);
    seenUrls', allLatest', allStartups' := ProcessFeed(feed, fi, items, env, seenUrls, allLatest, allStartups);
  }

  /** Fetches the feeds one after another. */
  method SyncFeeds(feeds: seq<FeedConfig>, env: Env)
    returns (seenUrls: set<string>, allLatest: seq<NewsItem>, allStartups: seq<NewsItem>)
    ensures Sync(seenUrls, allLatest, allStartups) == SyncAll(feeds, env)
  {
    seenUrls, allLatest, allStartups := {}, [], [];
    for fi := 0 to |feeds|
      invariant Sync(seenUrls, allLatest, allStartups) == SyncUpTo(feeds, env, fi)
    {
      SyncUpToStep(feeds, env, fi);
      seenUrls, allLatest, allStartups := SyncFeed(feeds[fi], fi, env, seenUrls, allLatest, allStartups);
    }
  }

  /** `fetchAllFeeds()` over the configured feeds; what the result satisfies is
      FetchAllFacts. */
  method FetchAllFeeds(env: Env) returns (result: Synced)
    ensures result == FetchAll(Feeds, env)
  {
    var seenUrls, allLatest, allStartups := SyncFeeds(Feeds, env);
    result := Synced(SortDesc(allLatest, DateKey), SortDesc(allStartups, DateKey));
  }
}
