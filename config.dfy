/** constants.ts: the configured feeds, the keyword tables and the resource list derived
    from the feeds. */
module Config {
  import opened Text
  import opened Types

  /** The `type` of a configured feed. */
  datatype FeedType = TechFeed | InvestmentFeed | StartupFeed | BusinessFeed

  datatype FeedConfig = FeedConfig(name: string, url: string, region: Region, kind: FeedType)

  const FeedHost: string := "https://rss.app/feeds/"
  const SiteHost: string := "https://site.com/"

  /** RSS_CONFIG.FEEDS, in order. */
  const Feeds: seq<FeedConfig> := [
    FeedConfig("TechCrunch", FeedHost + "QuECLd94BZYymuXm.xml", Global, TechFeed),
    FeedConfig("The Verge", FeedHost + "kbQFmIIkxmghARwP.xml", Global, TechFeed),
    FeedConfig("Wired", FeedHost + "ryhuzL1yWfePPf8a.xml", Global, TechFeed),
    FeedConfig("PitchBook", FeedHost + "tveGkbeoNHNBi5Nl.xml", Global, InvestmentFeed),
    FeedConfig("Crunchbase", FeedHost + "3GNKIqni3yaWtZ2g.xml", Global, StartupFeed),
    FeedConfig("VC LinkedIn", FeedHost + "Lx2DptjiB72xD02R.xml", Global, InvestmentFeed),
    FeedConfig("MENAbytes", FeedHost + "u2NLarkFLra75E5Q.xml", MENA, StartupFeed),
    FeedConfig("Daily Egypt", FeedHost + "M8240CPa4y6GPq1A.xml", Egypt, BusinessFeed),
    FeedConfig("Al Mal News", FeedHost + "HIhpZO6fuME1qzme.xml", Egypt, BusinessFeed),
    FeedConfig("Wamda", FeedHost + "tkwEU2EqOIvEnUz7.xml", MENA, StartupFeed)
  ]

  // RSS_CONFIG.KEYWORDS
  const TechKeywords: seq<string> := ["hardware", "moore's law", "robotaxi", "ar/vr", "aws",
    "chips", "silicon", "meta glasses", "waymo", "gelsinger", "apple", "nvidia", "tech",
    "technology"]
  const AiKeywords: seq<string> := ["ai agents", "chatgpt", "synthetic", "meta ai", "yoodli",
    "llm", "generative", "openai", "anthropic", "intelligence", "ai", "artificial intelligence"]
  const BusinessKeywords: seq<string> := ["netflix", "deal", "market analysis",
    "energy storage", "esim", "warner", "acquisition", "merger", "revenue", "business", "stock",
    "economy"]
  const EntrepreneurKeywords: seq<string> := ["founder", "refound", "beeple", "limitless",
    "startup story", "bootstrapping", "entrepreneur"]
  const FintechKeywords: seq<string> := ["fintech", "valuation", "series a", "series b", "seed",
    "secondary sale", "funding", "payment", "bank", "invest"]
  const InvestmentKeywords: seq<string> := ["valuation", "capital", "venture", "equity",
    "spacex", "pitchbook", "investor", "$", "fund", "raising"]

  lemma TechKeywordsLower()
    ensures forall i :: 0 <= i < |TechKeywords| ==> IsLower(TechKeywords[i])
  {
  }

  lemma AiKeywordsLower()
    ensures forall i :: 0 <= i < |AiKeywords| ==> IsLower(AiKeywords[i])
  {
  }

  lemma BusinessKeywordsLower()
    ensures forall i :: 0 <= i < |BusinessKeywords| ==> IsLower(BusinessKeywords[i])
  {
  }

  lemma EntrepreneurKeywordsLower()
    ensures forall i :: 0 <= i < |EntrepreneurKeywords| ==> IsLower(EntrepreneurKeywords[i])
  {
  }

  lemma FintechKeywordsLower()
    ensures forall i :: 0 <= i < |FintechKeywords| ==> IsLower(FintechKeywords[i])
  {
  }

  lemma InvestmentKeywordsLower()
    ensures forall i :: 0 <= i < |InvestmentKeywords| ==> IsLower(InvestmentKeywords[i])
  {
  }

  /** Every keyword of the six tables is already in lower case, so each can match the
      lower-cased text it is tested against. */
  lemma KeywordsLowerCase()
    ensures forall w :: w in TechKeywords ==> IsLower(w)
    ensures forall w :: w in AiKeywords ==> IsLower(w)
    ensures forall w :: w in BusinessKeywords ==> IsLower(w)
    ensures forall w :: w in EntrepreneurKeywords ==> IsLower(w)
    ensures forall w :: w in FintechKeywords ==> IsLower(w)
    ensures forall w :: w in InvestmentKeywords ==> IsLower(w)
  {
    TechKeywordsLower();
    AiKeywordsLower();
    BusinessKeywordsLower();
    EntrepreneurKeywordsLower();
    FintechKeywordsLower();
    InvestmentKeywordsLower();
  }

  /** "valuation" counts both as a fintech and as an investment keyword. */
  lemma ValuationInBoth()
    ensures "valuation" in FintechKeywords && "valuation" in InvestmentKeywords
  {
    assert FintechKeywords[1] == "valuation";
    assert InvestmentKeywords[0] == "valuation";
  }

  /** The resource registered for the `i`-th configured feed. */
  function ResourceFor(f: FeedConfig, i: nat): (r: Resource)
    ensures r.name == f.name && r.rssUrl == Some(f.url)
    ensures r.kind == StartupSource <==> f.kind == StartupFeed
    ensures r.kind == StartupSource || r.kind == NewsSource
    ensures !Contains(f.url, FeedHost) ==> r.url == f.url
    ensures r.description == Some("Official RSS Feed for " + r.name)
  {
    Resource(
      "r_" + NatToString(i),
      f.name,
      ReplaceFirst(f.url, FeedHost, SiteHost),
      Some(f.url),
      if f.kind == StartupFeed then StartupSource else NewsSource,
      Some("Official RSS Feed for " + f.name))
  }

  /** The id is `r_` followed by the feed's index, which reads back from it. */
  lemma ResourceIdNamesIndex(f: FeedConfig, i: nat)
    ensures var id := ResourceFor(f, i).id;
      |id| > 2 && id[..2] == "r_" && ParseInt(id[2..]) == Some(i)
  {
    var id := ResourceFor(f, i).id;
    assert id[2..] == NatToString(i);
    ParseIntRoundTrip(i);
  }

  /** A feed url on the feed host becomes the same path on the site host. */
  lemma ResourceSiteUrl(f: FeedConfig, i: nat)
    requires OccursAt(f.url, FeedHost, 0)
    ensures ResourceFor(f, i).url == SiteHost + f.url[|FeedHost|..]
  {
    ReplacePrefix(f.url, FeedHost, SiteHost);
  }

  /** `FEEDS.map((f, i) => ...)`. */
  function DeriveResources(feeds: seq<FeedConfig>): (rs: seq<Resource>)
    ensures |rs| == |feeds|
    ensures forall i :: 0 <= i < |feeds| ==> rs[i] == ResourceFor(feeds[i], i)
  {
    seq(|feeds|, i requires 0 <= i < |feeds| => ResourceFor(feeds[i], i))
  }

  /** RESOURCES. */
  function Resources(): seq<Resource> {
    DeriveResources(Feeds)
  }

  /** The derived ids `r_0`, `r_1`, ... never collide. */
  lemma DerivedIdsDistinct(feeds: seq<FeedConfig>, i: nat, j: nat)
    requires i < j < |feeds|
    ensures DeriveResources(feeds)[i].id != DeriveResources(feeds)[j].id
  {
    var rs := DeriveResources(feeds);
    if rs[i].id == rs[j].id {
      assert rs[i].id == "r_" + NatToString(i) && rs[j].id == "r_" + NatToString(j);
      assert NatToString(i) == rs[i].id[2..] && NatToString(j) == rs[j].id[2..];
      NatToStringInjective(i, j);
    }
  }

  /** Every configured feed lives on the feed host, so every resource gets a site url with
      the same path and an rss url long enough for the fetcher to accept it. */
  lemma ConfiguredResources(i: nat)
    requires i < |Feeds|
    ensures |Resources()| == 10
    ensures Resources()[i].url == SiteHost + Feeds[i].url[|FeedHost|..]
    ensures Resources()[i].rssUrl == Some(Feeds[i].url) && |Feeds[i].url| > 5
  {
    var f := Feeds[i];
    assert f.url[..|FeedHost|] == FeedHost;
    assert OccursAt(f.url, FeedHost, 0);
    ResourceSiteUrl(f, i);
  }
}
