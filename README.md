# NexusMena feed core, modelled in Dafny

NexusMena is a news dashboard for the Egyptian and MENA tech and startup scene. Its core
is made of the following pieces:

- **`fetchAndProcessFeeds`** (`utils/rssFetcher.ts`) is the live path. It fetches every
  registered resource that has a feed URL and sorts each entry into one of three places:
  - the podcast list, for entries of podcast feeds;
  - the Latest pool and the entry's source group on the Startups page, for news entries
    that pass the relevance pattern;
  - nowhere, for the other news entries.
  It then ranks the pool by date and score and keeps the twelve top stories.
- **`fetchAllFeeds`** (`services/contentService.ts`) is the strict path. It runs over the
  configured feeds and applies, in order, a one-day date gate, first-seen-wins link
  deduplication and a keyword topic gate. It then routes each surviving item either to
  the Latest list or to the Startups list, and returns both lists newest first.
- **`constants.ts`** holds the feed list and the six keyword tables, and derives the
  default resource list from the feeds.
- **The application provider** (`context/AppContext.tsx`) owns the following state:
  - favorites and saved chats;
  - the Latest and Startups lists and the grouped startups;
  - resources and podcasts;
  - the last-fetch stamp.
  Its setters update that state, and `refreshCategoryFeed` applies a fetch result to it.
- **The Admin page** (`pages/Admin.tsx`) turns a YouTube channel or playlist link into
  its feed URL. On submit it either registers a data source or builds a manual item.
- **The Startups page** (`pages/Startups.tsx`) filters the grouped articles by search
  term, region, sector and source. It hides groups left empty, counts what it shows and
  syncs on mount when there is nothing to show.

The model has one Dafny module per core file: `RssFetcher`, `ContentService`, `Config`,
`AppContext`, `Admin` and `Startups`. Three shared modules support them:

- `Types` holds the records of `types.ts` and the string-keyed dictionary of groups. The
  dictionary is an association list that keeps insertion order. That is how JavaScript
  orders the keys of such an object when none of them looks like an array index and none
  is `__proto__` (see Left out).
- `Text` holds the JavaScript string operations and the two regular expressions the
  fetchers use.
- `Sorting` holds the stable `Array.prototype.sort` with a `(a, b) => key(b) - key(a)`
  comparator, `filter` and `slice`.

Code that updates state step by step is written as methods:

- the per-feed and per-entry `forEach` loops of both fetchers, which push into arrays,
  the seen set and the group dictionary;
- `identifyTopics`;
- the `totalVisibleItems` loop of the Startups page;
- the submit handler;
- the provider, which is a class whose fields the setters update.

Each such method is proved equal to a specification function. The properties are proved
about those functions.

The world outside is a parameter (`Types.Env`):

- `fetch(url)` gives the parsed entries of a feed, or nothing when the request fails;
- `parse(text)` is `new Date(text)`;
- `now` is the clock;
- `stamp`/`noise` stand for the `Date.now()` and `Math.random()` text of each entry.

An item date is its UTC day number, which is what the `YYYY-MM-DD` string encodes.

## Model

| member | source | states |
|---|---|---|
| Text.Lower | utils/rssFetcher.ts:150 | `Lower` keeps the length of the text (ASCII model; see Left out) |
| Text.LowerIsLower | services/contentService.ts:8 | a lowered string has no upper-case letter, and an already lower-case string is unchanged |
| Text.LowerIdempotent | utils/rssFetcher.ts:19 | lowering twice is lowering once |
| Text.LowerConcat | utils/rssFetcher.ts:150 | lowering `title + " " + desc` lowers each part |
| Text.IndexFromFacts | utils/rssFetcher.ts:20-31 | `indexOf(sub, k)` returns an occurrence with none before it from `k` on, or none exists from `k` on |
| Text.ContainsIff | utils/rssFetcher.ts:20-31 | `includes` holds exactly when the pattern occurs at some index |
| Text.ContainsInConcat | utils/rssFetcher.ts:150 | a word found in the title or the description is found in their concatenation |
| Text.AnyMatchIff | services/contentService.ts:12-17 | the left-to-right `some(k => text.includes(k))` holds exactly when some keyword occurs |
| Text.ReplaceFirstAt | utils/rssFetcher.ts:95 | a string-pattern `replace` swaps only the first occurrence and leaves the rest intact |
| Text.ReplacePrefix | constants.ts:146 | replacing a pattern that starts the string swaps exactly that prefix |
| Text.TrimStartFacts | utils/rssFetcher.ts:95 | the leading white space, and only it, is dropped |
| Text.TrimEndFacts | utils/rssFetcher.ts:95 | the trailing white space, and only it, is dropped |
| Text.TrimFacts | utils/rssFetcher.ts:95 | `trim()` is a slice of the input with only white space around it, and neither starts nor ends with white space |
| Text.TrimKeepsTrimmed | utils/rssFetcher.ts:95 | a string with no white space at its ends is its own trim |
| Text.CleanTitle | utils/rssFetcher.ts:95 | the cleaned title never starts or ends with white space |
| Text.CloseOnlyAtEnd | utils/rssFetcher.ts:95 | in a title followed by `]]>`, the first `]]>` is the appended one when the title holds none |
| Text.CleanTitleUnwraps | services/contentService.ts:88 | removing the CDATA opener and closer and trimming gives back a trimmed title wrapped in a CDATA section |
| Text.StripTags | utils/rssFetcher.ts:96 | `replace(/<[^>]*>/g, '')` is no longer than its input, adds no character and leaves no complete tag |
| Text.StripTagsDropsTag | utils/rssFetcher.ts:96 | text up to the first `<` is kept, and a tag `<…>` that follows is removed whole |
| Text.StripTagsKeepsPlain | utils/rssFetcher.ts:96 | text without `<` in front of the rest is kept as it is |
| Text.StripTagsDropsLeadingTag | utils/rssFetcher.ts:96 | a tag at the start, from `<` to the first `>`, is removed |
| Text.StripTagsSubsequence | utils/rssFetcher.ts:96 | the result is the input with characters removed, in their order |
| Text.FirstIndexOfIs | utils/rssFetcher.ts:96 | the tag ends at the first `>` after its `<` |
| Text.StripTagsKeepsTagFree | utils/rssFetcher.ts:96 | text holding no tag passes through unchanged |
| Text.StripTagsIdempotent | services/contentService.ts:89 | stripping twice is stripping once |
| Text.LastSrcWhich | utils/rssFetcher.ts:13 | the greedy `[^>]+` backs off to the last `src="…"` of the tag that matches, and the tag fails exactly when none does |
| Text.ImgAtWhich | utils/rssFetcher.ts:13 | the attempt at one `<img` fails exactly when no `src="` within its tag matches, and otherwise captures at the last one that does |
| Text.ImgFromWhich | utils/rssFetcher.ts:13 | the scan from an index finds nothing exactly when no match starts there or later, and otherwise captures at the leftmost `<img` that matches |
| Text.ImgSrcFacts | utils/rssFetcher.ts:13 | `/<img[^>]+src="([^">]+)"/` matches exactly when some `<img` has a `src="…"` in its tag; the capture is the value after the last `src="` of the leftmost such `<img`, a non-empty value without `"` or `>` that appears as `src="value"` in the text; there is no match without `<img` |
| Text.NatToString | constants.ts:144 | `${n}` is a non-empty run of decimal digits with no leading zero |
| Text.NatToStringInjective | constants.ts:144 | distinct numbers print differently |
| Text.LeadingDigitsFacts | context/AppContext.tsx:135 | the digit run `parseInt` reads is made of digits and ends at the end or at a non-digit |
| Text.ParseIntRoundTrip | context/AppContext.tsx:135 | `parseInt` of `Date.now().toString()` (line 328) reads back the same number |
| Types.Sources | utils/rssFetcher.ts:47 | `Object.keys` lists each group's name in insertion order (names that do not look like array indices; see Left out) |
| Types.Lookup | utils/rssFetcher.ts:180 | `groups[name]` exists exactly for a key of the dictionary, and is then the list stored under it |
| Types.Assign | utils/rssFetcher.ts:47 | an assignment adds a key only when it is new |
| Types.AssignSources | utils/rssFetcher.ts:45-49 | an existing key keeps its place and a new key goes last (insertion order; see Left out) |
| Types.AssignLookup | utils/rssFetcher.ts:47 | after `groups[name] = items`, `name` reads `items` and every other key reads what it read before |
| Types.AssignDistinct | utils/rssFetcher.ts:45-49 | keys stay distinct |
| Types.Append | utils/rssFetcher.ts:180-181 | the guarded push does nothing for a missing key |
| Types.AppendFacts | utils/rssFetcher.ts:180-181 | the guarded push keeps the keys, extends only the named group by the item and keeps keys distinct |
| Types.FlattenLength | context/AppContext.tsx:313 | `Object.values(groups).flat()` has as many items as all groups together |
| Types.FlattenMembers | context/AppContext.tsx:313 | an item is in the flattened list exactly when some group holds it |
| Types.FlattenAppend | pages/Startups.tsx:164 | flattening distributes over concatenation of dictionaries |
| Types.TotalItemsAppend | pages/Startups.tsx:182 | the item count distributes over concatenation of dictionaries |
| Types.ExtractImageFacts | utils/rssFetcher.ts:12-15 | when the image pattern matches, the picture is the capture of its leftmost match (the last `src="` of the first `<img` that has one), a `src` value found in the content; when it matches nowhere, and always without `<img`, the picture is the placeholder |
| Sorting.Insert | utils/rssFetcher.ts:192 | insertion adds exactly one copy of the element |
| Sorting.InsertSorted | utils/rssFetcher.ts:192 | inserting into a non-increasing list keeps it non-increasing |
| Sorting.SortDesc | utils/rssFetcher.ts:192 | the sort is a permutation of its input in non-increasing key order |
| Sorting.SortedMembers | services/contentService.ts:125-126 | sorting neither adds nor loses an element |
| Sorting.SortIsStable | utils/rssFetcher.ts:202 | elements with equal keys keep their relative order (the sort is stable) |
| Sorting.InsertWithKey | utils/rssFetcher.ts:202 | inserting an element changes the equal-key sublist of its own key only, by putting it first |
| Sorting.WithKeyMembers | utils/rssFetcher.ts:202 | the equal-key sublist holds exactly the elements with that key |
| Sorting.InsertLex | utils/rssFetcher.ts:202 | inserting by the first key an element no smaller by the second key keeps the lexicographic order |
| Sorting.SortThenSort | utils/rssFetcher.ts:192-202 | sorting by score a list already sorted by date orders it by score, then newest first |
| Sorting.Prefix | utils/rssFetcher.ts:203 | `slice(0, n)`, and `substring(0, n)` on text (services/contentService.ts:89), is the prefix of length `min(n, length)` |
| Sorting.PrefixOfSortedLex | utils/rssFetcher.ts:203 | the cut keeps the order, is a sub-multiset, and nothing cut off comes before anything kept |
| Sorting.InsertDistinct | services/contentService.ts:125-126 | inserting an element of a new identity keeps identities distinct |
| Sorting.SortKeepsDistinct | services/contentService.ts:125-126 | sorting a list with distinct links keeps them distinct |
| Sorting.SubsequenceOfSuffix | utils/rssFetcher.ts:96 | what is kept from a suffix of a list is kept from the list |
| Sorting.SubsequenceSnoc | pages/Startups.tsx:171 | appending to both lists, or to the longer one only, keeps a subsequence |
| Sorting.FilterFacts | pages/Startups.tsx:171 | `filter` keeps exactly the passing elements, in order, is no longer than its input, and changes nothing when all pass |
| Sorting.FilterSnoc | context/AppContext.tsx:271 | `filter` of a list with one more element decides that element alone |
| Config.KeywordsLowerCase | constants.ts:27-34 | every keyword of the six tables is lower case |
| Config.ValuationInBoth | constants.ts:32-33 | "valuation" is both a fintech and an investment keyword |
| Config.ResourceFor | constants.ts:143-150 | the resource keeps the feed's name, its url as rss url and the 'Official RSS Feed for' description; it is a Startup resource exactly for a Startup feed and a News resource otherwise |
| Config.ResourceIdNamesIndex | constants.ts:144 | the id is `r_` followed by the feed's index, which reads back |
| Config.ResourceSiteUrl | constants.ts:146 | a feed url on `https://rss.app/feeds/` becomes the same path on `https://site.com/` |
| Config.DeriveResources | constants.ts:143 | one resource per feed, in feed order |
| Config.DerivedIdsDistinct | constants.ts:144 | no two derived resources share an id |
| Config.ConfiguredResources | constants.ts:15-26 | the ten configured feeds give ten resources with site urls and rss urls the fetcher accepts (longer than five characters) |
| RssFetcher.IdentifySector | utils/rssFetcher.ts:18-34 | the sector is always one of the eleven labels or 'General' |
| RssFetcher.FirstMatchFacts | utils/rssFetcher.ts:18-34 | the table read from rule `k` gives the label of the first rule with a matching keyword, or 'General' when none matches |
| RssFetcher.SectorIsFirstMatch | utils/rssFetcher.ts:18-34 | the first-match table is the source's if-chain Fintech, AI, Healthtech, Proptech, E-commerce, SaaS, Deep Tech, Investment, Technology, Entrepreneurship, Business, General on the lower-cased text |
| RssFetcher.FirstRules | utils/rssFetcher.ts:20-22 | the first three rules test "fintech/bank/payment", "ai "/"artificial intelligence"/"llm" (with the trailing space) and "health/medtech" |
| RssFetcher.FourthFifthRules | utils/rssFetcher.ts:23-24 | rules four and five test "proptech/real estate" and "e-commerce/retail" |
| RssFetcher.SixthSeventhRules | utils/rssFetcher.ts:25-26 | rules six and seven test "saas/cloud" and "deep tech/biotech" |
| RssFetcher.LastRules | utils/rssFetcher.ts:28-33 | the last four rules and the 'General' fallback |
| RssFetcher.RulesAvoidFallback | utils/rssFetcher.ts:20-31 | no rule is labelled 'General' |
| RssFetcher.SectorMeaning | utils/rssFetcher.ts:18-34 | the sector is 'General' exactly when no keyword of any rule occurs, and otherwise the label of the first rule whose keyword occurs |
| RssFetcher.SectorIgnoresCase | utils/rssFetcher.ts:19 | the sector does not depend on letter case |
| RssFetcher.EntryLink | utils/rssFetcher.ts:69-75 | the link is the `<link>` text, or its `href`, and is empty only when both are |
| RssFetcher.EntryDate | utils/rssFetcher.ts:78-84 | the day of the parsed `pubDate`/`published` date, or today when it is absent or does not parse |
| RssFetcher.CleanDescription | utils/rssFetcher.ts:96 | the description always ends in "..." after at most 200 characters of the tag-free text, which are its prefix |
| RssFetcher.CleanDescriptionOfPlainText | utils/rssFetcher.ts:96 | a short tag-free description survives whole, followed by "..." |
| RssFetcher.AudioUrl | utils/rssFetcher.ts:113-116 | an audio url exists exactly for an enclosure whose type mentions "audio" and that has a non-empty url, and is that url |
| RssFetcher.PodcastOf | utils/rssFetcher.ts:99-146 | a video id gives the watch link and the YouTube thumbnail; otherwise the audio enclosure and the iTunes image, else the description's image; never both a video and an audio link |
| RssFetcher.RegionFor | utils/rssFetcher.ts:156-158 | Egypt exactly for '.eg' in the url or 'Egypt'/'Mal' in the name; MENA exactly for 'Wamda'/'MENA' in the name otherwise; Global otherwise |
| RssFetcher.NewsOfShape | utils/rssFetcher.ts:150-174 | a relevant entry becomes a 'Tech' item of its feed with the cleaned title and description, the entry's date and link, the feed's region, the sector of its own text as its only tag, and the description's image |
| RssFetcher.Route | utils/rssFetcher.ts:99-153 | podcast feeds give only episodes, of their own source; news feeds give only news items |
| RssFetcher.RouteFilters | utils/rssFetcher.ts:150-153 | a news feed keeps an entry exactly when its lower-cased title and description match the relevance pattern |
| RssFetcher.ValidFeeds | utils/rssFetcher.ts:42 | exactly the resources whose rss url is longer than five characters are fetched, in their list order |
| RssFetcher.RoutesUnique | utils/rssFetcher.ts:65-183 | the per-entry outcomes of a feed are determined by its entries |
| RssFetcher.ScoreDecodes | utils/rssFetcher.ts:194-200 | the score is 5 for today, plus 3 for a trusted source, plus 4 for an important keyword in the title; each bonus can be read back from the total |
| RssFetcher.RankFacts | utils/rssFetcher.ts:192-203 | the top list has min(12, pool) items, is a sub-multiset of the pool, is ordered by score and newest first among equal scores, and beats every item left out |
| RssFetcher.FromSourceAppend | utils/rssFetcher.ts:177-182 | an article joins the list of its own source only |
| RssFetcher.AbsorbKeeps | utils/rssFetcher.ts:144-182 | one entry's pushes keep the sync invariant: one group per news feed, each mirroring that source's articles as 'Startup' copies; articles only from news feeds; episodes only from podcast feeds |
| RssFetcher.RunEntriesKeeps | utils/rssFetcher.ts:65-183 | a feed's entry loop keeps the sync invariant |
| RssFetcher.RunFeedsKeeps | utils/rssFetcher.ts:53-189 | the loop over the feeds keeps the sync invariant |
| RssFetcher.InitGroupsFacts | utils/rssFetcher.ts:45-49 | before any fetch, every valid non-podcast feed name has an empty group and no other key exists |
| RssFetcher.StartWellformed | utils/rssFetcher.ts:37-49 | the sync starts from a state that satisfies the invariant |
| RssFetcher.ProcessFeedsFacts | utils/rssFetcher.ts:36-209 | the result holds at most twelve top stories, all relevant news items from valid news feeds, in score-then-date order; one group per valid news feed name, even when its fetch failed, holding the 'Startup' copies of that source's articles; episodes only from podcast feeds |
| RssFetcher.Push | utils/rssFetcher.ts:144-182 | the pushes of one entry: an episode to the podcasts; a news item to the articles and, when the key exists, to its group |
| RssFetcher.RouteEntry | utils/rssFetcher.ts:65-183 | the body of `items.forEach` computes where the entry goes |
| RssFetcher.ProcessEntries | utils/rssFetcher.ts:65-183 | the entry loop makes the pushes of every entry in order |
| RssFetcher.SetUpGroups | utils/rssFetcher.ts:45-49 | the group initialisation loop builds the initial groups |
| RssFetcher.FetchFeed | utils/rssFetcher.ts:53-63 | a feed whose request fails pushes nothing; otherwise its entries are processed |
| RssFetcher.FetchFeeds | utils/rssFetcher.ts:53-189 | the feeds are processed one after another in list order |
| RssFetcher.FetchAndProcessFeeds | utils/rssFetcher.ts:36-210 | the method computes the value ProcessFeedsFacts describes |
| ContentService.IdentifyTopics | services/contentService.ts:7-20 | the pushes compute the topics of the text |
| ContentService.TopicsOrdered | services/contentService.ts:7-20 | the topics are an order-preserving subsequence of Tech, AI, Business, Entrepreneur, Fintech, Investment |
| ContentService.TopicsUpToMembers | services/contentService.ts:12-17 | a name is pushed exactly when its table has a keyword in the lower-cased text |
| ContentService.TopicsMeaning | services/contentService.ts:12-17 | each topic is present exactly when one of its table's keywords occurs in the lower-cased text; nothing else is ever a topic, in particular never "Startup" |
| ContentService.TopicsIgnoreCase | services/contentService.ts:8 | the topics do not depend on letter case |
| ContentService.ImageEnclosureWithoutUrl | services/contentService.ts:29-30 | an item whose only picture is an image enclosure without `url` gets a null image as written, and the placeholder under the corrected choice |
| ContentService.PickImageAgrees | services/contentService.ts:23-38 | wherever the source yields a picture, the corrected choice yields the same one |
| ContentService.PickImagePriority | services/contentService.ts:23-38 | media url first, then an image enclosure's url; otherwise the capture of the image pattern's leftmost match in the content when it matches, else the placeholder |
| ContentService.BlurbFacts | services/contentService.ts:89 | at most 160 characters of the tag-free text, plus "..." exactly when the raw description is longer than 160 |
| ContentService.JudgeFacts | services/contentService.ts:62-109 | an entry is stale exactly when its pubDate is invalid or older than a day; a fresh one yields an item exactly when it has a topic, with the entry's link and date, the feed's region, the topics as tags, Fintech/AI/General as sector, and 'Startup' exactly in a startup context, 'Economy' exactly for business feeds otherwise |
| ContentService.AcceptFacts | services/contentService.ts:69-83 | an entry survives exactly when it is recent, its link unseen and it has a topic; a recent entry marks its link seen even when the topic gate then drops it |
| ContentService.JudgeOk | services/contentService.ts:86-98 | every item has a topic, its link as url, and a date no earlier than the day of the instant a day ago |
| ContentService.AcceptKeeps | services/contentService.ts:75-109 | one entry keeps the sync invariant: no link twice in or across the lists, every pushed link seen, each list holding only its own category |
| ContentService.VerdictsUnique | services/contentService.ts:60-110 | the per-item outcomes of a feed are determined by its items |
| ContentService.RunItemsKeeps | services/contentService.ts:60-110 | a feed's item loop keeps the sync invariant |
| ContentService.RunFeedsKeeps | services/contentService.ts:51-117 | the loop over the feeds keeps the sync invariant |
| ContentService.FetchAllFacts | services/contentService.ts:40-128 | both lists come back newest first as permutations of what was pushed; no link appears twice in or across them; every item has a topic and is at most a day old; Latest never holds a 'Startup' item and Startups holds nothing else |
| ContentService.ProcessItem | services/contentService.ts:60-110 | the body of `items.forEach` applies the gates in order and makes at most one push |
| ContentService.ProcessFeed | services/contentService.ts:60-110 | the item loop handles every item in order |
| ContentService.SyncFeed | services/contentService.ts:53-110 | a feed whose request fails changes nothing; otherwise its items are processed |
| ContentService.SyncFeeds | services/contentService.ts:51-117 | the feeds are processed one after another in list order over one shared seen set |
| ContentService.FetchAllFeeds | services/contentService.ts:40-128 | the method computes the value FetchAllFacts describes |
| AppContext.ToggledFacts | context/AppContext.tsx:190 | a present id is removed everywhere, the other ids keep their order; an absent id is appended |
| AppContext.ToggleTwice | context/AppContext.tsx:190 | toggling an absent id twice restores the list |
| AppContext.WithoutIdFacts | context/AppContext.tsx:268-277 | exactly the resources with that id go; the others stay in order |
| AppContext.ChatsAfterSaveFacts | context/AppContext.tsx:231-252 | an empty conversation changes nothing; a conversation starting like the top chat updates it in place, keeping its id, title and the list's length; otherwise a new chat titled from the first message goes on top |
| AppContext.FlatStartupsFacts | context/AppContext.tsx:313-315 | the Startups list holds every grouped item once per occurrence, newest first, and its length is the sum of the group lengths |
| AppContext.NotYetListedIff | context/AppContext.tsx:320-321 | a fetched episode is new exactly when no previous episode has its url |
| AppContext.MergePodcastsFacts | context/AppContext.tsx:318-326 | the previous podcasts stay intact at the end; in front come exactly the fetched episodes whose url is new, in fetched order |
| AppContext.AutoRefreshAfterStamp | context/AppContext.tsx:130-138 | after a refresh stamped at `t`, the next mount refreshes exactly when more than a day has passed since `t` |
| AppContext.UnreadableStampNeverRefreshes | context/AppContext.tsx:135 | a non-empty stamp that is not a number never triggers a refresh (the comparison with NaN is false) |
| AppContext.RefreshedFacts | context/AppContext.tsx:293-334 | favorites, chats and resources are kept; Latest is replaced only by a non-empty result; the groups are always replaced and Startups rebuilt from them; old podcasts survive at the end; the stamp stops the next mount within a day from refreshing |
| AppContext.AppState.constructor | context/AppContext.tsx:78-127 | each stored value, else its default: the configured resources, the built-in podcasts, empty lists, no stamp |
| AppContext.AppState.ToggleFavorite | context/AppContext.tsx:190 | only the favorites change, as ToggledFacts describes |
| AppContext.AppState.AddItem | context/AppContext.tsx:257-264 | a copy with the fresh id goes on top of Latest or Startups; any other category changes nothing |
| AppContext.AppState.DeleteItem | context/AppContext.tsx:268-277 | only the resources category is handled, by removing that id; any other category changes nothing |
| AppContext.AppState.AddResource | context/AppContext.tsx:279-285 | the resource goes on top and nothing else changes |
| AppContext.AppState.SaveCurrentChat | context/AppContext.tsx:231-252 | only the saved chats change, as ChatsAfterSaveFacts describes |
| AppContext.AppState.RefreshCategoryFeed | context/AppContext.tsx:293-334 | the state becomes the refresh of the fetch over the current resources |
| AppContext.AppState.ApplyFetch | context/AppContext.tsx:300-328 | the setters apply a fetch result as RefreshedFacts describes |
| AppContext.AppState.OnMount | context/AppContext.tsx:130-138 | the mount refreshes exactly when the stamp is missing, empty or more than a day old, and otherwise changes nothing |
| Admin.RunWhile | pages/Admin.tsx:61 | a greedy character-class run ends within the string, holds only passing characters and stops at the end or at a failing one |
| Admin.ChannelFromFacts | pages/Admin.tsx:61 | the channel id is found exactly when `/channel/UC[\w-]` occurs, and is the capture of the leftmost match |
| Admin.PlaylistFromFacts | pages/Admin.tsx:68 | the playlist id is found exactly when `[?&]list=[^&]` occurs, and is the capture of the leftmost match |
| Admin.ChannelCaptureShape | pages/Admin.tsx:61-62 | a channel id is "UC" and one or more `[\w-]` characters, taken whole, right after "/channel/" |
| Admin.PlaylistCaptureShape | pages/Admin.tsx:68-69 | a playlist id is a non-empty run up to the next '&' or the end, right after "?list=" or "&list=" |
| Admin.GetYouTubeRssFacts | pages/Admin.tsx:58-75 | a feed URL exists exactly when the pattern matches, and is the channel or playlist feed prefix followed by the leftmost id; otherwise null, '@' or not |
| Admin.NewResourceFacts | pages/Admin.tsx:87-108 | the source type is Startup for the startup page, Podcast for the podcasts page and News otherwise; the name defaults to 'New Source'; the description defaults to 'Added via Admin as' and the mode |
| Admin.FinalRssUrlFacts | pages/Admin.tsx:86-98 | the converted link is used exactly in channel and playlist mode on the podcasts page, the only two cases that can fail |
| Admin.ManualCallFacts | pages/Admin.tsx:117-140 | a manual item is built only for a single podcast (duration 'N/A' by default) or a newspaper (frequency 'Weekly' by default), with source 'Admin' by default |
| Admin.HandleSubmit | pages/Admin.tsx:77-145 | a failed conversion is rejected before anything is added; a resource submission adds one resource on top and clears the form; a manual submission leaves the application state unchanged, clears the form and the editing id |
| Startups.DefaultFiltersMatchAll | pages/Startups.tsx:171-178 | with an empty search and region and sector at 'All' every article matches |
| Startups.VisibleGroupsShown | pages/Startups.tsx:164-180 | every shown group is non-empty, is the selected source when a source is selected, and holds exactly the matching articles of its group in order |
| Startups.VisibleGroupsOrdered | pages/Startups.tsx:164-166 | the shown groups keep the order of the dictionary's keys |
| Startups.ShownMembers | pages/Startups.tsx:166-180 | one group shows an article exactly when the source filter lets the group through and the article matches |
| Startups.AdmittedSnoc | pages/Startups.tsx:164 | admission over a longer dictionary decides the last group alone |
| Startups.VisibleMembers | pages/Startups.tsx:164-180 | an article is on the page exactly when its group passes the source filter and the article passes the search, region and sector filters |
| Startups.EmptyStateIff | pages/Startups.tsx:180-204 | the count is zero exactly when no group is shown, which is exactly when no admitted article matches |
| Startups.ResetShowsGroup | pages/Startups.tsx:31-36 | after a reset a group is shown whole, or hidden when empty |
| Startups.ResetShowsEverything | pages/Startups.tsx:31-36 | after a reset every article of every group is shown, in order |
| Startups.AutoSyncIffNoArticle | pages/Startups.tsx:18-23 | the mount sync condition holds exactly when no group holds an article |
| Startups.StartupsPage.constructor | pages/Startups.tsx:12-15 | the filters start at '' and 'All' |
| Startups.StartupsPage.ResetAll | pages/Startups.tsx:31-36 | region, source and sector go to 'All' and the search to '' |
| Startups.StartupsPage.Render | pages/Startups.tsx:56-201 | the render loop draws the visible groups and counts exactly their articles |
| Startups.StartupsPage.OnMount | pages/Startups.tsx:18-29 | the mount syncs exactly when no group has an article, and otherwise changes nothing |

## Left out

- Network access, the CORS proxy, `response.ok` and XML parsing are not modelled. A feed is its already-parsed list of entries (`Env.fetch`), and a failed or unparsable request contributes nothing.
- `Promise.all` runs the feeds concurrently. The model processes them one after another in list order, so "first seen" in the strict path's deduplication is relative to that order.
- `new Date(text)`, `toISOString`, `toLocaleDateString` and `Date.now()` are parameters. `Env.parse`, `Env.now` and `AppContext.ChatClock` stand for them, and a date is a UTC day number.
- `Math.random()` and the `Date.now()` text in generated ids and placeholder pictures are parameters. `Env.stamp` and `Env.noise` stand for them, so their distinctness is not modelled.
- localStorage is not modelled. Stored values enter the state constructor already parsed (`AppContext.Stored`), and the persistence writes are omitted. Only the last-fetch stamp's meaning for the next mount is kept.
- The `alert` and `console` messages are left out, including the '@' alert of `getYouTubeRSS`, which returns null like the other failures.
- The following parts of the provider are left out: login and logout, theme, language, notifications, saved analyses, `updateItem` (empty in the source), `getItemById`, and the trend analysis that a refresh starts through the AI client (context/AppContext.tsx:304-307). `services/geminiService.ts` is not part of this model.
- `refreshCategoryFeed`'s `category` argument is ignored by the source and is not modelled. The `catch` branch of the refresh is not modelled either, because the modelled fetch never throws.
- React rendering, the Startups page's `isSyncing` flag and the dropdown option lists are left out.
- Text.Lower: lowers ASCII letters only. The `toLowerCase` mapping of other scripts is not modelled.
- Sorting.Prefix: on text, counts characters as code points. JavaScript's `substring` counts UTF-16 code units, which differ for characters outside the Basic Multilingual Plane.
- Text.ParseInt: reads a string that starts with its digits. Leading white space, a sign and `0x` prefixes, which `parseInt` also accepts, are not modelled. The stamps it reads are written by `Date.now().toString()`.
- Admin.HandleSubmit: the manual branch's `addItem('podcasts' | 'newsletters', …)` reaches the provider's `addItem`. That function handles only 'latest' and 'startup', so the model states that the application state is unchanged on that path.
- Types.Sources: JavaScript lists an object's integer-like keys (array indices such as "2024") first, in ascending numeric order, and only then the other keys in insertion order. The model keeps insertion order for every key. A feed name that looks like an array index would therefore be listed in another place by `Object.keys`/`Object.values`. That changes the group order on the Startups page (pages/Startups.tsx:53) and the order of equal-date items in the flattened Startups list (context/AppContext.tsx:313). Assigning to the key `__proto__` sets the object's prototype and creates no key; the model creates a key for it.
- Types.AssignSources: "a new key goes last" holds for the keys above only; an integer-like key goes among the other integer-like keys in numeric order, ahead of all other keys.
- ContentService.BlurbFacts: counts the description's length in characters. `desc.length > 160` (services/contentService.ts:89) counts UTF-16 code units, which differ for characters outside the Basic Multilingual Plane, so such a description can get "..." in JavaScript with 160 or fewer characters.
- RssFetcher.ValidFeeds: counts the rss url's length in characters; `rssUrl.length > 5` (utils/rssFetcher.ts:42) counts UTF-16 code units, as above.
- ContentService.ProcessItem: the modelled strict sync (`Judge`, `ProcessItem`, `FetchAllFeeds`) gives each item the corrected picture `PickImage`. For an image enclosure without `url` the source stores null instead (see Findings); everywhere else the two agree (`PickImageAgrees`).
- The strict path decides its "..." on the raw description's length, tags included (services/contentService.ts:89). The live path always appends "..." (utils/rssFetcher.ts:96). The model follows the source on both.

## Findings

| source | as written | input that shows it | evidently intended | confidence | as-written member | corrected member |
|---|---|---|---|---|---|---|
| services/contentService.ts:29-30 | an enclosure whose `type` starts with "image" returns `enclosure.getAttribute('url')!`, which is null when the enclosure has no `url` attribute | an item with no media element, an `<enclosure type="image/jpeg">` without `url`, and no `<img>` in its text (`ContentService.ImageOnlyEntry`) | the item gets a picture: an image enclosure without a url falls through to the content's `<img>` and then to the placeholder | not executed | ContentService.ExtractImageAsWritten, ContentService.ImageEnclosureWithoutUrl | ContentService.PickImage, ContentService.PickImageAgrees |
