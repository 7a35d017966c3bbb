/** pages/Admin.tsx: turning a YouTube channel or playlist link into its feed URL, and
    the submit handler that either registers a data source or builds a manual item. */
module Admin {
  import opened Text
  import opened Types
  import AppContext

  // ---------------------------------------------------------------------------
  // Character runs
  // ---------------------------------------------------------------------------

  /** `\w`: an ASCII letter, a digit or `_`. */
  predicate IsWordChar(c: char) {
    ('a' <= c <= 'z') || ('A' <= c <= 'Z') || ('0' <= c <= '9') || c == '_'
  }

  /** `[\w-]`. */
  predicate IsIdChar(c: char) {
    IsWordChar(c) || c == '-'
  }

  /** `[^&]`. */
  predicate NotAmp(c: char) {
    c != '&'
  }

  /** The end of the longest run of characters passing `p` that starts at `i`. */
  function RunWhile(s: string, i: nat, p: char -> bool): (r: nat)
    requires i <= |s|
    decreases |s| - i
    ensures i <= r <= |s|
    ensures forall j :: i <= j < r ==> p(s[j])
    ensures r == |s| || !p(s[r])
  {
    if i == |s| || !p(s[i]) then i else RunWhile(s, i + 1, p)
  }

  // ---------------------------------------------------------------------------
  // getYouTubeRSS
  // ---------------------------------------------------------------------------

  datatype LinkKind = ChannelLink | PlaylistLink

  const ChannelMarker: string := "/channel/UC"
  const ChannelFeed: string := "https://www.youtube.com/feeds/videos.xml?channel_id="
  const PlaylistFeed: string := "https://www.youtube.com/feeds/videos.xml?playlist_id="

  /** `/\/channel\/(UC[\w-]+)/` matches at `i`. */
  predicate ChannelAt(s: string, i: nat) {
    OccursAt(s, ChannelMarker, i) && i + 11 < |s| && IsIdChar(s[i + 11])
  }

  /** The captured `UC…` id of a match at `i`: greedy, so up to the first character
      outside `[\w-]`. */
  function ChannelCapture(s: string, i: nat): string
    requires ChannelAt(s, i)
  {
    s[i + 9..RunWhile(s, i + 11, IsIdChar)]
  }

  /** The capture of the leftmost match at or after `k`. */
  function ChannelFrom(s: string, k: nat): Option<string>
    decreases |s| - k
  {
    if k + 11 >= |s| then None
    else if ChannelAt(s, k) then Some(ChannelCapture(s, k))
    else ChannelFrom(s, k + 1)
  }

  /** `[?&]list=([^&]+)` matches at `i`. */
  predicate PlaylistAt(s: string, i: nat) {
    i + 6 < |s| && (s[i] == '?' || s[i] == '&') && OccursAt(s, "list=", i + 1) && NotAmp(s[i + 6])
  }

  function PlaylistCapture(s: string, i: nat): string
    requires PlaylistAt(s, i)
  {
    s[i + 6..RunWhile(s, i + 6, NotAmp)]
  }

  function PlaylistFrom(s: string, k: nat): Option<string>
    decreases |s| - k
  {
    if k + 6 >= |s| then None
    else if PlaylistAt(s, k) then Some(PlaylistCapture(s, k))
    else PlaylistFrom(s, k + 1)
  }

  /** `getYouTubeRSS(url, type)`: the feed of the channel id or playlist id found in the
      link, null otherwise (a channel link with '@' but no id is null as well). */
  function GetYouTubeRss(url: string, kind: LinkKind): Option<string> {
    match kind
    case ChannelLink =>
      (match ChannelFrom(url, 0) case Some(id) => Some(ChannelFeed + id) case None => None)
    case PlaylistLink =>
      (match PlaylistFrom(url, 0) case Some(id) => Some(PlaylistFeed + id) case None => None)
  }

  lemma {:induction false} ChannelFromFacts(s: string, k: nat)
    decreases |s| - k
    ensures ChannelFrom(s, k).None? <==> forall i: nat :: k <= i ==> !ChannelAt(s, i)
    ensures ChannelFrom(s, k).Some? ==>
              exists i: nat :: k <= i && ChannelAt(s, i) && (forall j: nat :: k <= j < i ==> !ChannelAt(s, j))
                          && ChannelFrom(s, k).value == ChannelCapture(s, i)
  {
    if k + 11 >= |s| {
    } else if !ChannelAt(s, k) {
      ChannelFromFacts(s, k + 1);
      if ChannelFrom(s, k).Some? {
        var i :| k + 1 <= i && ChannelAt(s, i) && (forall j: nat :: k + 1 <= j < i ==> !ChannelAt(s, j))
                 && ChannelFrom(s, k + 1).value == ChannelCapture(s, i);
        assert forall j: nat :: k <= j < i ==> !ChannelAt(s, j);
      }
    }
  }

  lemma {:induction false} PlaylistFromFacts(s: string, k: nat)
    decreases |s| - k
    ensures PlaylistFrom(s, k).None? <==> forall i: nat :: k <= i ==> !PlaylistAt(s, i)
    ensures PlaylistFrom(s, k).Some? ==>
              exists i: nat :: k <= i && PlaylistAt(s, i) && (forall j: nat :: k <= j < i ==> !PlaylistAt(s, j))
                          && PlaylistFrom(s, k).value == PlaylistCapture(s, i)
  {
    if k + 6 >= |s| {
    } else if !PlaylistAt(s, k) {
      PlaylistFromFacts(s, k + 1);
      if PlaylistFrom(s, k).Some? {
        var i :| k + 1 <= i && PlaylistAt(s, i) && (forall j: nat :: k + 1 <= j < i ==> !PlaylistAt(s, j))
                 && PlaylistFrom(s, k + 1).value == PlaylistCapture(s, i);
        assert forall j: nat :: k <= j < i ==> !PlaylistAt(s, j);
      }
    }
  }

  /** A captured channel id is "UC" followed by one or more `[\w-]` characters, and the
      link holds "/channel/" and the id, not followed by another id character. */
  lemma ChannelCaptureShape(s: string, i: nat)
    requires ChannelAt(s, i)
    ensures var id := ChannelCapture(s, i);
      && |id| >= 3 && id[..2] == "UC"
      && (forall j :: 2 <= j < |id| ==> IsIdChar(id[j]))
      && OccursAt(s, "/channel/" + id, i)
      && (i + 9 + |id| == |s| || !IsIdChar(s[i + 9 + |id|]))
  {
    var e := RunWhile(s, i + 11, IsIdChar);
    var id := s[i + 9..e];
    assert s[i..i + 11] == ChannelMarker;
    assert s[i..i + 9] == ChannelMarker[..9] == "/channel/";
    assert id[..2] == s[i + 9..i + 11] == ChannelMarker[9..] == "UC";
    assert s[i..i + 9 + |id|] == s[i..i + 9] + id;
    forall j | 2 <= j < |id| ensures IsIdChar(id[j]) {
      assert id[j] == s[i + 9 + j];
    }
  }

  /** A captured playlist id is a non-empty run without '&', right after "?list=" or
      "&list=", and it runs to the end of the link or to the next '&'. */
  lemma PlaylistCaptureShape(s: string, i: nat)
    requires PlaylistAt(s, i)
    ensures var id := PlaylistCapture(s, i);
      && |id| >= 1 && (forall j :: 0 <= j < |id| ==> id[j] != '&')
      && OccursAt(s, [s[i]] + "list=" + id, i)
      && (i + 6 + |id| == |s| || s[i + 6 + |id|] == '&')
  {
    var e := RunWhile(s, i + 6, NotAmp);
    var id := s[i + 6..e];
    forall j | 0 <= j < |id| ensures id[j] != '&' {
      assert id[j] == s[i + 6 + j];
    }
    assert s[i + 1..i + 6] == "list=";
    assert s[i..i + 6 + |id|] == [s[i]] + s[i + 1..i + 6] + id;
  }

  /** The feed URL exists exactly when the pattern matches somewhere, and is then the
      feed prefix followed by the leftmost match's id. */
  lemma GetYouTubeRssFacts(url: string)
    ensures GetYouTubeRss(url, ChannelLink).Some? <==> exists i: nat :: ChannelAt(url, i)
    ensures GetYouTubeRss(url, ChannelLink).Some? ==>
              exists i: nat :: ChannelAt(url, i) && (forall j: nat :: j < i ==> !ChannelAt(url, j))
                          && GetYouTubeRss(url, ChannelLink).value == ChannelFeed + ChannelCapture(url, i)
    ensures GetYouTubeRss(url, PlaylistLink).Some? <==> exists i: nat :: PlaylistAt(url, i)
    ensures GetYouTubeRss(url, PlaylistLink).Some? ==>
              exists i: nat :: PlaylistAt(url, i) && (forall j: nat :: j < i ==> !PlaylistAt(url, j))
                          && GetYouTubeRss(url, PlaylistLink).value == PlaylistFeed + PlaylistCapture(url, i)
  {
    ChannelFromFacts(url, 0);
    PlaylistFromFacts(url, 0);
  }

  // ---------------------------------------------------------------------------
  // handleSubmit
  // ---------------------------------------------------------------------------

  /** The form fields the handler reads. */
  datatype Form = Form(
    title: string,
    url: string,
    description: string,
    source: string,
    region: string,
    duration: string,
    frequency: string,
    youtubeUrl: string,
    spotifyUrl: string)

  /** The page a submission goes to is a data source rather than a single item. */
  predicate IsResourceSubmit(page: string, mode: string) {
    || page == "latest" || page == "startup"
    || (page == "podcasts" && (mode == "rss" || mode == "channel" || mode == "playlist"))
    || (page == "newsletters" && mode == "rss")
  }

  function ResourceKindFor(page: string): ResourceType {
    if page == "startup" then StartupSource else if page == "podcasts" then PodcastSource else NewsSource
  }

  /** `finalRssUrl`: the converted link for a podcast channel or playlist (None when the
      conversion fails), the raw link otherwise. */
  function FinalRssUrl(page: string, mode: string, url: string): Option<string> {
    if page == "podcasts" && mode == "channel" then GetYouTubeRss(url, ChannelLink)
    else if page == "podcasts" && mode == "playlist" then GetYouTubeRss(url, PlaylistLink)
    else Some(url)
  }

  function OrDefault(s: string, d: string): string {
    if s == "" then d else s
  }

  function NewResource(page: string, mode: string, form: Form, rssUrl: string, now: nat): Resource {
    Resource("res_" + NatToString(now), OrDefault(form.title, "New Source"), form.url, Some(rssUrl),
             ResourceKindFor(page), Some(OrDefault(form.description, "Added via Admin as " + mode)))
  }

  /** The manual item `finalData` with the fields the page and mode add. */
  datatype ManualItem = ManualItem(
    id: string,
    title: string,
    description: string,
    url: string,
    source: string,
    region: string,
    date: int,
    imageUrl: string,
    category: Option<string>,
    duration: Option<string>,
    youtubeUrl: Option<string>,
    spotifyUrl: Option<string>,
    frequency: Option<string>)

  /** `addItem(category, finalData)` as the handler calls it. */
  datatype ItemCall = ItemCall(category: string, item: ManualItem)

  function ManualBase(form: Form, editingId: Option<string>, now: nat): ManualItem {
    var id := if editingId.Some? && editingId.value != "" then editingId.value else NatToString(now);
    ManualItem(id, form.title, form.description, form.url, OrDefault(form.source, "Admin"), form.region,
               DayOf(now), PicsumPrefix + NatToString(now), None, None, None, None, None)
  }

  /** The call a manual submission makes: a single podcast or a newspaper, nothing for
      any other page and mode. */
  function ManualCall(page: string, mode: string, form: Form, editingId: Option<string>, now: nat): Option<ItemCall> {
    var base := ManualBase(form, editingId, now);
    if page == "podcasts" && mode == "single" then
      Some(ItemCall("podcasts", base.(category := Some("Podcasts"), duration := Some(OrDefault(form.duration, "N/A")),
                                       youtubeUrl := Some(form.youtubeUrl), spotifyUrl := Some(form.spotifyUrl))))
    else if page == "newsletters" && mode == "newspaper" then
      Some(ItemCall("newsletters", base.(category := Some("Newsletters"), frequency := Some(OrDefault(form.frequency, "Weekly")))))
    else None
  }

  /** The field defaults of a new data source. */
  lemma NewResourceFacts(page: string, mode: string, form: Form, rssUrl: string, now: nat)
    ensures var r := NewResource(page, mode, form, rssUrl, now);
      && (r.kind == StartupSource <==> page == "startup")
      && (r.kind == PodcastSource <==> page == "podcasts")
      && (r.kind == NewsSource <==> page != "startup" && page != "podcasts")
      && r.name == (if form.title == "" then "New Source" else form.title)
      && r.description == Some(if form.description == "" then "Added via Admin as " + mode else form.description)
      && r.url == form.url && r.rssUrl == Some(rssUrl)
  {
  }

  /** The converted link is used exactly in channel and playlist mode on the podcasts
      page, and only these two can fail. */
  lemma FinalRssUrlFacts(page: string, mode: string, url: string)
    ensures FinalRssUrl(page, mode, url).None? ==> page == "podcasts" && (mode == "channel" || mode == "playlist")
    ensures !(page == "podcasts" && (mode == "channel" || mode == "playlist")) ==> FinalRssUrl(page, mode, url) == Some(url)
  {
  }

  /** Manual items: source 'Admin' by default; a single podcast has duration 'N/A' by
      default; a newspaper has frequency 'Weekly' by default; other combinations add
      nothing; and no manual call names a category AppContext's addItem handles. */
  lemma ManualCallFacts(page: string, mode: string, form: Form, editingId: Option<string>, now: nat)
    ensures var c := ManualCall(page, mode, form, editingId, now);
      && (c.Some? <==> (page == "podcasts" && mode == "single") || (page == "newsletters" && mode == "newspaper"))
      && (c.Some? ==> c.value.item.source == (if form.source == "" then "Admin" else form.source)
                      && c.value.category != "latest" && c.value.category != "startup")
      && (c.Some? && page == "podcasts" ==> c.value.item.duration == Some(if form.duration == "" then "N/A" else form.duration))
      && (c.Some? && page == "newsletters" ==> c.value.item.frequency == Some(if form.frequency == "" then "Weekly" else form.frequency))
  {
  }

  /** What the alert after a submission says. */
  datatype Outcome = SourceAdded(resource: Resource) | ChannelRejected | PlaylistRejected
                   | ContentAdded(call: Option<ItemCall>)

  function Cleared(form: Form): Form {
    form.(title := "", url := "", description := "")
  }

  /** `handleSubmit`: registers a data source (or rejects a link it cannot convert,
      before anything is added), or builds a manual item; the manual call goes to
      `addItem`, which ignores the podcasts and newsletters categories, so the
      application state is unchanged on that path. */
  method HandleSubmit(app: AppContext.AppState, page: string, mode: string, form: Form,
                      editingId: Option<string>, now: nat)
    returns (outcome: Outcome, form': Form, editingId': Option<string>)
    modifies app
    ensures IsResourceSubmit(page, mode) && FinalRssUrl(page, mode, form.url).None? ==>
              && outcome == (if mode == "channel" then ChannelRejected else PlaylistRejected)
              && app.Data() == old(app.Data()) && form' == form && editingId' == editingId
    ensures IsResourceSubmit(page, mode) && FinalRssUrl(page, mode, form.url).Some? ==>
              var r := NewResource(page, mode, form, FinalRssUrl(page, mode, form.url).value, now);
              && outcome == SourceAdded(r)
              && app.Data() == old(app.Data()).(resources := [r] + old(app.resources))
              && form' == Cleared(form) && editingId' == editingId
    ensures !IsResourceSubmit(page, mode) ==>
              && outcome == ContentAdded(ManualCall(page, mode, form, editingId, now))
              && app.Data() == old(app.Data()) && form' == Cleared(form) && editingId' == None
  {
    form', editingId' := form, editingId;
    if IsResourceSubmit(page, mode) {
      var finalRssUrl := form.url;
      var kind := ResourceKindFor(page);
      if page == "podcasts" {
        if mode == "channel" {
          var rss := GetYouTubeRss(form.url, ChannelLink);
          if rss.None? {
            return ChannelRejected, form', editingId';
          }
          finalRssUrl := rss.value;
        } else if mode == "playlist" {
          var rss := GetYouTubeRss(form.url, PlaylistLink);
          if rss.None? {
            return PlaylistRejected, form', editingId';
          }
          finalRssUrl := rss.value;
        }
      }
      var newResource := Resource("res_" + NatToString(now), OrDefault(form.title, "New Source"), form.url,
                                  Some(finalRssUrl), kind, Some(OrDefault(form.description, "Added via Admin as " + mode)));
      app.AddResource(newResource);
      return SourceAdded(newResource), Cleared(form), editingId';
    }

    var call := ManualCall(page, mode, form, editingId, now);
    outcome := ContentAdded(call);
    form' := Cleared(form);
    editingId' := None;
  }
}
