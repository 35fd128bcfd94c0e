/**
 * The HTTP client of Chiral Connector: requests to the Chiral Hub's REST
 * API (create/update, delete, ping, list a node's items) and to the
 * WordPress.com public API (related posts and post details), plus the shaping
 * of related posts into the item records the front end renders.
 */
module Api {
  import opened Php
  import opened Wp

  const CHIRAL_DATA_PATH := "/wp-json/wp/v2/chiral_data"
  const PING_PATH := "/wp-json/chiral-network/v1/ping"
  const IDS_PER_PAGE := 100

  // ------------------------------------------------------------------ endpoints

  /** rtrim($url, '/'). */
  function RTrimSlash(s: string): (r: string)
    ensures r <= s
    ensures |r| == 0 || r[|r| - 1] != '/'
    ensures forall i | |r| <= i < |s| :: s[i] == '/'
  {
    if |s| > 0 && s[|s| - 1] == '/' then RTrimSlash(s[..|s| - 1]) else s
  }

  /** The chiral_data collection, or one item of it when the Hub ID is not empty. */
  function ChiralDataEndpoint(hubUrl: string, hubId: PhpValue): string {
    RTrimSlash(hubUrl) + CHIRAL_DATA_PATH + (if Empty(hubId) then "" else "/" + StrVal(hubId))
  }

  /** The item a DELETE goes to; the ID is appended whatever it is. */
  function DeleteEndpoint(hubUrl: string, hubId: PhpValue): string {
    RTrimSlash(hubUrl) + CHIRAL_DATA_PATH + "/" + StrVal(hubId)
  }

  function PingEndpoint(hubUrl: string): string {
    RTrimSlash(hubUrl) + PING_PATH
  }

  /**
   * A send with an empty Hub ID goes to the collection (create); a send with a
   * Hub ID goes to that item (update). However many slashes end the configured
   * URL, the path is joined with exactly one.
   */
  lemma EndpointSelectsCreateOrUpdate(hubUrl: string, hubId: PhpValue)
    ensures var base := RTrimSlash(hubUrl);
      && base <= hubUrl
      && (|base| == 0 || base[|base| - 1] != '/')
      && (Empty(hubId) ==> ChiralDataEndpoint(hubUrl, hubId) == base + CHIRAL_DATA_PATH)
      && (!Empty(hubId) ==> ChiralDataEndpoint(hubUrl, hubId) == DeleteEndpoint(hubUrl, hubId))
      && ChiralDataEndpoint(hubUrl, PNull) == ChiralDataEndpoint(hubUrl, PStr(""))
  {
  }

  /** Trailing slashes on the configured URL do not change any endpoint. */
  lemma {:induction false} EndpointIgnoresTrailingSlashes(hubUrl: string, k: nat)
    ensures RTrimSlash(hubUrl + SlashRun(k)) == RTrimSlash(hubUrl)
    decreases k
  {
    if k > 0 {
      var s := hubUrl + SlashRun(k);
      assert SlashRun(k) == SlashRun(k - 1) + "/";
      assert s[|s| - 1] == '/';
      assert s[..|s| - 1] == hubUrl + SlashRun(k - 1);
      assert RTrimSlash(s) == RTrimSlash(s[..|s| - 1]);
      EndpointIgnoresTrailingSlashes(hubUrl, k - 1);
    } else {
      assert hubUrl + SlashRun(k) == hubUrl;
    }
  }

  function SlashRun(k: nat): (r: string)
    ensures |r| == k && forall i | 0 <= i < k :: r[i] == '/'
  {
    if k == 0 then "" else SlashRun(k - 1) + "/"
  }

  // ------------------------------------------------------------------ replies

  predicate Is2xx(code: int) {
    200 <= code < 300
  }

  /** The WP_Error wp_remote_request() returns when the request itself fails. */
  const TRANSPORT_FAILURE := WpError("http_request_failed", PNull)

  /** What send_data_to_hub() returns for a reply: the decoded body on 2xx, else a hub_api_error carrying the body. */
  function SendOutcome(reply: HttpReply): (r: Result<PhpValue>)
    ensures r.Ok? <==> reply.Reply? && Is2xx(reply.code)
    ensures r.Ok? ==> r.value == reply.body
    ensures reply.Reply? && !r.Ok? ==> r.error.responseBody == reply.body
    ensures reply.TransportError? ==> Field(r.error.responseBody, "code") == PNull
  {
    match reply
    case TransportError(_) => Err(TRANSPORT_FAILURE)
    case Reply(code, body) => if Is2xx(code) then Ok(body) else Err(WpError("hub_api_error", body))
  }

  /** What delete_data_from_hub() returns: success exactly on 200 and 204. */
  function DeleteOutcome(reply: HttpReply): (r: Result<bool>)
    ensures r.Ok? <==> reply.Reply? && (reply.code == 200 || reply.code == 204)
  {
    match reply
    case TransportError(_) => Err(TRANSPORT_FAILURE)
    case Reply(code, body) =>
      if code == 200 || code == 204 then Ok(true) else Err(WpError("hub_api_delete_error", body))
  }

  /** A delete counts as successful on fewer replies than a send does. */
  lemma DeleteSuccessIsSendSuccess(reply: HttpReply)
    ensures DeleteOutcome(reply).Ok? ==> SendOutcome(reply).Ok?
    ensures reply == Reply(201, PNull) ==> SendOutcome(reply).Ok? && !DeleteOutcome(reply).Ok?
  {
  }

  /** What test_hub_connection() returns: true on any 2xx. */
  function PingOutcome(reply: HttpReply): (r: Result<bool>)
    ensures r.Ok? <==> reply.Reply? && Is2xx(reply.code)
  {
    match reply
    case TransportError(_) => Err(TRANSPORT_FAILURE)
    case Reply(code, body) => if Is2xx(code) then Ok(true) else Err(WpError("hub_api_ping_error", body))
  }

  method SendDataToHub(s: Store, hubUrl: string, hubId: PhpValue, postId: int, nodeId: PhpValue)
    returns (r: Result<PhpValue>)
    modifies s`requests
    ensures s.requests == old(s.requests) + [SendPost(ChiralDataEndpoint(hubUrl, hubId), postId, nodeId)]
    ensures r == SendOutcome(s.hub(|old(s.requests)|))
  {
    var reply := s.Send(SendPost(ChiralDataEndpoint(hubUrl, hubId), postId, nodeId));
    r := SendOutcome(reply);
  }

  method DeleteDataFromHub(s: Store, hubId: PhpValue, hubUrl: string) returns (r: Result<bool>)
    modifies s`requests
    ensures s.requests == old(s.requests) + [DeletePost(DeleteEndpoint(hubUrl, hubId))]
    ensures r == DeleteOutcome(s.hub(|old(s.requests)|))
  {
    var reply := s.Send(DeletePost(DeleteEndpoint(hubUrl, hubId)));
    r := DeleteOutcome(reply);
  }

  method TestHubConnection(s: Store, hubUrl: string) returns (r: Result<bool>)
    modifies s`requests
    ensures s.requests == old(s.requests) + [Ping(PingEndpoint(hubUrl))]
    ensures r == PingOutcome(s.hub(|old(s.requests)|))
  {
    var reply := s.Send(Ping(PingEndpoint(hubUrl)));
    r := PingOutcome(reply);
  }

  // ------------------------------------------------------------------ listing a node's items

  /** The `id` of every item that has one, in order. */
  function IdsOf(items: seq<PhpValue>): (r: seq<PhpValue>)
    ensures |r| <= |items|
    ensures forall x | x in r :: x != PNull
  {
    if |items| == 0 then []
    else IdsOf(items[..|items| - 1]) + (if Isset(items[|items| - 1], "id") then [Field(items[|items| - 1], "id")] else [])
  }

  /** The page on which get_all_node_data_ids_from_hub() stops asking for more. */
  predicate EndsListing(r: HttpReply) {
    r.TransportError? || !Is2xx(r.code) || Empty(r.body) || Count(r.body) < IDS_PER_PAGE
  }

  /** What the page that ends the listing contributes. */
  function LastPage(r: HttpReply): (res: Result<seq<PhpValue>>)
    ensures res.Err? <==> r.TransportError? || !Is2xx(r.code)
  {
    if r.TransportError? then Err(TRANSPORT_FAILURE)
    else if !Is2xx(r.code) then Err(WpError("hub_api_fetch_ids_error", r.body))
    else if Empty(r.body) then Ok([])
    else Ok(IdsOf(Elements(r.body)))
  }

  /** The decoded body of a reply, null for a transport failure. */
  function ReplyBody(r: HttpReply): PhpValue {
    if r.Reply? then r.body else PNull
  }

  /** The IDs on the page a reply carries. */
  function PageIds(r: HttpReply): seq<PhpValue> {
    IdsOf(Elements(ReplyBody(r)))
  }

  /** The IDs on full pages, in page order. */
  function AllIds(replies: seq<HttpReply>): seq<PhpValue> {
    if |replies| == 0 then [] else PageIds(replies[0]) + AllIds(replies[1..])
  }

  /** `ids` put in front of a result's IDs; an error stays an error. */
  function Prepend(ids: seq<PhpValue>, r: Result<seq<PhpValue>>): Result<seq<PhpValue>> {
    if r.Ok? then Ok(ids + r.value) else r
  }

  /** The result of listing over the replies to pages 1, 2, ...: it ends at the first page that ends the listing. */
  function ListingResult(replies: seq<HttpReply>): Result<seq<PhpValue>> {
    if |replies| == 0 then Ok([])
    else if EndsListing(replies[0]) then LastPage(replies[0])
    else Prepend(PageIds(replies[0]), ListingResult(replies[1..]))
  }

  /** The replies to the n-th request and the k - 1 after it. */
  function Replies(hub: nat -> HttpReply, n: nat, k: nat): (r: seq<HttpReply>)
    ensures |r| == k
  {
    if k == 0 then [] else Replies(hub, n, k - 1) + [hub(n + k - 1)]
  }

  /** The requests for pages 1 to k. */
  function ListingRequests(endpoint: string, author: PhpValue, k: nat): (r: seq<Request>)
    ensures |r| == k
  {
    if k == 0 then [] else ListingRequests(endpoint, author, k - 1) + [ListNodeData(endpoint, author, k)]
  }

  lemma {:induction false} AllIdsAppend(replies: seq<HttpReply>, x: HttpReply)
    ensures AllIds(replies + [x]) == AllIds(replies) + PageIds(x)
    decreases |replies|
  {
    if |replies| == 0 {
      assert replies + [x] == [x];
      assert AllIds([x]) == PageIds(x) + AllIds([]);
    } else {
      assert (replies + [x])[1..] == replies[1..] + [x];
      AllIdsAppend(replies[1..], x);
    }
  }

  /**
   * Over full pages followed by one that ends the listing, the result is the
   * IDs of the full pages followed by those of the last page. An error on the
   * last page discards everything collected before it.
   */
  lemma {:induction false} ListingCollectsInPageOrder(full: seq<HttpReply>, last: HttpReply)
    requires forall i | 0 <= i < |full| :: !EndsListing(full[i])
    requires EndsListing(last)
    ensures ListingResult(full + [last]) == Prepend(AllIds(full), LastPage(last))
    decreases |full|
  {
    if |full| == 0 {
      assert full + [last] == [last];
      if LastPage(last).Ok? {
        assert [] + LastPage(last).value == LastPage(last).value;
      }
    } else {
      assert (full + [last])[1..] == full[1..] + [last];
      ListingCollectsInPageOrder(full[1..], last);
      var tail := LastPage(last);
      if tail.Ok? {
        assert AllIds(full) == PageIds(full[0]) + AllIds(full[1..]);
        assert PageIds(full[0]) + (AllIds(full[1..]) + tail.value) == AllIds(full) + tail.value;
      }
    }
  }

  /** The replies from the n-th onwards to `pages` pages: all full but the last, which ends the listing. */
  predicate ListedPages(hub: nat -> HttpReply, n: nat, pages: nat) {
    pages >= 1 && NoneEnds(Replies(hub, n, pages - 1)) && EndsListing(hub(n + pages - 1))
  }

  /** No reply among these ends the listing. */
  predicate NoneEnds(replies: seq<HttpReply>) {
    forall i | 0 <= i < |replies| :: !EndsListing(replies[i])
  }

  /** With pages 1 to `page` answered by `seen` and then an ending reply, the listing is done. */
  lemma ListingDone(hub: nat -> HttpReply, n: nat, page: nat, seen: seq<HttpReply>)
    requires page >= 1 && seen == Replies(hub, n, page - 1) && NoneEnds(seen)
    requires EndsListing(hub(n + page - 1))
    ensures ListedPages(hub, n, page)
    ensures ListingResult(Replies(hub, n, page)) == Prepend(AllIds(seen), LastPage(hub(n + page - 1)))
  {
    ListingCollectsInPageOrder(seen, hub(n + page - 1));
  }

  method CollectPageIds(all: seq<PhpValue>, items: seq<PhpValue>) returns (r: seq<PhpValue>)
    ensures r == all + IdsOf(items)
  {
    r := all;
    var j := 0;
    while j < |items|
      invariant 0 <= j <= |items|
      invariant r == all + IdsOf(items[..j])
    {
      assert items[..j + 1][..j] == items[..j];
      if Isset(items[j], "id") {
        r := r + [Field(items[j], "id")];
      }
      j := j + 1;
    }
    assert items[..j] == items;
  }

  /**
   * get_all_node_data_ids_from_hub(): pages of 100 items by this node's Hub
   * user, until a page ends the listing. When the Hub never answers such a
   * page the source loops forever; the precondition excludes that.
   */
  method GetAllNodeDataIds(s: Store, hubUrl: string, userId: PhpValue)
    returns (r: Result<seq<PhpValue>>, ghost pages: nat)
    requires exists k: nat | k >= |s.requests| :: EndsListing(s.hub(k))
    modifies s`requests
    ensures Empty(userId) ==> r == Err(WpError("missing_user_id", PNull)) && s.requests == old(s.requests)
    ensures !Empty(userId) ==> ListedPages(s.hub, |old(s.requests)|, pages)
    ensures !Empty(userId) ==>
      s.requests == old(s.requests) + ListingRequests(RTrimSlash(hubUrl) + CHIRAL_DATA_PATH, userId, pages)
    ensures !Empty(userId) ==> r == ListingResult(Replies(s.hub, |old(s.requests)|, pages))
  {
    if Empty(userId) {
      r := Err(WpError("missing_user_id", PNull));
      pages := 0;
      return;
    }
    r, pages := ListAllPages(s, RTrimSlash(hubUrl) + CHIRAL_DATA_PATH, userId);
  }

  /** The page loop of get_all_node_data_ids_from_hub(). */
  method ListAllPages(s: Store, endpoint: string, userId: PhpValue) returns (r: Result<seq<PhpValue>>, ghost pages: nat)
    requires exists k: nat | k >= |s.requests| :: EndsListing(s.hub(k))
    modifies s`requests
    ensures ListedPages(s.hub, |old(s.requests)|, pages)
    ensures s.requests == old(s.requests) + ListingRequests(endpoint, userId, pages)
    ensures r == ListingResult(Replies(s.hub, |old(s.requests)|, pages))
  {
    var n := |s.requests|;
    ghost var bound: nat :| bound >= n && EndsListing(s.hub(bound));
    var all: seq<PhpValue> := [];
    var page: nat := 1;
    while true
      invariant page >= 1 && n + page - 1 <= bound
      invariant s.requests == old(s.requests) + ListingRequests(endpoint, userId, page - 1)
      invariant NoneEnds(Replies(s.hub, n, page - 1))
      invariant all == AllIds(Replies(s.hub, n, page - 1))
      decreases bound - (n + page - 1)
    {
      var stop;
      stop, r, all := ListPage(s, endpoint, userId, page, all, old(s.requests));
      if stop {
        pages := page;
        return;
      }
      page := page + 1;
    }
  }

  /**
   * One page of the listing: whether it ends the listing, the result if so,
   * and otherwise the IDs collected up to and including this page.
   */
  method ListPage(s: Store, endpoint: string, userId: PhpValue, page: nat, all: seq<PhpValue>, ghost base: seq<Request>)
    returns (stop: bool, r: Result<seq<PhpValue>>, all': seq<PhpValue>)
    requires page >= 1 && s.requests == base + ListingRequests(endpoint, userId, page - 1)
    requires NoneEnds(Replies(s.hub, |base|, page - 1))
    requires all == AllIds(Replies(s.hub, |base|, page - 1))
    modifies s`requests
    ensures s.requests == base + ListingRequests(endpoint, userId, page)
    ensures stop == EndsListing(s.hub(|base| + page - 1))
    ensures stop ==> ListedPages(s.hub, |base|, page) && r == ListingResult(Replies(s.hub, |base|, page))
    ensures !stop ==> NoneEnds(Replies(s.hub, |base|, page)) && all' == AllIds(Replies(s.hub, |base|, page))
  {
    ghost var seen := Replies(s.hub, |base|, page - 1);
    var reply := s.Send(ListNodeData(endpoint, userId, page));
    assert s.requests == base + (ListingRequests(endpoint, userId, page - 1) + [ListNodeData(endpoint, userId, page)]);
    if EndsListing(reply) {
      ListingDone(s.hub, |base|, page, seen);
    } else {
      AllIdsAppend(seen, reply);
    }
    all' := all;
    r := Ok(all);
    stop := true;
    if reply.TransportError? {
      r := Err(TRANSPORT_FAILURE);
      return;
    }
    if !Is2xx(reply.code) {
      r := Err(WpError("hub_api_fetch_ids_error", reply.body));
      return;
    }
    if Empty(reply.body) {
      assert all + [] == all;
      return;
    }
    all' := CollectPageIds(all, Elements(reply.body));
    if Count(reply.body) < IDS_PER_PAGE {
      r := Ok(all');
      return;
    }
    stop := false;
  }

  // ------------------------------------------------------------------ related posts

  /** The related-post hits get_related_post_ids_from_wp_api() returns, and their total. */
  datatype RelatedHits = RelatedHits(results: seq<PhpValue>, total: PhpValue)

  /**
   * What get_related_post_ids_from_wp_api() returns for a reply. It does not
   * check for a transport failure first; a failed request has no status code,
   * which is not 2xx, so it ends as an error too.
   */
  function RelatedHitsOutcome(reply: HttpReply): (r: Result<RelatedHits>)
    ensures r.Ok? <==> reply.Reply? && Is2xx(reply.code)
    ensures r.Ok? && IsArray(Field(reply.body, "hits")) ==>
      r.value.results == Elements(Field(reply.body, "hits"))
      && r.value.total == FieldOr(reply.body, "total", PInt(Count(Field(reply.body, "hits"))))
    ensures r.Ok? && !IsArray(Field(reply.body, "hits")) ==> r.value == RelatedHits([], PInt(0))
  {
    match reply
    case TransportError(_) => Err(WpError("wp_api_related_ids_error", PNull))
    case Reply(code, body) =>
      if !Is2xx(code) then Err(WpError("wp_api_related_ids_error", body))
      else
        var hits := Field(body, "hits");
        if IsArray(hits) then Ok(RelatedHits(Elements(hits), FieldOr(body, "total", PInt(Count(hits)))))
        else Ok(RelatedHits([], PInt(0)))
  }

  /** What get_post_details_from_wp_api() returns: the decoded post on a 2xx with a non-empty body. */
  function DetailsOutcome(reply: HttpReply): (r: Result<PhpValue>)
    ensures r.Ok? <==> reply.Reply? && Is2xx(reply.code) && !Empty(reply.body)
    ensures r.Ok? ==> r.value == reply.body
  {
    match reply
    case TransportError(_) => Err(TRANSPORT_FAILURE)
    case Reply(code, body) =>
      if Is2xx(code) && !Empty(body) then Ok(body) else Err(WpError("wp_api_post_details_error", body))
  }

  /** One related post as sent to the browser. */
  datatype RelatedItem = RelatedItem(
    title: PhpValue,
    url: PhpValue,
    excerpt: PhpValue,
    featuredImageUrl: PhpValue,
    originalPostId: PhpValue,
    hubUrl: PhpValue,
    authorName: PhpValue,
    sourceType: string,
    networkName: PhpValue)

  function ItemToPhp(item: RelatedItem): PhpValue {
    PMap(map[
      "title" := item.title, "url" := item.url, "excerpt" := item.excerpt,
      "featured_image_url" := item.featuredImageUrl, "original_post_id" := item.originalPostId,
      "hub_url" := item.hubUrl, "author_name" := item.authorName,
      "source_type" := PStr(item.sourceType), "network_name" := item.networkName])
  }

  function ItemsToPhp(items: seq<RelatedItem>): (r: PhpValue)
    ensures r.PList? && |r.items| == |items|
  {
    PList(seq(|items|, i requires 0 <= i < |items| => ItemToPhp(items[i])))
  }

  /** The key of a metadata entry, '' when it has none. */
  function MetaKey(entry: PhpValue): PhpValue {
    if Isset(entry, "key") then Field(entry, "key") else PStr("")
  }

  /** The value of a metadata entry, '' when it has no key or no value. */
  function MetaValue(entry: PhpValue): PhpValue {
    if Isset(entry, "key") then FieldOr(entry, "value", PStr("")) else PStr("")
  }

  /** The non-empty `source` of a JSON-encoded other_URLs value. */
  function OtherUrlsSource(encoded: PhpValue, lib: Lib): (r: Option<PhpValue>)
    ensures r.Some? ==> !Empty(r.value)
  {
    var decoded := lib.jsonDecode(StrVal(encoded));
    if IsArray(decoded) && Isset(decoded, "source") && !Empty(Field(decoded, "source"))
    then Some(Field(decoded, "source")) else None
  }

  /** The source URL a metadata entry offers under other_URLs. */
  function EntryOtherUrls(entry: PhpValue, lib: Lib): (r: Option<PhpValue>)
    ensures r.Some? ==> !Empty(r.value)
  {
    if MetaKey(entry) == PStr("other_URLs") && !Empty(MetaValue(entry))
    then OtherUrlsSource(MetaValue(entry), lib) else None
  }

  /** The value a metadata entry offers under `key` (chiral_source_url, chiral_network_name), when non-empty. */
  function EntryFor(entry: PhpValue, key: string): (r: Option<PhpValue>)
    ensures r.Some? ==> !Empty(r.value)
  {
    if MetaKey(entry) == PStr(key) && !Empty(MetaValue(entry)) then Some(MetaValue(entry)) else None
  }

  /** The first usable other_URLs source among the entries. */
  function FirstOtherUrls(entries: seq<PhpValue>, lib: Lib): (r: Option<PhpValue>)
    ensures r.Some? ==> !Empty(r.value)
  {
    if |entries| == 0 then None
    else
      var earlier := FirstOtherUrls(entries[..|entries| - 1], lib);
      if earlier.Some? then earlier else EntryOtherUrls(entries[|entries| - 1], lib)
  }

  /** The first non-empty value under `key` among the entries. */
  function FirstFor(entries: seq<PhpValue>, key: string): (r: Option<PhpValue>)
    ensures r.Some? ==> !Empty(r.value)
  {
    if |entries| == 0 then None
    else
      var earlier := FirstFor(entries[..|entries| - 1], key);
      if earlier.Some? then earlier else EntryFor(entries[|entries| - 1], key)
  }

  /**
   * FirstFor finds a value exactly when some entry offers one, and then it is
   * the value of the earliest such entry.
   */
  lemma {:induction false} FirstForIsFirst(entries: seq<PhpValue>, key: string)
    ensures FirstFor(entries, key).Some? <==> exists k | 0 <= k < |entries| :: EntryFor(entries[k], key).Some?
    ensures FirstFor(entries, key).Some? ==>
      exists k | 0 <= k < |entries| :: FirstFor(entries, key) == EntryFor(entries[k], key)
        && forall j | 0 <= j < k :: EntryFor(entries[j], key).None?
  {
    if |entries| > 0 {
      var last := |entries| - 1;
      var init := entries[..last];
      FirstForIsFirst(init, key);
      assert forall k | 0 <= k < last :: init[k] == entries[k];
      if FirstFor(init, key).Some? {
        var k :| 0 <= k < |init| && FirstFor(init, key) == EntryFor(init[k], key)
          && forall j | 0 <= j < k :: EntryFor(init[j], key).None?;
        assert FirstFor(entries, key) == EntryFor(entries[k], key);
      } else if EntryFor(entries[last], key).Some? {
        assert forall j | 0 <= j < last :: EntryFor(entries[j], key).None?;
      }
    }
  }

  /**
   * The source URL the metadata list yields: an other_URLs source anywhere in
   * the list wins over every chiral_source_url; otherwise the first
   * chiral_source_url; otherwise ''.
   */
  function MetadataSourceUrl(entries: seq<PhpValue>, lib: Lib): PhpValue {
    match FirstOtherUrls(entries, lib)
    case Some(u) => u
    case None => FirstFor(entries, "chiral_source_url").GetOr(PStr(""))
  }

  lemma OtherUrlsOfPrefix(entries: seq<PhpValue>, i: nat, lib: Lib)
    requires i < |entries|
    ensures FirstOtherUrls(entries[..i + 1], lib) ==
      (if FirstOtherUrls(entries[..i], lib).Some? then FirstOtherUrls(entries[..i], lib) else EntryOtherUrls(entries[i], lib))
  {
    assert entries[..i + 1][..i] == entries[..i];
  }

  lemma FirstForOfPrefix(entries: seq<PhpValue>, i: nat, key: string)
    requires i < |entries|
    ensures FirstFor(entries[..i + 1], key) ==
      (if FirstFor(entries[..i], key).Some? then FirstFor(entries[..i], key) else EntryFor(entries[i], key))
  {
    assert entries[..i + 1][..i] == entries[..i];
  }

  /** Once an entry is found, later entries do not change the first one. */
  lemma {:induction false} FirstOtherUrlsStable(entries: seq<PhpValue>, i: nat, lib: Lib)
    requires i <= |entries|
    requires FirstOtherUrls(entries[..i], lib).Some?
    ensures FirstOtherUrls(entries, lib) == FirstOtherUrls(entries[..i], lib)
    decreases |entries| - i
  {
    if i < |entries| {
      OtherUrlsOfPrefix(entries, i, lib);
      FirstOtherUrlsStable(entries, i + 1, lib);
    } else {
      assert entries[..i] == entries;
    }
  }

  lemma {:induction false} FirstForStable(entries: seq<PhpValue>, i: nat, key: string)
    requires i <= |entries|
    requires FirstFor(entries[..i], key).Some?
    ensures FirstFor(entries, key) == FirstFor(entries[..i], key)
    decreases |entries| - i
  {
    if i < |entries| {
      FirstForOfPrefix(entries, i, key);
      FirstForStable(entries, i + 1, key);
    } else {
      assert entries[..i] == entries;
    }
  }

  /**
   * The metadata scan of get_related_data_from_hub(): stops at the first
   * usable other_URLs entry; before that, keeps the first chiral_source_url.
   */
  method ScanMetadataSourceUrl(entries: seq<PhpValue>, lib: Lib) returns (src: PhpValue)
    ensures src == MetadataSourceUrl(entries, lib)
  {
    src := PStr("");
    var i := 0;
    while i < |entries|
      invariant 0 <= i <= |entries|
      invariant FirstOtherUrls(entries[..i], lib).None?
      invariant src == FirstFor(entries[..i], "chiral_source_url").GetOr(PStr(""))
    {
      OtherUrlsOfPrefix(entries, i, lib);
      FirstForOfPrefix(entries, i, "chiral_source_url");
      var key := MetaKey(entries[i]);
      var value := MetaValue(entries[i]);
      if key == PStr("other_URLs") && !Empty(value) {
        var decoded := lib.jsonDecode(StrVal(value));
        if IsArray(decoded) && Isset(decoded, "source") && !Empty(Field(decoded, "source")) {
          src := Field(decoded, "source");
          FirstOtherUrlsStable(entries, i + 1, lib);
          return;
        }
      }
      if Empty(src) && key == PStr("chiral_source_url") && !Empty(value) {
        src := value;
      }
      i := i + 1;
    }
    assert entries[..i] == entries;
  }

  /** The network-name scan: the first chiral_network_name entry with a non-empty value. */
  method ScanNetworkName(entries: seq<PhpValue>) returns (name: PhpValue)
    ensures name == FirstFor(entries, "chiral_network_name").GetOr(PStr(""))
  {
    name := PStr("");
    var i := 0;
    while i < |entries|
      invariant 0 <= i <= |entries|
      invariant FirstFor(entries[..i], "chiral_network_name").None?
    {
      FirstForOfPrefix(entries, i, "chiral_network_name");
      var key := MetaKey(entries[i]);
      var value := MetaValue(entries[i]);
      if key == PStr("chiral_network_name") && !Empty(value) {
        name := value;
        FirstForStable(entries, i + 1, "chiral_network_name");
        return;
      }
      i := i + 1;
    }
    assert entries[..i] == entries;
  }

  /** The fallback source URL from the REST `meta` object: other_URLs first, then chiral_source_url. */
  function MetaObjectSourceUrl(details: PhpValue, lib: Lib): PhpValue {
    var m := Field(details, "meta");
    if !IsArray(m) then PStr("")
    else
      var fromOther := if !Empty(Field(m, "other_URLs")) then OtherUrlsSource(Field(m, "other_URLs"), lib).GetOr(PStr("")) else PStr("");
      if Empty(fromOther) && !Empty(Field(m, "chiral_source_url")) then Field(m, "chiral_source_url") else fromOther
  }

  /** The metadata list of a post's details. */
  function MetadataOf(details: PhpValue): seq<PhpValue> {
    Elements(Field(details, "metadata"))
  }

  /** The URL an item links to: a valid source URL when there is one, else the Hub's URL, else '#'. */
  function ItemUrl(details: PhpValue, lib: Lib): PhpValue {
    var fromList := MetadataSourceUrl(MetadataOf(details), lib);
    var fromObject := if Empty(fromList) then MetaObjectSourceUrl(details, lib) else PStr("");
    if !Empty(fromList) && lib.validateUrl(StrVal(fromList)) then fromList
    else if !Empty(fromObject) && lib.validateUrl(StrVal(fromObject)) then fromObject
    else FieldOr(details, "URL", PStr("#"))
  }

  function ItemNetworkName(details: PhpValue): PhpValue {
    match FirstFor(MetadataOf(details), "chiral_network_name")
    case Some(n) => n
    case None =>
      var m := Field(details, "meta");
      if IsArray(m) && !Empty(Field(m, "chiral_network_name")) then Field(m, "chiral_network_name") else PStr("")
  }

  /** author.name when set, else author.login when set, else 'N/A' (a set but empty name is kept). */
  function ItemAuthor(details: PhpValue): PhpValue {
    var a := Field(details, "author");
    if Isset(a, "name") then Field(a, "name") else FieldOr(a, "login", PStr("N/A"))
  }

  /** The item built from a Hub post's details. */
  function AssembleItem(hubPostId: PhpValue, details: PhpValue, lib: Lib): RelatedItem {
    RelatedItem(
      FieldOr(details, "title", PStr("Untitled")),
      ItemUrl(details, lib),
      FieldOr(details, "excerpt", PStr("")),
      FieldOr(details, "featured_image", PStr("")),
      hubPostId,
      FieldOr(details, "URL", PStr("#")),
      ItemAuthor(details),
      "hub_wordpress_api",
      ItemNetworkName(details))
  }

  /**
   * The item URL, case by case: a metadata other_URLs source wins over every
   * chiral_source_url entry, and the first chiral_source_url is used when
   * there is no other_URLs source. A metadata URL that validates is used. The
   * REST `meta` object is consulted only when the metadata list yields
   * nothing, and its URL is used when it validates. Otherwise the item links
   * to the Hub's URL, or to '#'.
   */
  lemma ItemUrlPrefersMetadata(details: PhpValue, lib: Lib)
    ensures var md := MetadataOf(details);
      var list := MetadataSourceUrl(md, lib);
      var obj := MetaObjectSourceUrl(details, lib);
      var u := AssembleItem(PNull, details, lib).url;
      var listUsable := !Empty(list) && lib.validateUrl(StrVal(list));
      var objUsable := Empty(list) && !Empty(obj) && lib.validateUrl(StrVal(obj));
      && ((FirstOtherUrls(md, lib).Some? && lib.validateUrl(StrVal(FirstOtherUrls(md, lib).value)))
            ==> u == FirstOtherUrls(md, lib).value)
      && ((FirstOtherUrls(md, lib).None? && FirstFor(md, "chiral_source_url").Some?
            && lib.validateUrl(StrVal(FirstFor(md, "chiral_source_url").value)))
            ==> u == FirstFor(md, "chiral_source_url").value)
      && (listUsable ==> u == list)
      && (objUsable ==> u == obj)
      && (!listUsable && !objUsable ==> u == FieldOr(details, "URL", PStr("#")))
      && (!Empty(list) ==> u == list || u == FieldOr(details, "URL", PStr("#")))
      && (u != FieldOr(details, "URL", PStr("#")) ==> lib.validateUrl(StrVal(u)))
  {
  }

  /**
   * The details the related-posts loop obtained (each with the Hub post ID it
   * asked for) and the details requests it sent.
   */
  datatype Fetched = Fetched(found: seq<(PhpValue, PhpValue)>, requests: seq<Request>)

  /** The items built from the details obtained, in order. */
  function Items(found: seq<(PhpValue, PhpValue)>, lib: Lib): (r: seq<RelatedItem>)
    ensures |r| == |found|
  {
    seq(|found|, i requires 0 <= i < |found| => AssembleItem(found[i].0, found[i].1, lib))
  }

  /**
   * The details loop of get_related_data_from_hub(): one details request per
   * hit that names a post_id (the n-th request onwards), and details kept for
   * every request that returned a usable post.
   */
  function FetchDetails(hits: seq<PhpValue>, host: string, hub: nat -> HttpReply, n: nat): (r: Fetched)
    ensures |r.found| <= |r.requests| <= |hits|
    ensures forall k | 0 <= k < |r.requests| :: r.requests[k].PostDetails? && r.requests[k].site == host
  {
    if |hits| == 0 then Fetched([], [])
    else
      var earlier := FetchDetails(hits[..|hits| - 1], host, hub, n);
      FetchStep(earlier, hits[|hits| - 1], host, hub(n + |earlier.requests|))
  }

  /** One turn of the details loop after `earlier`; `reply` answers the details request it would send. */
  function FetchStep(earlier: Fetched, hit: PhpValue, host: string, reply: HttpReply): (r: Fetched)
    ensures earlier.found <= r.found && earlier.requests <= r.requests
    ensures |r.requests| <= |earlier.requests| + 1
    ensures |r.found| - |earlier.found| <= |r.requests| - |earlier.requests|
    ensures forall k | 0 <= k < |r.found| :: !Empty(r.found[k].1) || k < |earlier.found|
    ensures forall k | |earlier.requests| <= k < |r.requests| :: r.requests[k] == PostDetails(host, Field(Field(hit, "fields"), "post_id"))
  {
    var fields := Field(hit, "fields");
    if !Isset(fields, "post_id") then earlier
    else
      var postId := Field(fields, "post_id");
      var requests := earlier.requests + [PostDetails(host, postId)];
      var details := DetailsOutcome(reply);
      if details.Ok? then Fetched(earlier.found + [(postId, details.value)], requests)
      else Fetched(earlier.found, requests)
  }

  /** The item a details reply is turned into, built as the loop body of get_related_data_from_hub() does. */
  method BuildItem(postId: PhpValue, d: PhpValue, lib: Lib) returns (item: RelatedItem)
    ensures item == AssembleItem(postId, d, lib)
  {
    var url := ChooseItemUrl(d, lib);
    var network := ChooseNetworkName(d);
    item := RelatedItem(
      FieldOr(d, "title", PStr("Untitled")), url, FieldOr(d, "excerpt", PStr("")),
      FieldOr(d, "featured_image", PStr("")), postId, FieldOr(d, "URL", PStr("#")),
      ItemAuthor(d), "hub_wordpress_api", network);
  }

  /** The loop body's choice of the item's URL. */
  method ChooseItemUrl(d: PhpValue, lib: Lib) returns (url: PhpValue)
    ensures url == ItemUrl(d, lib)
  {
    var fromList := ScanMetadataSourceUrl(MetadataOf(d), lib);
    var fromObject := if Empty(fromList) then MetaObjectSourceUrl(d, lib) else PStr("");
    url := FieldOr(d, "URL", PStr("#"));
    if !Empty(fromList) && lib.validateUrl(StrVal(fromList)) {
      url := fromList;
    } else if !Empty(fromObject) && lib.validateUrl(StrVal(fromObject)) {
      url := fromObject;
    }
  }

  /** The loop body's choice of the network name: the metadata list first, then the REST meta object. */
  method ChooseNetworkName(d: PhpValue) returns (network: PhpValue)
    ensures network == ItemNetworkName(d)
  {
    network := ScanNetworkName(MetadataOf(d));
    if Empty(network) {
      var m := Field(d, "meta");
      if IsArray(m) && !Empty(Field(m, "chiral_network_name")) {
        network := Field(m, "chiral_network_name");
      }
    }
  }

  lemma FetchDetailsPrefix(hits: seq<PhpValue>, i: nat, host: string, hub: nat -> HttpReply, n: nat)
    requires i < |hits|
    ensures var f := FetchDetails(hits[..i], host, hub, n);
      var next := FetchDetails(hits[..i + 1], host, hub, n);
      && next == FetchStep(f, hits[i], host, hub(n + |f.requests|))
      && next.requests == f.requests + next.requests[|f.requests|..]
      && next.found == f.found + next.found[|f.found|..]
  {
    assert hits[..i + 1][..i] == hits[..i];
  }

  lemma ItemsAppend(found: seq<(PhpValue, PhpValue)>, extra: seq<(PhpValue, PhpValue)>, lib: Lib)
    requires |extra| <= 1
    ensures Items(found + extra, lib) == Items(found, lib) + (if |extra| == 0 then [] else [AssembleItem(extra[0].0, extra[0].1, lib)])
  {
    if |extra| == 0 {
      assert found + extra == found;
    }
  }

  /** What the details loop adds for the hit at index i. */
  lemma FetchDetailsTurn(hits: seq<PhpValue>, i: nat, host: string, hub: nat -> HttpReply, n: nat)
    requires i < |hits|
    ensures var f := FetchDetails(hits[..i], host, hub, n);
      var next := FetchDetails(hits[..i + 1], host, hub, n);
      var fields := Field(hits[i], "fields");
      var details := DetailsOutcome(hub(n + |f.requests|));
      && (!Isset(fields, "post_id") ==> next == f)
      && (Isset(fields, "post_id") ==> next.requests == f.requests + [PostDetails(host, Field(fields, "post_id"))])
      && (Isset(fields, "post_id") && details.Ok? ==> next.found == f.found + [(Field(fields, "post_id"), details.value)])
      && (Isset(fields, "post_id") && !details.Ok? ==> next.found == f.found)
  {
    FetchDetailsPrefix(hits, i, host, hub, n);
  }

  /** One turn of the details loop: the hit at index i. */
  method FetchOne(s: Store, results: seq<PhpValue>, i: nat, host: string, lib: Lib, items: seq<RelatedItem>,
                  ghost base: seq<Request>)
    returns (items': seq<RelatedItem>)
    requires i < |results|
    requires items == Items(FetchDetails(results[..i], host, s.hub, |base|).found, lib)
    requires s.requests == base + FetchDetails(results[..i], host, s.hub, |base|).requests
    modifies s`requests
    ensures items' == Items(FetchDetails(results[..i + 1], host, s.hub, |base|).found, lib)
    ensures s.requests == base + FetchDetails(results[..i + 1], host, s.hub, |base|).requests
  {
    ghost var f := FetchDetails(results[..i], host, s.hub, |base|);
    ghost var next := FetchDetails(results[..i + 1], host, s.hub, |base|);
    FetchDetailsTurn(results, i, host, s.hub, |base|);
    items' := items;
    var fields := Field(results[i], "fields");
    if Isset(fields, "post_id") {
      var postId := Field(fields, "post_id");
      var reply := s.Send(PostDetails(host, postId));
      assert s.requests == base + (f.requests + [PostDetails(host, postId)]);
      var details := DetailsOutcome(reply);
      if details.Ok? {
        var item := BuildItem(postId, details.value, lib);
        ItemsAppend(f.found, [(postId, details.value)], lib);
        items' := items + [item];
      }
    }
  }

  /** The details loop: one request per hit with a post_id, one item per usable reply. */
  method FetchAllDetails(s: Store, results: seq<PhpValue>, host: string, lib: Lib, ghost n: nat) returns (items: seq<RelatedItem>)
    requires n == |s.requests|
    modifies s`requests
    ensures items == Items(FetchDetails(results, host, s.hub, n).found, lib)
    ensures s.requests == old(s.requests) + FetchDetails(results, host, s.hub, n).requests
  {
    items := [];
    var i := 0;
    while i < |results|
      invariant 0 <= i <= |results|
      invariant items == Items(FetchDetails(results[..i], host, s.hub, n).found, lib)
      invariant s.requests == old(s.requests) + FetchDetails(results[..i], host, s.hub, n).requests
    {
      items := FetchOne(s, results, i, host, lib, items, old(s.requests));
      i := i + 1;
    }
    assert results[..i] == results;
  }

  /** Everything get_related_data_from_hub() does: its result and the requests it sends. */
  datatype Related = Related(result: Result<seq<RelatedItem>>, requests: seq<Request>)

  /** The part of get_related_data_from_hub() from the related-posts request on. */
  function RelatedFromHub(host: string, hubId: PhpValue, count: int, hub: nat -> HttpReply, n: nat, lib: Lib): (r: Related)
    ensures |r.requests| >= 1 && r.requests[0] == RelatedIds(host, IntVal(hubId), count)
    ensures r.result.Err? <==> RelatedHitsOutcome(hub(n)).Err?
    ensures r.result.Ok? ==> |r.result.value| < |r.requests|
    ensures forall k | 1 <= k < |r.requests| :: r.requests[k].PostDetails? && r.requests[k].site == host
    ensures RelatedHitsOutcome(hub(n)).Ok? && |RelatedHitsOutcome(hub(n)).value.results| == 0 ==>
      r == Related(Ok([]), [RelatedIds(host, IntVal(hubId), count)])
    ensures r.result.Ok? ==> |r.result.value| <= |RelatedHitsOutcome(hub(n)).value.results|
  {
    var idsRequest := RelatedIds(host, IntVal(hubId), count);
    match RelatedHitsOutcome(hub(n))
    case Err(e) => Related(Err(e), [idsRequest])
    case Ok(hits) =>
      if |hits.results| == 0 then Related(Ok([]), [idsRequest])
      else
        var fetched := FetchDetails(hits.results, host, hub, n + 1);
        Related(Ok(Items(fetched.found, lib)), [idsRequest] + fetched.requests)
  }

  function RelatedData(settings: PhpValue, meta: map<(int, string), PhpValue>, currentPostId: int, count: int,
                       hub: nat -> HttpReply, n: nat, lib: Lib): (r: Related)
    ensures r.requests == [] ==> r.result.Ok? ==> r.result.value == []
    ensures r.result.Err? && r.requests == [] ==>
      r.result.error.code in {"hub_url_not_configured", "hub_url_parse_error", "missing_node_post_id"}
    ensures Empty(Setting(settings, "hub_url")) ==> r == Related(Err(WpError("hub_url_not_configured", PNull)), [])
    ensures Empty(MetaOf(meta, currentPostId, HUB_ID_KEY)) ==> r.requests == []
    ensures r.result.Ok? ==> |r.result.value| < |r.requests| || r.result.value == []
    ensures var hubUrl := Setting(settings, "hub_url");
      var host := lib.parseUrlHost(StrVal(hubUrl));
      !Empty(hubUrl) && (host.None? || Empty(PStr(host.value))) ==>
        r == Related(Err(WpError("hub_url_parse_error", PNull)), [])
    ensures var hubUrl := Setting(settings, "hub_url");
      var host := lib.parseUrlHost(StrVal(hubUrl));
      !Empty(hubUrl) && host.Some? && !Empty(PStr(host.value)) ==>
        var hubId := MetaOf(meta, currentPostId, HUB_ID_KEY);
        && (currentPostId == 0 ==> r == Related(Err(WpError("missing_node_post_id", PNull)), []))
        && (currentPostId != 0 && Empty(hubId) ==> r == Related(Ok([]), []))
        && (currentPostId != 0 && !Empty(hubId) ==> r == RelatedFromHub(host.value, hubId, count, hub, n, lib))
  {
    var hubUrl := Setting(settings, "hub_url");
    if Empty(hubUrl) then Related(Err(WpError("hub_url_not_configured", PNull)), [])
    else
      var host := lib.parseUrlHost(StrVal(hubUrl));
      if host.None? || Empty(PStr(host.value)) then Related(Err(WpError("hub_url_parse_error", PNull)), [])
      else if currentPostId == 0 then Related(Err(WpError("missing_node_post_id", PNull)), [])
      else
        var hubId := MetaOf(meta, currentPostId, HUB_ID_KEY);
        if Empty(hubId) then Related(Ok([]), [])
        else RelatedFromHub(host.value, hubId, count, hub, n, lib)
  }

  method FetchRelated(s: Store, host: string, hubId: PhpValue, count: int, lib: Lib) returns (r: Result<seq<RelatedItem>>)
    modifies s`requests
    ensures r == RelatedFromHub(host, hubId, count, s.hub, |old(s.requests)|, lib).result
    ensures s.requests == old(s.requests) + RelatedFromHub(host, hubId, count, s.hub, |old(s.requests)|, lib).requests
  {
    var idsRequest := RelatedIds(host, IntVal(hubId), count);
    var reply := s.Send(idsRequest);
    var hits := RelatedHitsOutcome(reply);
    if hits.Err? {
      return Err(hits.error);
    }
    var results := hits.value.results;
    if |results| == 0 {
      return Ok([]);
    }
    ghost var before := s.requests;
    var items := FetchAllDetails(s, results, host, lib, |before|);
    ghost var f := FetchDetails(results, host, s.hub, |before|);
    AppendAssoc(old(s.requests), [idsRequest], f.requests);
    r := Ok(items);
  }

  /** Regrouping a request log. */
  lemma AppendAssoc<T>(a: seq<T>, b: seq<T>, c: seq<T>)
    ensures a + b + c == a + (b + c)
  {
  }

  /**
   * get_related_data_from_hub(). The node post the call is about is given
   * (0 when none could be determined).
   */
  method GetRelatedData(s: Store, currentPostId: int, count: int, lib: Lib) returns (r: Result<seq<RelatedItem>>)
    modifies s`requests
    ensures r == RelatedData(SettingsOf(s.options), s.meta, currentPostId, count, s.hub, |old(s.requests)|, lib).result
    ensures s.requests == old(s.requests) + RelatedData(SettingsOf(s.options), s.meta, currentPostId, count, s.hub, |old(s.requests)|, lib).requests
  {
    var hubUrl := Setting(SettingsOf(s.options), "hub_url");
    if Empty(hubUrl) {
      return Err(WpError("hub_url_not_configured", PNull));
    }
    var host := lib.parseUrlHost(StrVal(hubUrl));
    if host.None? || Empty(PStr(host.value)) {
      return Err(WpError("hub_url_parse_error", PNull));
    }
    if currentPostId == 0 {
      return Err(WpError("missing_node_post_id", PNull));
    }
    var hubId := MetaOf(s.meta, currentPostId, HUB_ID_KEY);
    if Empty(hubId) {
      return Ok([]);
    }
    r := FetchRelated(s, host.value, hubId, count, lib);
  }
}
