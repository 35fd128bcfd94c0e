/**
 * The related-posts display on the front end (Chiral_Connector_Display).
 * It covers the placeholder the content filter appends to single posts,
 * the [chiral_related_posts] shortcode, and the AJAX handler. The handler
 * fetches related posts through the Hub API, with a transient cache in
 * front of it. The placeholder is an empty container that the public
 * script fills in.
 */
module Display {
  import opened Php
  import opened Wp
  import opened Api
  import Admin
  import Activator
  import Deactivator

  const DEFAULT_COUNT := 5
  /** The node ID a Hub site shows its own related posts under. */
  const HUB_LOCAL_NODE := "hub-local"
  const CACHE_TTL := 12 * HOUR_IN_SECONDS
  const LOADING_TEXT := "Loading related Chiral data..."

  const FILTER_OPENING := "<div id=\"chiral-connector-related-posts\" class=\"chiral-connector-related-posts-container\""
  const FILTER_NO_POST := "<!-- Chiral Connector: Missing current post ID -->"
  const FILTER_NO_CONFIG := "<!-- Chiral Connector: Missing configuration for related posts (node_id or hub_url) -->"
  const SHORTCODE_OPENING := "<div class=\"chiral-connector-related-posts-container chiral-connector-shortcode\""
  const SHORTCODE_NO_POST := "<!-- Chiral Connector Shortcode: Missing current post ID -->"
  const SHORTCODE_NO_CONFIG := "<!-- Chiral Connector Shortcode: Missing configuration (node_id or hub_url) -->"

  /** What the page being rendered tells the filter: is_single(), is_main_query() and the global $post's ID. */
  datatype Page = Page(single: bool, mainQuery: bool, post: Option<int>)

  /** `isset($options['display_enable']) ? $options['display_enable'] : true`, used as a condition. */
  predicate DisplayEnabled(settings: PhpValue) {
    Truthy(FieldOr(settings, "display_enable", PBool(true)))
  }

  /** There is a post and its flag is exactly 'no' (`=== 'no'`); an unset flag does not opt out. */
  predicate OptedOut(meta: map<(int, string), PhpValue>, post: Option<int>) {
    post.Some? && MetaOf(meta, post.value, SEND_FLAG_KEY) == PStr("no")
  }

  /** `$post ? $post->ID : 0`. */
  function PostIdOf(post: Option<int>): int {
    if post.Some? then post.value else 0
  }

  /** The configured number of related posts: intval(display_count), or 5 when unset. */
  function DisplayCount(settings: PhpValue): int {
    if Isset(settings, "display_count") then IntVal(Field(settings, "display_count")) else DEFAULT_COUNT
  }

  // ------------------------------------------------------------------ the placeholder

  /**
   * What get_related_posts_html_placeholder() and the shortcode decide before
   * formatting: one of two HTML comments, or a container carrying the
   * permalink's post, the node and Hub to ask, the count and the mode.
   */
  datatype Placeholder =
    | MissingPostId
    | MissingConfig
    | Container(postId: int, nodeId: PhpValue, hubUrl: string, count: int, hubMode: bool)

  function PlaceholderFor(settings: PhpValue, postId: int, count: int, hubMode: bool, lib: Lib): (r: Placeholder)
    ensures r.MissingPostId? <==> postId == 0
    ensures r.MissingConfig? <==>
      postId != 0 && !hubMode && (Empty(Setting(settings, "node_id")) || Empty(Setting(settings, "hub_url")))
    ensures r.Container? ==> r.postId == postId && r.count == count && r.hubMode == hubMode && !Empty(r.nodeId)
    ensures r.Container? && hubMode ==>
      && r.hubUrl == lib.homeUrl
      && r.nodeId == (if Empty(Setting(settings, "node_id")) then PStr(HUB_LOCAL_NODE) else Setting(settings, "node_id"))
    ensures r.Container? && !hubMode ==>
      r.hubUrl == StrVal(Setting(settings, "hub_url")) && r.nodeId == Setting(settings, "node_id")
  {
    var nodeId := Setting(settings, "node_id");
    var hubUrl := Setting(settings, "hub_url");
    if postId == 0 then MissingPostId
    else if hubMode then
      Container(postId, if Empty(nodeId) then PStr(HUB_LOCAL_NODE) else nodeId, lib.homeUrl, count, true)
    else if Empty(nodeId) || Empty(hubUrl) then MissingConfig
    else Container(postId, nodeId, StrVal(hubUrl), count, false)
  }

  /** The container's data attributes, after the opening tag's id and class. */
  function ContainerAttributes(p: Placeholder, lib: Lib): string
    requires p.Container?
  {
    " data-post-url=\"" + lib.escUrl(lib.permalink(p.postId))
    + "\" data-node-id=\"" + lib.escAttr(StrVal(p.nodeId))
    + "\" data-hub-url=\"" + lib.escUrl(p.hubUrl)
    + "\" data-count=\"" + IntToDecimal(p.count)
    + "\" data-hub-mode=\"" + (if p.hubMode then "true" else "false")
    + "\">" + LOADING_TEXT + "</div>"
  }

  /** The HTML for a placeholder, with the opening tag and the two comments of its caller. */
  function PlaceholderHtml(p: Placeholder, opening: string, noPost: string, noConfig: string, lib: Lib): string {
    match p
    case MissingPostId => noPost
    case MissingConfig => noConfig
    case Container(_, _, _, _, _) => opening + ContainerAttributes(p, lib)
  }

  /** get_related_posts_html_placeholder(). */
  function FilterPlaceholder(settings: PhpValue, post: Option<int>, hubMode: bool, lib: Lib): (r: string)
    ensures |r| > 0
  {
    var p := PlaceholderFor(settings, PostIdOf(post), DisplayCount(settings), hubMode, lib);
    PlaceholderHtml(p, FILTER_OPENING, FILTER_NO_POST, FILTER_NO_CONFIG, lib)
  }

  /**
   * append_related_posts_to_content(): the placeholder goes after the content
   * of a single post in the main query while display is on and the post has
   * not opted out. The content itself is never changed.
   */
  function AppendRelatedPosts(content: string, settings: PhpValue, meta: map<(int, string), PhpValue>,
                              page: Page, hubMode: bool, lib: Lib): (r: string)
    ensures content <= r
    ensures r == content <==>
      !page.single || !page.mainQuery || !DisplayEnabled(settings) || OptedOut(meta, page.post)
    ensures r != content ==> r[|content|..] == FilterPlaceholder(settings, page.post, hubMode, lib)
  {
    if page.single && page.mainQuery && DisplayEnabled(settings) && !OptedOut(meta, page.post)
    then content + FilterPlaceholder(settings, page.post, hubMode, lib)
    else content
  }

  // ------------------------------------------------------------------ the shortcode

  /**
   * shortcode_atts() for the single `count` attribute: the attribute when
   * given, else the configured count or 5; then intval().
   */
  function ShortcodeCount(settings: PhpValue, atts: PhpValue): (r: int)
    ensures atts.PMap? && "count" in atts.fields ==> r == IntVal(atts.fields["count"])
    ensures !(atts.PMap? && "count" in atts.fields) ==> r == DisplayCount(settings)
  {
    if atts.PMap? && "count" in atts.fields then IntVal(atts.fields["count"]) else DisplayCount(settings)
  }

  /** render_related_posts_shortcode(). */
  function RenderShortcode(settings: PhpValue, meta: map<(int, string), PhpValue>, post: Option<int>,
                           atts: PhpValue, hubMode: bool, lib: Lib): (r: string)
    ensures r == "" <==> !DisplayEnabled(settings) || OptedOut(meta, post)
  {
    if !DisplayEnabled(settings) || OptedOut(meta, post) then ""
    else
      var p := PlaceholderFor(settings, PostIdOf(post), ShortcodeCount(settings, atts), hubMode, lib);
      PlaceholderHtml(p, SHORTCODE_OPENING, SHORTCODE_NO_POST, SHORTCODE_NO_CONFIG, lib)
  }

  /**
   * The shortcode and the content filter agree on which posts show related
   * content: where the filter appends, the shortcode renders something, and
   * it asks for the same node, Hub and count unless the shortcode gives its own.
   */
  lemma ShortcodeAgreesWithFilter(content: string, settings: PhpValue, meta: map<(int, string), PhpValue>,
                                   page: Page, atts: PhpValue, hubMode: bool, lib: Lib)
    requires page.single && page.mainQuery
    requires !(atts.PMap? && "count" in atts.fields)
    ensures AppendRelatedPosts(content, settings, meta, page, hubMode, lib) == content
            <==> RenderShortcode(settings, meta, page.post, atts, hubMode, lib) == ""
    ensures AppendRelatedPosts(content, settings, meta, page, hubMode, lib) != content ==>
      RenderShortcode(settings, meta, page.post, atts, hubMode, lib)
      == PlaceholderHtml(PlaceholderFor(settings, PostIdOf(page.post), DisplayCount(settings), hubMode, lib),
                         SHORTCODE_OPENING, SHORTCODE_NO_POST, SHORTCODE_NO_CONFIG, lib)
  {
  }

  /**
   * A post whose "Send to Chiral?" box was saved unchecked shows no related
   * posts, through either the filter or the shortcode.
   */
  lemma UncheckedPostShowsNothing(st: SyncState, env: SyncEnv, postId: int, req: Admin.SaveRequest,
                                  content: string, settings: PhpValue, page: Page, atts: PhpValue, hubMode: bool, lib: Lib)
    requires Admin.SaveProceeds(req, lib) && Admin.NewSendFlag(req.form, lib) == "no"
    requires page.post == Some(postId)
    ensures var meta := Admin.SaveSendFlag(st, env, postId, req, lib).meta;
      && AppendRelatedPosts(content, settings, meta, page, hubMode, lib) == content
      && RenderShortcode(settings, meta, page.post, atts, hubMode, lib) == ""
  {
    Admin.SaveSendFlagBehaviour(st, env, postId, req, lib);
  }

  /** Saving the settings form without the display box switches the related posts off everywhere. */
  lemma UncheckedDisplayHidesRelated(input: PhpValue, existing: PhpValue, lib: Lib, content: string,
                                     meta: map<(int, string), PhpValue>, page: Page, atts: PhpValue, hubMode: bool)
    requires !Isset(input, "display_enable")
    ensures var settings := PMap(Admin.Sanitized(input, existing, lib));
      && AppendRelatedPosts(content, settings, meta, page, hubMode, lib) == content
      && RenderShortcode(settings, meta, page.post, atts, hubMode, lib) == ""
  {
    Admin.SanitizedCheckboxes(input, existing, lib, "display_enable");
  }

  /**
   * After activation, single posts show the placeholder unless the stored
   * record already switched display off.
   */
  lemma ActivatedSiteShowsRelated(stored: PhpValue, lib: Lib, content: string, meta: map<(int, string), PhpValue>,
                                  page: Page, hubMode: bool)
    requires stored == PBool(false) || !Isset(stored, "display_enable")
    requires page.single && page.mainQuery && !OptedOut(meta, page.post)
    ensures var settings := Activator.ActivatedSettings(stored, lib);
      AppendRelatedPosts(content, settings, meta, page, hubMode, lib)
      == content + FilterPlaceholder(settings, page.post, hubMode, lib)
  {
    var settings := Activator.ActivatedSettings(stored, lib);
    assert Field(settings, "display_enable") == PBool(true);
  }

  // ------------------------------------------------------------------ the AJAX handler

  /** $_POST['source_url'] through esc_url_raw(), '' when it is not sent. */
  function SourceUrl(form: PhpValue, lib: Lib): string {
    if Isset(form, "source_url") then lib.escUrlRaw(StrVal(Field(form, "source_url"))) else ""
  }

  /** $_POST['requesting_node_id'] through sanitize_text_field(), '' when it is not sent. */
  function RequestingNode(form: PhpValue, lib: Lib): string {
    if Isset(form, "requesting_node_id") then lib.sanitizeTextField(StrVal(Field(form, "requesting_node_id"))) else ""
  }

  /** intval($_POST['count']), 5 when it is not sent. */
  function RequestCount(form: PhpValue): int {
    if Isset(form, "count") then IntVal(Field(form, "count")) else DEFAULT_COUNT
  }

  /** The transient that caches the answer for a source URL, node and count. */
  function CacheKey(url: string, node: string, count: int, lib: Lib): (r: string)
    ensures RELATED_CACHE_PREFIX <= r
  {
    RELATED_CACHE_PREFIX + lib.md5(url + "_" + node + "_" + IntToDecimal(count))
  }

  /** `isset($options['enable_cache']) ? $options['enable_cache'] : true`, used as a condition. */
  predicate CacheEnabled(settings: PhpValue) {
    Truthy(FieldOr(settings, "enable_cache", PBool(true)))
  }

  /** `get_transient($key) !== false`: a missing, expired or stored-false entry is a miss. */
  function CacheHit(options: map<string, PhpValue>, key: string, now: int): (r: Option<PhpValue>)
    ensures r.Some? <==> GetTransient(options, key, now).Some? && GetTransient(options, key, now).value != PBool(false)
    ensures r.Some? ==> r == GetTransient(options, key, now)
  {
    match GetTransient(options, key, now)
    case None => None
    case Some(v) => if v == PBool(false) then None else Some(v)
  }

  /** The JSON answer the handler sends. */
  datatype FetchOutcome =
    | MissingParameters                    // error: source_url or requesting_node_id missing
    | NotConfigured                        // error: Hub connection details missing (node mode)
    | CachedReply(data: PhpValue)          // success with the cached data
    | FetchFailed(error: WpError)          // error from get_related_data_from_hub()
    | FetchedItems(items: seq<RelatedItem>) // success with the fetched items (possibly none)

  /** The answer, the options table afterwards, and the requests sent on the way. */
  datatype Served = Served(outcome: FetchOutcome, options: map<string, PhpValue>, requests: seq<Request>)

  /**
   * ajax_fetch_related_posts() after its nonce check. `postId` is the node
   * post get_related_data_from_hub() determines (0 when none).
   */
  function FetchRelatedPosts(options: map<string, PhpValue>, meta: map<(int, string), PhpValue>, form: PhpValue,
                             hubMode: bool, hub: nat -> HttpReply, n: nat, postId: int, now: int, lib: Lib): (r: Served)
    ensures r.outcome.MissingParameters? <==> Empty(PStr(SourceUrl(form, lib))) || Empty(PStr(RequestingNode(form, lib)))
    ensures r.outcome.NotConfigured? <==>
      && !Empty(PStr(SourceUrl(form, lib))) && !Empty(PStr(RequestingNode(form, lib)))
      && !hubMode && !HubCredentials(SettingsOf(options))
    ensures r.outcome.CachedReply? ==>
      && CacheEnabled(SettingsOf(options)) && r.requests == []
      && Some(r.outcome.data) == CacheHit(options, CacheKey(SourceUrl(form, lib), RequestingNode(form, lib), RequestCount(form), lib), now)
    ensures r.options != options ==>
      && CacheEnabled(SettingsOf(options))
      && r.outcome.FetchedItems? && |r.outcome.items| > 0
      && r.options == SetTransient(options, CacheKey(SourceUrl(form, lib), RequestingNode(form, lib), RequestCount(form), lib),
                                   ItemsToPhp(r.outcome.items), CACHE_TTL, now)
    ensures r.outcome.FetchFailed? || r.outcome.FetchedItems? ==>
      var related := RelatedData(SettingsOf(options), meta, postId, RequestCount(form), hub, n, lib);
      && r.requests == related.requests
      && (related.result.Err? ==> r.outcome == FetchFailed(related.result.error))
      && (related.result.Ok? ==> r.outcome == FetchedItems(related.result.value))
  {
    var url := SourceUrl(form, lib);
    var node := RequestingNode(form, lib);
    var count := RequestCount(form);
    var settings := SettingsOf(options);
    if Empty(PStr(url)) || Empty(PStr(node)) then Served(MissingParameters, options, [])
    else if !hubMode && !HubCredentials(settings) then Served(NotConfigured, options, [])
    else
      var key := CacheKey(url, node, count, lib);
      var hit := CacheHit(options, key, now);
      if CacheEnabled(settings) && hit.Some? then Served(CachedReply(hit.value), options, [])
      else
        var related := RelatedData(settings, meta, postId, count, hub, n, lib);
        match related.result
        case Err(e) => Served(FetchFailed(e), options, related.requests)
        case Ok(items) =>
          if |items| == 0 then Served(FetchedItems([]), options, related.requests)
          else if CacheEnabled(settings) then
            Served(FetchedItems(items), SetTransient(options, key, ItemsToPhp(items), CACHE_TTL, now), related.requests)
          else Served(FetchedItems(items), options, related.requests)
  }

  /** A transient row is never the settings row. */
  lemma CacheRowsAreNotSettings(key: string)
    ensures TransientRow(key) != SETTINGS_OPTION && TimeoutRow(key) != SETTINGS_OPTION
  {
    assert TransientRow(key)[0] == '_' && TimeoutRow(key)[0] == '_';
    assert SETTINGS_OPTION[0] == 'c';
  }

  /** A value stored for the cache lifetime can be read back until it runs out. */
  lemma StoredUntilExpiry(options: map<string, PhpValue>, key: string, v: PhpValue, now: int, later: int)
    requires now <= later <= now + CACHE_TTL
    ensures GetTransient(SetTransient(options, key, v, CACHE_TTL, now), key, later) == Some(v)
  {
    assert |TransientRow(key)| < |TimeoutRow(key)|;
  }

  /**
   * The cache round trip: after a non-empty fetch with the cache on, the same
   * request within 12 hours gets the stored items back and sends nothing.
   */
  lemma RepeatIsServedFromCache(options: map<string, PhpValue>, meta: map<(int, string), PhpValue>, form: PhpValue,
                                hubMode: bool, hub: nat -> HttpReply, n: nat, postId: int, now: int, lib: Lib,
                                meta': map<(int, string), PhpValue>, hub': nat -> HttpReply, n': nat, postId': int, later: int)
    requires now <= later <= now + CACHE_TTL
    requires CacheEnabled(SettingsOf(options))
    requires var first := FetchRelatedPosts(options, meta, form, hubMode, hub, n, postId, now, lib);
      first.outcome.FetchedItems? && |first.outcome.items| > 0
    ensures var first := FetchRelatedPosts(options, meta, form, hubMode, hub, n, postId, now, lib);
      FetchRelatedPosts(first.options, meta', form, hubMode, hub', n', postId', later, lib)
      == Served(CachedReply(ItemsToPhp(first.outcome.items)), first.options, [])
  {
    var first := FetchRelatedPosts(options, meta, form, hubMode, hub, n, postId, now, lib);
    var key := CacheKey(SourceUrl(form, lib), RequestingNode(form, lib), RequestCount(form), lib);
    CacheRowsAreNotSettings(key);
    assert SettingsOf(first.options) == SettingsOf(options);
    StoredUntilExpiry(options, key, ItemsToPhp(first.outcome.items), now, later);
  }

  /** Errors and empty answers leave the options table alone, and so does everything with the cache off. */
  lemma OnlyItemsAreCached(options: map<string, PhpValue>, meta: map<(int, string), PhpValue>, form: PhpValue,
                           hubMode: bool, hub: nat -> HttpReply, n: nat, postId: int, now: int, lib: Lib)
    ensures var r := FetchRelatedPosts(options, meta, form, hubMode, hub, n, postId, now, lib);
      (r.outcome.FetchFailed? || r.outcome == FetchedItems([]) || !CacheEnabled(SettingsOf(options)))
      ==> r.options == options
    ensures !CacheEnabled(SettingsOf(options)) ==>
      !FetchRelatedPosts(options, meta, form, hubMode, hub, n, postId, now, lib).outcome.CachedReply?
  {
  }

  /** After clear_all_plugin_data() no request is answered from the cache. */
  lemma ClearedCacheMisses(options: map<string, PhpValue>, meta: map<(int, string), PhpValue>, form: PhpValue,
                           hubMode: bool, hub: nat -> HttpReply, n: nat, postId: int, now: int, lib: Lib)
    ensures !FetchRelatedPosts(Deactivator.ClearedOptions(options), meta, form, hubMode, hub, n, postId, now, lib)
             .outcome.CachedReply?
  {
    var url := SourceUrl(form, lib);
    var node := RequestingNode(form, lib);
    Deactivator.ClearedOptionsEffect(options, lib.md5(url + "_" + node + "_" + IntToDecimal(RequestCount(form))), now);
  }

  /** ajax_fetch_related_posts(), on the store, with the node post it is about given. */
  method AjaxFetchRelatedPosts(s: Store, form: PhpValue, postId: int, now: int, lib: Lib) returns (outcome: FetchOutcome)
    modifies s`options, s`requests
    ensures var r := FetchRelatedPosts(old(s.options), s.meta, form, s.hubMode, s.hub, |old(s.requests)|, postId, now, lib);
      outcome == r.outcome && s.options == r.options && s.requests == old(s.requests) + r.requests
  {
    var url := SourceUrl(form, lib);
    var node := RequestingNode(form, lib);
    var count := RequestCount(form);
    if Empty(PStr(url)) || Empty(PStr(node)) {
      return MissingParameters;
    }
    var settings := SettingsOf(s.options);
    if !s.hubMode && !HubCredentials(settings) {
      return NotConfigured;
    }
    var enableCache := CacheEnabled(settings);
    var key := CacheKey(url, node, count, lib);
    if enableCache {
      var cached := CacheHit(s.options, key, now);
      if cached.Some? {
        return CachedReply(cached.value);
      }
    }
    var related := GetRelatedData(s, postId, count, lib);
    if related.Err? {
      return FetchFailed(related.error);
    }
    if |related.value| == 0 {
      return FetchedItems([]);
    }
    if enableCache {
      s.options := SetTransient(s.options, key, ItemsToPhp(related.value), CACHE_TTL, now);
    }
    outcome := FetchedItems(related.value);
  }
}
