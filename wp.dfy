/**
 * The parts of a WordPress site that Chiral Connector reads and writes,
 * plus the outside world it talks to. The options table holds transients
 * as `_transient_<key>` and `_transient_timeout_<key>` rows. There are also
 * single-valued post meta, the posts themselves, the WP-Cron schedule and
 * the log of outgoing HTTP requests. A reply oracle says what the Hub (or
 * WordPress.com) answers to the n-th request.
 */
module Wp {
  import opened Php

  // Option names.
  const SETTINGS_OPTION := "chiral_connector_settings"
  const FAILED_QUEUE_OPTION := "chiral_connector_failed_sync_queue"
  const LAST_DISABLED_OPTION := "chiral_connector_display_last_disabled"

  // Post meta keys.
  const SEND_FLAG_KEY := "_chiral_send_to_hub"
  const HUB_ID_KEY := "_chiral_hub_cpt_id"
  const RETRY_COUNT_KEY := "_chiral_sync_retry_count"

  // Transients.
  const BATCH_LOCK := "chiral_connector_batch_sync_running"
  const RELATED_CACHE_PREFIX := "chiral_related_cache_"
  const TRANSIENT_PREFIX := "_transient_"
  const TRANSIENT_TIMEOUT_PREFIX := "_transient_timeout_"

  const HOUR_IN_SECONDS := 3600

  /** The fields of a WP_Post (and of its ID) that the plugin's branches look at. */
  datatype Post = Post(postType: string, status: string, isRevision: bool, isAutosave: bool)

  /** An event on the WP-Cron schedule: its hook and its arguments. */
  datatype CronEvent =
    | RetrySync(postId: int, action: string, hubId: PhpValue, attempt: int)  // chiral_connector_retry_sync_event
    | BatchSync                                                             // chiral_connector_batch_sync_posts
    | RetryFailedSyncs                                                      // chiral_connector_retry_failed_syncs (hourly)

  /** What an HTTP call returns: a transport failure, or a status code and the JSON-decoded body. */
  datatype HttpReply = TransportError(message: string) | Reply(code: int, body: PhpValue)

  /** An HTTP request the plugin sends. Credentials and payload fields other than the node are not recorded. */
  datatype Request =
    | SendPost(endpoint: string, postId: int, nodeId: PhpValue)  // POST to the Hub's chiral_data collection
    | DeletePost(endpoint: string)                               // DELETE ?force=true
    | Ping(endpoint: string)
    | ListNodeData(endpoint: string, author: PhpValue, page: nat)
    | RelatedIds(site: string, hubPostId: int, size: int)        // WordPress.com related-posts API
    | PostDetails(site: string, detailsId: PhpValue)             // WordPress.com post API

  /** A WP_Error: its code and the Hub's decoded response body (null when there was none). */
  datatype WpError = WpError(code: string, responseBody: PhpValue)

  datatype Result<T> = Ok(value: T) | Err(error: WpError)

  /**
   * WordPress and PHP library functions whose behaviour the plugin relies on
   * but that are not part of this model.
   */
  datatype Lib = Lib(
    md5: string -> string,
    escUrlRaw: string -> string,
    escUrl: string -> string,
    escAttr: string -> string,
    sanitizeTextField: string -> string,
    validateUrl: string -> bool,            // filter_var(.., FILTER_VALIDATE_URL) !== false
    parseUrlHost: string -> Option<string>, // wp_parse_url(..)['host']
    jsonDecode: string -> PhpValue,         // json_decode(.., true)
    permalink: int -> string,               // get_permalink()
    homeUrl: string,
    siteUrl: string)

  /** get_post_meta($id, $key, true): the stored value, or '' when there is none. */
  function MetaOf(meta: map<(int, string), PhpValue>, postId: int, key: string): PhpValue {
    if (postId, key) in meta then meta[(postId, key)] else PStr("")
  }

  /** get_option($name, $default). */
  function OptionOf(options: map<string, PhpValue>, name: string, default: PhpValue): PhpValue {
    if name in options then options[name] else default
  }

  /** The plugin's settings record: get_option('chiral_connector_settings'), false when absent. */
  function SettingsOf(options: map<string, PhpValue>): PhpValue {
    OptionOf(options, SETTINGS_OPTION, PBool(false))
  }

  /** `isset($options[$key]) ? $options[$key] : ''`, as the plugin reads its connection settings. */
  function Setting(settings: PhpValue, key: string): PhpValue {
    FieldOr(settings, key, PStr(""))
  }

  /** Hub URL, username and application password are all non-empty. */
  predicate HubCredentials(settings: PhpValue) {
    !Empty(Setting(settings, "hub_url")) && !Empty(Setting(settings, "hub_username"))
    && !Empty(Setting(settings, "hub_app_password"))
  }

  /** The three Hub credentials and the node ID are all non-empty. */
  predicate NodeCredentials(settings: PhpValue) {
    HubCredentials(settings) && !Empty(Setting(settings, "node_id"))
  }

  // ------------------------------------------------------------------ transients

  function TransientRow(key: string): string { TRANSIENT_PREFIX + key }
  function TimeoutRow(key: string): string { TRANSIENT_TIMEOUT_PREFIX + key }

  /** get_transient(): the value when its row exists and has not expired; None stands for false. */
  function GetTransient(options: map<string, PhpValue>, key: string, now: int): (r: Option<PhpValue>)
    ensures r.Some? ==> TransientRow(key) in options && r.value == options[TransientRow(key)]
    ensures TransientRow(key) !in options ==> r.None?
  {
    if TransientRow(key) !in options then None
    else if TimeoutRow(key) in options && IntVal(options[TimeoutRow(key)]) < now then None
    else Some(options[TransientRow(key)])
  }

  /** set_transient() with a positive lifetime, on the options table. */
  function SetTransient(options: map<string, PhpValue>, key: string, value: PhpValue, ttl: int, now: int)
    : (r: map<string, PhpValue>)
    requires ttl > 0
    ensures GetTransient(r, key, now) == Some(value)
  {
    options[TransientRow(key) := value][TimeoutRow(key) := PInt(now + ttl)]
  }

  /** delete_transient(): both rows go. */
  function DeleteTransient(options: map<string, PhpValue>, key: string): (r: map<string, PhpValue>)
    ensures forall now :: GetTransient(r, key, now).None?
  {
    options - {TransientRow(key), TimeoutRow(key)}
  }

  /** The post-meta, cron and request-log part of the store, which synchronisation changes. */
  datatype SyncState = SyncState(meta: map<(int, string), PhpValue>, events: set<CronEvent>, requests: seq<Request>)

  /** What synchronisation reads but never changes. */
  datatype SyncEnv = SyncEnv(posts: map<int, Post>, settings: PhpValue, hubMode: bool, hub: nat -> HttpReply)

  /** The site's database, cron schedule and outgoing requests. */
  class Store {
    var options: map<string, PhpValue>
    var meta: map<(int, string), PhpValue>
    var events: set<CronEvent>
    var requests: seq<Request>
    const posts: map<int, Post>
    /** The reply to the n-th request this store sends. */
    const hub: nat -> HttpReply
    /** is_hub_mode() of the core object: the site runs the Hub plugin too. */
    const hubMode: bool

    constructor (options: map<string, PhpValue>, meta: map<(int, string), PhpValue>, posts: map<int, Post>,
                 events: set<CronEvent>, hub: nat -> HttpReply, hubMode: bool)
      ensures this.options == options && this.meta == meta && this.posts == posts
      ensures this.events == events && this.hub == hub && this.hubMode == hubMode
      ensures requests == []
    {
      this.options := options;
      this.meta := meta;
      this.posts := posts;
      this.events := events;
      this.requests := [];
      this.hub := hub;
      this.hubMode := hubMode;
    }

    function State(): SyncState
      reads this
    {
      SyncState(meta, events, requests)
    }

    function Env(): SyncEnv
      reads this
    {
      SyncEnv(posts, SettingsOf(options), hubMode, hub)
    }

    /** Sends a request; its reply is the oracle's answer for its position in the log. */
    method Send(r: Request) returns (reply: HttpReply)
      modifies this`requests
      ensures requests == old(requests) + [r]
      ensures reply == hub(|old(requests)|)
    {
      reply := hub(|requests|);
      requests := requests + [r];
    }
  }
}
