/**
 * Synchronisation of a node's published posts to the Chiral Hub: pushes on
 * publish and update, deletions on trash and delete, retries through
 * WP-Cron, and the batch sync of every eligible post.
 *
 * Each operation is a specification function from the synchronisation state
 * (post meta, cron events, request log) to the new state. The imperative
 * methods on the store are proved to compute exactly that function, and the
 * lemmas about the functions carry the properties.
 */
module Sync {
  import opened Php
  import opened Wp
  import opened Api

  const MAX_RETRIES := 3
  const STALE_ID_CODE := "rest_post_invalid_id"

  // ------------------------------------------------------------------ pushing one post

  /** What a push of one post ended with. */
  datatype PushResult =
    | Stored(hubId: PhpValue)  // the Hub answered with an ID, now in the post's meta
    | NoId                     // the Hub accepted the post but its answer carries no ID
    | Failed                   // the send (and the re-send, if any) failed

  datatype Pushed = Pushed(state: SyncState, result: PushResult)

  function HubUrlOf(env: SyncEnv): string {
    StrVal(Setting(env.settings, "hub_url"))
  }

  function NodeIdOf(env: SyncEnv): PhpValue {
    Setting(env.settings, "node_id")
  }

  /** The Hub rejected an update because it no longer knows the Hub ID. */
  predicate StaleId(oldId: PhpValue, reply: HttpReply) {
    var outcome := SendOutcome(reply);
    !Empty(oldId) && outcome.Err? && Field(outcome.error.responseBody, "code") == PStr(STALE_ID_CODE)
  }

  /** Records the Hub ID a successful send answered with. */
  function Record(st: SyncState, postId: int, body: PhpValue): Pushed {
    if Isset(body, "id") then Pushed(st.(meta := st.meta[(postId, HUB_ID_KEY) := Field(body, "id")]), Stored(Field(body, "id")))
    else Pushed(st, NoId)
  }

  /**
   * The send shared by sync_post_to_hub() and batch_sync_posts(): an update
   * when the post has a Hub ID, else a create. When the Hub says the ID is
   * unknown, the ID is dropped and the post is sent once more as new.
   */
  function Push(st: SyncState, env: SyncEnv, postId: int): Pushed {
    var oldId := MetaOf(st.meta, postId, HUB_ID_KEY);
    var n := |st.requests|;
    var sent := st.(requests := st.requests + [SendPost(ChiralDataEndpoint(HubUrlOf(env), oldId), postId, NodeIdOf(env))]);
    var first := SendOutcome(env.hub(n));
    if first.Ok? then Record(sent, postId, first.value)
    else if StaleId(oldId, env.hub(n)) then
      var dropped := sent.(meta := sent.meta - {(postId, HUB_ID_KEY)},
                           requests := sent.requests + [SendPost(ChiralDataEndpoint(HubUrlOf(env), PNull), postId, NodeIdOf(env))]);
      var second := SendOutcome(env.hub(n + 1));
      if second.Ok? then Record(dropped, postId, second.value) else Pushed(dropped, Failed)
    else Pushed(sent, Failed)
  }

  /** Only the post's own Hub ID may differ between two meta maps. */
  predicate OnlyHubIdChanged(m: map<(int, string), PhpValue>, m': map<(int, string), PhpValue>, postId: int) {
    m - {(postId, HUB_ID_KEY)} == m' - {(postId, HUB_ID_KEY)}
  }

  /**
   * A push sends an update to the stored Hub ID's item or a create, and a
   * second request only after a stale-ID rejection, which is then a create.
   * A stored result is the ID the Hub returned; after a stale-ID rejection
   * the old ID is gone even when the second send fails; the other failures
   * leave the Hub ID alone. Nothing but the post's Hub ID and the request log
   * changes.
   */
  lemma PushBehaviour(st: SyncState, env: SyncEnv, postId: int)
    ensures var p := Push(st, env, postId);
      var oldId := MetaOf(st.meta, postId, HUB_ID_KEY);
      var n := |st.requests|;
      && p.state.events == st.events
      && OnlyHubIdChanged(st.meta, p.state.meta, postId)
      && st.requests < p.state.requests
      && p.state.requests[n] == SendPost(ChiralDataEndpoint(HubUrlOf(env), oldId), postId, NodeIdOf(env))
      && (|p.state.requests| == n + 2 <==> StaleId(oldId, env.hub(n)))
      && (|p.state.requests| == n + 1 <==> !StaleId(oldId, env.hub(n)))
      && (StaleId(oldId, env.hub(n)) ==>
            p.state.requests[n + 1] == SendPost(ChiralDataEndpoint(HubUrlOf(env), PNull), postId, NodeIdOf(env))
            && (p.result.Stored? || (postId, HUB_ID_KEY) !in p.state.meta))
      && (p.result.Stored? ==> p.result.hubId != PNull && MetaOf(p.state.meta, postId, HUB_ID_KEY) == p.result.hubId)
      && (p.result.Failed? && !StaleId(oldId, env.hub(n)) ==> p.state.meta == st.meta)
  {
  }

  /** A first send the Hub accepts with an ID stores that ID, whatever was stored before. */
  lemma PushStoresReturnedId(st: SyncState, env: SyncEnv, postId: int)
    requires env.hub(|st.requests|).Reply? && Is2xx(env.hub(|st.requests|).code)
    requires Isset(env.hub(|st.requests|).body, "id")
    ensures Push(st, env, postId).result == Stored(Field(env.hub(|st.requests|).body, "id"))
    ensures MetaOf(Push(st, env, postId).state.meta, postId, HUB_ID_KEY) == Field(env.hub(|st.requests|).body, "id")
  {
  }

  /**
   * The push's result follows from the Hub's replies: it fails exactly when
   * the first send fails and is not retried, or is retried and the re-send
   * fails too; it is NoId exactly when the accepted send's answer carries no
   * ID; after a stale-ID re-create that is answered with an ID, that ID is
   * the result and is stored.
   */
  lemma PushOutcome(st: SyncState, env: SyncEnv, postId: int)
    ensures var p := Push(st, env, postId);
      var oldId := MetaOf(st.meta, postId, HUB_ID_KEY);
      var n := |st.requests|;
      var first := SendOutcome(env.hub(n));
      var second := SendOutcome(env.hub(n + 1));
      && (p.result.Failed? <==> first.Err? && (!StaleId(oldId, env.hub(n)) || second.Err?))
      && (p.result.NoId? <==>
            (first.Ok? && !Isset(first.value, "id")) || (StaleId(oldId, env.hub(n)) && second.Ok? && !Isset(second.value, "id")))
      && (StaleId(oldId, env.hub(n)) && second.Ok? && Isset(second.value, "id") ==>
            p.result == Stored(Field(second.value, "id")) && MetaOf(p.state.meta, postId, HUB_ID_KEY) == Field(second.value, "id"))
  {
  }

  // ------------------------------------------------------------------ retries

  /** The retry counter: `$count ? (int) $count : 0`. */
  function RetryCount(meta: map<(int, string), PhpValue>, postId: int): int {
    var v := MetaOf(meta, postId, RETRY_COUNT_KEY);
    if Truthy(v) then IntVal(v) else 0
  }

  /**
   * schedule_retry_sync(): after three counted attempts the counter is
   * cleared and nothing is scheduled; otherwise the next attempt is
   * scheduled, unless the very same event is already waiting, and counted.
   */
  function ScheduleRetry(st: SyncState, postId: int, action: string, hubId: PhpValue): SyncState {
    var c := RetryCount(st.meta, postId);
    if c >= MAX_RETRIES then st.(meta := st.meta - {(postId, RETRY_COUNT_KEY)})
    else
      var ev := RetrySync(postId, action, hubId, c + 1);
      if ev in st.events then st
      else st.(events := st.events + {ev}, meta := st.meta[(postId, RETRY_COUNT_KEY) := PInt(c + 1)])
  }

  /** Only the post's retry counter may differ between two meta maps. */
  predicate OnlyRetryCountChanged(m: map<(int, string), PhpValue>, m': map<(int, string), PhpValue>, postId: int) {
    m - {(postId, RETRY_COUNT_KEY)} == m' - {(postId, RETRY_COUNT_KEY)}
  }

  /**
   * Scheduling a retry adds at most one event, for this post and action,
   * numbered one past the counter and never past 3, and then the counter
   * holds that number. At the cap it adds nothing and clears the counter.
   * It sends nothing, and changes no other meta.
   */
  lemma ScheduleRetryBounded(st: SyncState, postId: int, action: string, hubId: PhpValue)
    ensures var st' := ScheduleRetry(st, postId, action, hubId);
      var c := RetryCount(st.meta, postId);
      && st'.requests == st.requests
      && st.events <= st'.events
      && OnlyRetryCountChanged(st.meta, st'.meta, postId)
      && (forall e | e in st'.events && e !in st.events :: e == RetrySync(postId, action, hubId, c + 1) && c + 1 <= MAX_RETRIES)
      && (c >= MAX_RETRIES ==> st'.events == st.events && RetryCount(st'.meta, postId) == 0)
      && (c < MAX_RETRIES ==> RetrySync(postId, action, hubId, c + 1) in st'.events)
      && (st'.events != st.events ==> RetryCount(st'.meta, postId) == c + 1)
  {
    var c := RetryCount(st.meta, postId);
    if c < MAX_RETRIES && RetrySync(postId, action, hubId, c + 1) !in st.events {
      var st' := ScheduleRetry(st, postId, action, hubId);
      assert MetaOf(st'.meta, postId, RETRY_COUNT_KEY) == PInt(c + 1);
    }
  }

  // ------------------------------------------------------------------ sync_post_to_hub

  /** The conditions under which sync_post_to_hub() sends anything. */
  predicate SyncEligible(st: SyncState, env: SyncEnv, postId: int) {
    && !env.hubMode
    && postId in env.posts
    && MetaOf(st.meta, postId, SEND_FLAG_KEY) != PStr("no")
    && NodeCredentials(env.settings)
  }

  /** sync_post_to_hub(): push, and schedule a 'send' retry when the push failed. */
  function SyncPost(st: SyncState, env: SyncEnv, postId: int): SyncState {
    if !SyncEligible(st, env, postId) then st
    else
      var p := Push(st, env, postId);
      if p.result.Failed? then ScheduleRetry(p.state, postId, "send", PNull) else p.state
  }

  /**
   * sync_post_to_hub() sends something exactly when the post is eligible; an
   * ineligible post leaves the state as it was. Only the post's Hub ID and
   * retry counter can change in the meta, and the only events it adds are
   * 'send' retries of this post. A failed push schedules the next 'send'
   * retry below the cap, and at the cap adds nothing and clears the counter;
   * a push that does not fail adds no event.
   */
  lemma SyncPostBehaviour(st: SyncState, env: SyncEnv, postId: int)
    ensures var st' := SyncPost(st, env, postId);
      && (!SyncEligible(st, env, postId) ==> st' == st)
      && (SyncEligible(st, env, postId) ==> st.requests < st'.requests && |st'.requests| <= |st.requests| + 2)
      && st.meta - {(postId, HUB_ID_KEY), (postId, RETRY_COUNT_KEY)} == st'.meta - {(postId, HUB_ID_KEY), (postId, RETRY_COUNT_KEY)}
      && st.events <= st'.events
      && (forall e | e in st'.events && e !in st.events :: e.RetrySync? && e.postId == postId && e.action == "send" && e.hubId == PNull)
    ensures var st' := SyncPost(st, env, postId);
      var c := RetryCount(st.meta, postId);
      SyncEligible(st, env, postId) ==>
        var p := Push(st, env, postId);
        && (p.result.Failed? && c < MAX_RETRIES ==> RetrySync(postId, "send", PNull, c + 1) in st'.events)
        && (p.result.Failed? && c >= MAX_RETRIES ==> st'.events == st.events && RetryCount(st'.meta, postId) == 0)
        && (!p.result.Failed? ==> st'.events == st.events)
  {
    if SyncEligible(st, env, postId) {
      PushBehaviour(st, env, postId);
      var p := Push(st, env, postId);
      if p.result.Failed? {
        ScheduleRetryBounded(p.state, postId, "send", PNull);
        MetaFramesCompose(st.meta, p.state.meta, SyncPost(st, env, postId).meta, (postId, HUB_ID_KEY), (postId, RETRY_COUNT_KEY));
      } else {
        MetaFramesCompose(st.meta, p.state.meta, p.state.meta, (postId, HUB_ID_KEY), (postId, RETRY_COUNT_KEY));
      }
    }
  }

  /** Two maps that agree off `a`, and a third that agrees with the second off `b`, agree off both. */
  lemma MetaFramesCompose<K, V>(m0: map<K, V>, m1: map<K, V>, m2: map<K, V>, a: K, b: K)
    requires m0 - {a} == m1 - {a}
    requires m1 - {b} == m2 - {b}
    ensures m0 - {a, b} == m2 - {a, b}
  {
    assert m0 - {a, b} == (m0 - {a}) - {b};
    assert m2 - {a, b} == (m2 - {b}) - {a};
    assert (m1 - {a}) - {b} == (m1 - {b}) - {a};
  }

  /** A post marked 'no', or any post on a site in Hub mode, is never sent. */
  lemma OptedOutPostIsNotSent(st: SyncState, env: SyncEnv, postId: int)
    requires env.hubMode || MetaOf(st.meta, postId, SEND_FLAG_KEY) == PStr("no") || !NodeCredentials(env.settings)
    ensures SyncPost(st, env, postId) == st
  {
  }

  // ------------------------------------------------------------------ hooks

  /** The checks sync_on_publish_post() makes before syncing. */
  predicate PublishSyncs(post: Post) {
    !post.isRevision && !post.isAutosave && post.postType == "post" && post.status == "publish"
  }

  /** sync_on_publish_post(). */
  function OnPublish(st: SyncState, env: SyncEnv, postId: int, post: Post): (r: SyncState)
    ensures !PublishSyncs(post) ==> r == st
    ensures PublishSyncs(post) ==> r == SyncPost(st, env, postId)
  {
    if PublishSyncs(post) then SyncPost(st, env, postId) else st
  }

  /** sync_on_save_post(): only updates of existing posts, otherwise as on publish. */
  function OnSave(st: SyncState, env: SyncEnv, postId: int, post: Post, update: bool): (r: SyncState)
    ensures !update ==> r == st
    ensures update ==> r == OnPublish(st, env, postId, post)
  {
    if update && PublishSyncs(post) then SyncPost(st, env, postId) else st
  }

  /** sync_on_trash_post(): a post of another type is left alone; a missing post is still deleted. */
  function OnTrash(st: SyncState, env: SyncEnv, postId: int): (r: SyncState)
    ensures postId in env.posts && env.posts[postId].postType != "post" ==> r == st
    ensures postId !in env.posts ==> r == OnDelete(st, env, postId)
    ensures postId in env.posts && env.posts[postId].postType == "post" ==> r == OnDelete(st, env, postId)
  {
    if postId in env.posts && env.posts[postId].postType != "post" then st else DeleteFromHub(st, env, postId)
  }

  /** sync_on_delete_post(). */
  function OnDelete(st: SyncState, env: SyncEnv, postId: int): SyncState {
    DeleteFromHub(st, env, postId)
  }

  // ------------------------------------------------------------------ deletion

  /** The DELETE request and what follows it, shared by delete_post_from_hub() and the delete retry. */
  function DeleteRequest(st: SyncState, env: SyncEnv, postId: int, hubId: PhpValue): SyncState {
    if !HubCredentials(env.settings) then st
    else
      var sent := st.(requests := st.requests + [DeletePost(DeleteEndpoint(HubUrlOf(env), hubId))]);
      if DeleteOutcome(env.hub(|st.requests|)).Ok? then sent.(meta := sent.meta - {(postId, HUB_ID_KEY)})
      else ScheduleRetry(sent, postId, "delete", hubId)
  }

  /** delete_post_from_hub(). */
  function DeleteFromHub(st: SyncState, env: SyncEnv, postId: int): SyncState {
    var hubId := MetaOf(st.meta, postId, HUB_ID_KEY);
    if env.hubMode || Empty(hubId) then st else DeleteRequest(st, env, postId, hubId)
  }

  /**
   * Deleting sends one DELETE for the post's Hub ID exactly when not in Hub
   * mode, the ID is not empty and the credentials are set. A 200 or 204
   * forgets the ID; any other answer keeps it and schedules a 'delete' retry
   * that carries it.
   */
  lemma DeleteBehaviour(st: SyncState, env: SyncEnv, postId: int)
    ensures var st' := DeleteFromHub(st, env, postId);
      var hubId := MetaOf(st.meta, postId, HUB_ID_KEY);
      var sends := !env.hubMode && !Empty(hubId) && HubCredentials(env.settings);
      && (!sends ==> st' == st)
      && (sends ==> st'.requests == st.requests + [DeletePost(DeleteEndpoint(HubUrlOf(env), hubId))])
      && (sends && DeleteOutcome(env.hub(|st.requests|)).Ok? ==>
            (postId, HUB_ID_KEY) !in st'.meta && st'.events == st.events)
      && (sends && !DeleteOutcome(env.hub(|st.requests|)).Ok? ==>
            MetaOf(st'.meta, postId, HUB_ID_KEY) == hubId
            && (forall e | e in st'.events && e !in st.events ::
                  e.RetrySync? && e.postId == postId && e.action == "delete" && e.hubId == hubId)
            && (RetryCount(st.meta, postId) < MAX_RETRIES ==>
                  RetrySync(postId, "delete", hubId, RetryCount(st.meta, postId) + 1) in st'.events))
  {
    var hubId := MetaOf(st.meta, postId, HUB_ID_KEY);
    if !env.hubMode && !Empty(hubId) && HubCredentials(env.settings) {
      var sent := st.(requests := st.requests + [DeletePost(DeleteEndpoint(HubUrlOf(env), hubId))]);
      ScheduleRetryBounded(sent, postId, "delete", hubId);
    }
  }

  // ------------------------------------------------------------------ the retry event

  /** handle_retry_sync_event() as written: the counter is cleared before the attempt. */
  function HandleRetry(st: SyncState, env: SyncEnv, postId: int, action: string, hubId: PhpValue, attempt: int): SyncState {
    var cleared := st.(meta := st.meta - {(postId, RETRY_COUNT_KEY)});
    if action == "send" then SyncPost(cleared, env, postId)
    else if action == "delete" && Truthy(hubId) then DeleteRequest(cleared, env, postId, hubId)
    else cleared
  }

  /** WP-Cron takes a due single event off the schedule and runs its handler. */
  function RunRetryEvent(st: SyncState, env: SyncEnv, ev: CronEvent): SyncState
    requires ev.RetrySync?
  {
    HandleRetry(st.(events := st.events - {ev}), env, ev.postId, ev.action, ev.hubId, ev.attempt)
  }

  /**
   * A delete retry does not look at Hub mode: on a site that turned into a
   * Hub after the failure, the retry still sends its DELETE.
   */
  lemma DeleteRetryIgnoresHubMode(st: SyncState, env: SyncEnv, postId: int, hubId: PhpValue, attempt: int)
    requires env.hubMode && Truthy(hubId) && HubCredentials(env.settings)
    ensures HandleRetry(st, env, postId, "delete", hubId, attempt).requests
      == st.requests + [DeletePost(DeleteEndpoint(HubUrlOf(env), hubId))]
    ensures DeleteFromHub(st, env, postId) == st
  {
  }

  /** Every send the Hub answers with a failure, and no Hub ID is stored for the post. */
  ghost predicate HubAlwaysFails(st: SyncState, env: SyncEnv, postId: int) {
    && SyncEligible(st, env, postId)
    && Empty(MetaOf(st.meta, postId, HUB_ID_KEY))
    && (forall k: nat :: SendOutcome(env.hub(k)).Err?)
  }

  /** The state after the first 'send' retry of a post has run k times in a row. */
  function RunFirstRetry(st: SyncState, env: SyncEnv, postId: int, k: nat): SyncState {
    if k == 0 then st
    else RunRetryEvent(RunFirstRetry(st, env, postId, k - 1), env, RetrySync(postId, "send", PNull, 1))
  }

  /** One run of the first 'send' retry against a Hub that always fails puts the same event back. */
  lemma FirstRetryComesBack(st: SyncState, env: SyncEnv, postId: int)
    requires HubAlwaysFails(st, env, postId)
    ensures var st' := RunRetryEvent(st, env, RetrySync(postId, "send", PNull, 1));
      && RetrySync(postId, "send", PNull, 1) in st'.events
      && RetryCount(st'.meta, postId) == 1
      && HubAlwaysFails(st', env, postId)
  {
    var ev := RetrySync(postId, "send", PNull, 1);
    var cleared := st.(events := st.events - {ev}, meta := st.meta - {(postId, RETRY_COUNT_KEY)});
    assert RetryCount(cleared.meta, postId) == 0;
    assert SyncEligible(cleared, env, postId);
    PushBehaviour(cleared, env, postId);
    var p := Push(cleared, env, postId);
    assert p.result.Failed? && p.state.meta == cleared.meta;
    var st' := ScheduleRetry(p.state, postId, "send", PNull);
    assert MetaOf(st'.meta, postId, RETRY_COUNT_KEY) == PInt(1);
    assert MetaOf(st'.meta, postId, HUB_ID_KEY) == MetaOf(st.meta, postId, HUB_ID_KEY);
    assert MetaOf(st'.meta, postId, SEND_FLAG_KEY) == MetaOf(st.meta, postId, SEND_FLAG_KEY);
  }

  /**
   * As written, the retry chain of a failing send never ends: the handler
   * clears the counter, the failed push schedules attempt 1 again, and after
   * any number of runs attempt 1 is waiting once more with the counter at 1.
   */
  lemma {:induction false} SendRetryChainNeverEnds(st: SyncState, env: SyncEnv, postId: int, k: nat)
    requires HubAlwaysFails(st, env, postId)
    requires RetrySync(postId, "send", PNull, 1) in st.events
    ensures var st' := RunFirstRetry(st, env, postId, k);
      RetrySync(postId, "send", PNull, 1) in st'.events && HubAlwaysFails(st', env, postId)
    ensures k > 0 ==> RetryCount(RunFirstRetry(st, env, postId, k).meta, postId) == 1
    decreases k
  {
    if k > 0 {
      SendRetryChainNeverEnds(st, env, postId, k - 1);
      FirstRetryComesBack(RunFirstRetry(st, env, postId, k - 1), env, postId);
    }
  }

  /** The corrected handler: the counter is set to the attempt being run, so the next failure counts on from it. */
  function HandleRetryCounted(st: SyncState, env: SyncEnv, postId: int, action: string, hubId: PhpValue, attempt: int): SyncState {
    var counted := st.(meta := st.meta[(postId, RETRY_COUNT_KEY) := PInt(attempt)]);
    if action == "send" then SyncPost(counted, env, postId)
    else if action == "delete" && Truthy(hubId) then DeleteRequest(counted, env, postId, hubId)
    else counted
  }

  /**
   * With the corrected handler, running attempt a of a post's retry can only
   * schedule attempt a + 1 of it, and only while a is below 3.
   */
  lemma CountedRetryStep(st: SyncState, env: SyncEnv, postId: int, action: string, hubId: PhpValue, attempt: int)
    requires attempt >= 1
    ensures var st' := HandleRetryCounted(st, env, postId, action, hubId, attempt);
      forall e | e in st'.events && e !in st.events ::
        e.RetrySync? && e.postId == postId && e.attempt == attempt + 1 && attempt < MAX_RETRIES
  {
    var counted := st.(meta := st.meta[(postId, RETRY_COUNT_KEY) := PInt(attempt)]);
    assert RetryCount(counted.meta, postId) == attempt;
    if action == "send" {
      if SyncEligible(counted, env, postId) {
        PushBehaviour(counted, env, postId);
        var p := Push(counted, env, postId);
        assert RetryCount(p.state.meta, postId) == attempt;
        ScheduleRetryBounded(p.state, postId, "send", PNull);
      }
    } else if action == "delete" && Truthy(hubId) && HubCredentials(env.settings) {
      var sent := counted.(requests := counted.requests + [DeletePost(DeleteEndpoint(HubUrlOf(env), hubId))]);
      ScheduleRetryBounded(sent, postId, "delete", hubId);
    }
  }

  /** WP-Cron takes a due retry event off the schedule and runs the corrected handler. */
  function RunRetryEventCounted(st: SyncState, env: SyncEnv, ev: CronEvent): SyncState
    requires ev.RetrySync?
  {
    HandleRetryCounted(st.(events := st.events - {ev}), env, ev.postId, ev.action, ev.hubId, ev.attempt)
  }

  /** The retry events waiting for a post. */
  function RetriesOf(events: set<CronEvent>, postId: int): set<CronEvent> {
    set e | e in events && e.RetrySync? && e.postId == postId
  }

  /** The state after attempts 1, 2, ..., k of a post's 'send' retry have run in turn with the corrected handler. */
  function RunCountedChain(st: SyncState, env: SyncEnv, postId: int, k: nat): SyncState {
    if k == 0 then st
    else RunRetryEventCounted(RunCountedChain(st, env, postId, k - 1), env, RetrySync(postId, "send", PNull, k))
  }

  /**
   * Against a Hub that always fails, running attempt a when it is the only
   * retry waiting for the post leaves attempt a + 1 as the only one below the
   * cap, and nothing at the cap.
   */
  lemma CountedRetryRunsOn(st: SyncState, env: SyncEnv, postId: int, a: int)
    requires HubAlwaysFails(st, env, postId)
    requires 1 <= a <= MAX_RETRIES
    requires RetriesOf(st.events, postId) == {RetrySync(postId, "send", PNull, a)}
    ensures var st' := RunRetryEventCounted(st, env, RetrySync(postId, "send", PNull, a));
      && RetriesOf(st'.events, postId) == (if a < MAX_RETRIES then {RetrySync(postId, "send", PNull, a + 1)} else {})
      && HubAlwaysFails(st', env, postId)
  {
    var ev := RetrySync(postId, "send", PNull, a);
    var counted := st.(events := st.events - {ev}, meta := st.meta[(postId, RETRY_COUNT_KEY) := PInt(a)]);
    assert RetriesOf(counted.events, postId) == {};
    assert RetryCount(counted.meta, postId) == a;
    assert SyncEligible(counted, env, postId);
    PushBehaviour(counted, env, postId);
    var p := Push(counted, env, postId);
    assert p.result.Failed? && p.state.meta == counted.meta;
    ScheduleRetryBounded(p.state, postId, "send", PNull);
    var st' := ScheduleRetry(p.state, postId, "send", PNull);
    assert MetaOf(st'.meta, postId, HUB_ID_KEY) == MetaOf(st.meta, postId, HUB_ID_KEY);
    assert MetaOf(st'.meta, postId, SEND_FLAG_KEY) == MetaOf(st.meta, postId, SEND_FLAG_KEY);
  }

  /**
   * With the corrected handler the retry chain of a failing send ends. When
   * attempt 1 is the only retry waiting for the post, after k runs only
   * attempt k + 1 is waiting while k < 3, and after the third run nothing is
   * waiting for the post.
   */
  lemma {:induction false} CountedRetryChainEnds(st: SyncState, env: SyncEnv, postId: int, k: nat)
    requires HubAlwaysFails(st, env, postId)
    requires RetriesOf(st.events, postId) == {RetrySync(postId, "send", PNull, 1)}
    requires k <= MAX_RETRIES
    ensures var st' := RunCountedChain(st, env, postId, k);
      && RetriesOf(st'.events, postId) == (if k < MAX_RETRIES then {RetrySync(postId, "send", PNull, k + 1)} else {})
      && HubAlwaysFails(st', env, postId)
    decreases k
  {
    if k > 0 {
      CountedRetryChainEnds(st, env, postId, k - 1);
      CountedRetryRunsOn(RunCountedChain(st, env, postId, k - 1), env, postId, k);
    }
  }

  // ------------------------------------------------------------------ batch sync

  /** A post the batch query returns: a published 'post' whose flag is 'yes' or not set. */
  predicate BatchCandidate(posts: map<int, Post>, meta: map<(int, string), PhpValue>, postId: int) {
    && postId in posts
    && posts[postId].postType == "post"
    && posts[postId].status == "publish"
    && ((postId, SEND_FLAG_KEY) !in meta || meta[(postId, SEND_FLAG_KEY)] == PStr("yes"))
  }

  /** `ids` is what the batch WP_Query pages through: every candidate, by ascending ID. */
  ghost predicate BatchQuery(posts: map<int, Post>, meta: map<(int, string), PhpValue>, ids: seq<int>) {
    && (forall i, j | 0 <= i < j < |ids| :: ids[i] < ids[j])
    && (forall id :: id in ids <==> BatchCandidate(posts, meta, id))
  }

  /** posts_per_page of the batch: the setting when it is a positive integer, else 20. */
  function PerPage(settings: PhpValue): (r: int)
    ensures r > 0
    ensures Isset(settings, "batch_sync_posts_per_page") && IntVal(Field(settings, "batch_sync_posts_per_page")) > 0
      ==> r == IntVal(Field(settings, "batch_sync_posts_per_page"))
    ensures !Isset(settings, "batch_sync_posts_per_page") ==> r == 20
    ensures Isset(settings, "batch_sync_posts_per_page") && IntVal(Field(settings, "batch_sync_posts_per_page")) <= 0 ==> r == 20
  {
    var n := if Isset(settings, "batch_sync_posts_per_page") then IntVal(Field(settings, "batch_sync_posts_per_page")) else 20;
    if n <= 0 then 20 else n
  }

  /** The running totals of a batch. */
  datatype Tally = Tally(state: SyncState, synced: nat, errors: nat)

  /**
   * One post of the batch: skipped when marked 'no', an error when the post
   * or the credentials are missing, synced when the push stored a Hub ID
   * and an error otherwise. Unlike sync_post_to_hub(), no retry is scheduled.
   */
  function BatchPost(t: Tally, env: SyncEnv, postId: int): Tally {
    if MetaOf(t.state.meta, postId, SEND_FLAG_KEY) == PStr("no") then t
    else if postId !in env.posts || !NodeCredentials(env.settings) then t.(errors := t.errors + 1)
    else
      var p := Push(t.state, env, postId);
      if p.result.Stored? then Tally(p.state, t.synced + 1, t.errors) else Tally(p.state, t.synced, t.errors + 1)
  }

  /** The batch over these posts in order. */
  function BatchRun(t: Tally, env: SyncEnv, ids: seq<int>): Tally {
    if |ids| == 0 then t else BatchPost(BatchRun(t, env, ids[..|ids| - 1]), env, ids[|ids| - 1])
  }

  /**
   * Every post is counted at most once, as synced or as an error; the batch
   * schedules no retries; in the meta only Hub IDs change. Without
   * credentials every post not marked 'no' is an error and nothing is sent.
   */
  lemma {:induction false} BatchTotals(t: Tally, env: SyncEnv, ids: seq<int>)
    ensures var r := BatchRun(t, env, ids);
      && r.synced + r.errors <= t.synced + t.errors + |ids|
      && r.synced >= t.synced && r.errors >= t.errors
      && r.state.events == t.state.events
      && t.state.requests <= r.state.requests
      && (forall k | k in t.state.meta && k.1 != HUB_ID_KEY :: k in r.state.meta && r.state.meta[k] == t.state.meta[k])
      && (forall k | k in r.state.meta && k.1 != HUB_ID_KEY :: k in t.state.meta)
    ensures !NodeCredentials(env.settings) && (forall id | id in ids :: MetaOf(t.state.meta, id, SEND_FLAG_KEY) != PStr("no"))
      ==> BatchRun(t, env, ids) == t.(errors := t.errors + |ids|)
    decreases |ids|
  {
    if |ids| > 0 {
      var prefix := ids[..|ids| - 1];
      BatchTotals(t, env, prefix);
      BatchPostFrame(BatchRun(t, env, prefix), env, ids[|ids| - 1]);
    }
  }

  /** One post of the batch: counted at most once, no retry, and only Hub IDs change in the meta. */
  lemma BatchPostFrame(m: Tally, env: SyncEnv, id: int)
    ensures var r := BatchPost(m, env, id);
      && r.synced + r.errors <= m.synced + m.errors + 1
      && r.synced >= m.synced && r.errors >= m.errors
      && r.state.events == m.state.events
      && m.state.requests <= r.state.requests
      && (forall k | k in m.state.meta && k.1 != HUB_ID_KEY :: k in r.state.meta && r.state.meta[k] == m.state.meta[k])
      && (forall k | k in r.state.meta && k.1 != HUB_ID_KEY :: k in m.state.meta)
  {
    if MetaOf(m.state.meta, id, SEND_FLAG_KEY) != PStr("no") && id in env.posts && NodeCredentials(env.settings) {
      PushBehaviour(m.state, env, id);
      var p := Push(m.state, env, id);
      assert forall k | k in m.state.meta && k.1 != HUB_ID_KEY :: k in p.state.meta && p.state.meta[k] == m.state.meta[k] by {
        forall k | k in m.state.meta && k.1 != HUB_ID_KEY
          ensures k in p.state.meta && p.state.meta[k] == m.state.meta[k]
        {
          assert k in m.state.meta - {(id, HUB_ID_KEY)};
        }
      }
      assert forall k | k in p.state.meta && k.1 != HUB_ID_KEY :: k in m.state.meta by {
        forall k | k in p.state.meta && k.1 != HUB_ID_KEY
          ensures k in m.state.meta
        {
          assert k in p.state.meta - {(id, HUB_ID_KEY)};
        }
      }
    }
  }

  /** How many of `n` query results lie before page `paged`. */
  function PageStart(n: nat, perPage: int, paged: int): (r: nat)
    requires perPage > 0 && paged >= 1
    ensures r <= n
    ensures r < n ==> r == (paged - 1) * perPage
  {
    if (paged - 1) * perPage < n then (paged - 1) * perPage else n
  }

  /** The posts on page `paged` of the query, `perPage` to a page. */
  function QueryPage(ids: seq<int>, perPage: int, paged: int): (r: seq<int>)
    requires perPage > 0 && paged >= 1
    ensures |r| <= perPage
    ensures |r| == 0 <==> (paged - 1) * perPage >= |ids|
  {
    ids[PageStart(|ids|, perPage, paged)..PageStart(|ids|, perPage, paged + 1)]
  }

  /** Page `paged` is the slice of the IDs between two consecutive page starts; an empty page starts at the end. */
  lemma QueryPageSlice(ids: seq<int>, perPage: int, paged: int)
    requires perPage > 0 && paged >= 1
    ensures var lo := PageStart(|ids|, perPage, paged);
      var page := QueryPage(ids, perPage, paged);
      && lo + |page| == PageStart(|ids|, perPage, paged + 1) <= |ids|
      && page == ids[lo..lo + |page|]
      && (|page| == 0 ==> lo == |ids|)
  {
  }

  lemma BatchRunAppend(t: Tally, env: SyncEnv, ids: seq<int>, k: nat)
    requires k < |ids|
    ensures BatchRun(t, env, ids[..k + 1]) == BatchPost(BatchRun(t, env, ids[..k]), env, ids[k])
  {
    assert ids[..k + 1][..k] == ids[..k];
  }

  // ------------------------------------------------------------------ the store's operations

  /** The push of sync_post_to_hub() and batch_sync_posts(). */
  method PushToHub(s: Store, postId: int) returns (result: PushResult)
    modifies s`meta, s`requests
    ensures s.State() == Push(old(s.State()), old(s.Env()), postId).state
    ensures result == Push(old(s.State()), old(s.Env()), postId).result
  {
    var settings := SettingsOf(s.options);
    var hubUrl := StrVal(Setting(settings, "hub_url"));
    var nodeId := Setting(settings, "node_id");
    var hubId := MetaOf(s.meta, postId, HUB_ID_KEY);
    var response := SendDataToHub(s, hubUrl, hubId, postId, nodeId);
    if response.Err? {
      if !Empty(hubId) && Field(response.error.responseBody, "code") == PStr(STALE_ID_CODE) {
        s.meta := s.meta - {(postId, HUB_ID_KEY)};
        var retry := SendDataToHub(s, hubUrl, PNull, postId, nodeId);
        if retry.Err? {
          result := Failed;
        } else if Isset(retry.value, "id") {
          s.meta := s.meta[(postId, HUB_ID_KEY) := Field(retry.value, "id")];
          result := Stored(Field(retry.value, "id"));
        } else {
          result := NoId;
        }
      } else {
        result := Failed;
      }
    } else if Isset(response.value, "id") {
      s.meta := s.meta[(postId, HUB_ID_KEY) := Field(response.value, "id")];
      result := Stored(Field(response.value, "id"));
    } else {
      result := NoId;
    }
  }

  /** schedule_retry_sync(). */
  method ScheduleRetrySync(s: Store, postId: int, action: string, hubId: PhpValue)
    modifies s`meta, s`events
    ensures s.State() == ScheduleRetry(old(s.State()), postId, action, hubId)
  {
    var v := MetaOf(s.meta, postId, RETRY_COUNT_KEY);
    var count := if Truthy(v) then IntVal(v) else 0;
    if count >= MAX_RETRIES {
      s.meta := s.meta - {(postId, RETRY_COUNT_KEY)};
      return;
    }
    var ev := RetrySync(postId, action, hubId, count + 1);
    if ev !in s.events {
      s.events := s.events + {ev};
      s.meta := s.meta[(postId, RETRY_COUNT_KEY) := PInt(count + 1)];
    }
  }

  /** sync_post_to_hub(). */
  method SyncPostToHub(s: Store, postId: int)
    modifies s`meta, s`events, s`requests
    ensures s.State() == SyncPost(old(s.State()), old(s.Env()), postId)
  {
    if s.hubMode || postId !in s.posts || MetaOf(s.meta, postId, SEND_FLAG_KEY) == PStr("no") {
      return;
    }
    if !NodeCredentials(SettingsOf(s.options)) {
      return;
    }
    var result := PushToHub(s, postId);
    if result.Failed? {
      ScheduleRetrySync(s, postId, "send", PNull);
    }
  }

  /** sync_on_publish_post(). */
  method OnPublishPost(s: Store, postId: int, post: Post)
    modifies s`meta, s`events, s`requests
    ensures s.State() == OnPublish(old(s.State()), old(s.Env()), postId, post)
  {
    if post.isRevision || post.isAutosave || post.postType != "post" || post.status != "publish" {
      return;
    }
    SyncPostToHub(s, postId);
  }

  /** sync_on_save_post(). */
  method OnSavePost(s: Store, postId: int, post: Post, update: bool)
    modifies s`meta, s`events, s`requests
    ensures s.State() == OnSave(old(s.State()), old(s.Env()), postId, post, update)
  {
    if !update {
      return;
    }
    OnPublishPost(s, postId, post);
  }

  /** The DELETE and its aftermath. */
  method SendDeleteRequest(s: Store, postId: int, hubId: PhpValue)
    modifies s`meta, s`events, s`requests
    ensures s.State() == DeleteRequest(old(s.State()), old(s.Env()), postId, hubId)
  {
    var settings := SettingsOf(s.options);
    if !HubCredentials(settings) {
      return;
    }
    var response := DeleteDataFromHub(s, hubId, StrVal(Setting(settings, "hub_url")));
    if response.Err? {
      ScheduleRetrySync(s, postId, "delete", hubId);
    } else {
      s.meta := s.meta - {(postId, HUB_ID_KEY)};
    }
  }

  /** delete_post_from_hub(). */
  method DeletePostFromHub(s: Store, postId: int)
    modifies s`meta, s`events, s`requests
    ensures s.State() == DeleteFromHub(old(s.State()), old(s.Env()), postId)
  {
    if s.hubMode {
      return;
    }
    var hubId := MetaOf(s.meta, postId, HUB_ID_KEY);
    if Empty(hubId) {
      return;
    }
    SendDeleteRequest(s, postId, hubId);
  }

  /** sync_on_trash_post(). */
  method OnTrashPost(s: Store, postId: int)
    modifies s`meta, s`events, s`requests
    ensures s.State() == OnTrash(old(s.State()), old(s.Env()), postId)
  {
    if postId in s.posts && s.posts[postId].postType != "post" {
      return;
    }
    DeletePostFromHub(s, postId);
  }

  /** sync_on_delete_post(). */
  method OnDeletePost(s: Store, postId: int)
    modifies s`meta, s`events, s`requests
    ensures s.State() == OnDelete(old(s.State()), old(s.Env()), postId)
  {
    DeletePostFromHub(s, postId);
  }

  /** handle_retry_sync_event(), with the retry counter set to the attempt being run. */
  method HandleRetrySyncEvent(s: Store, postId: int, action: string, hubId: PhpValue, attempt: int)
    modifies s`meta, s`events, s`requests
    ensures s.State() == HandleRetryCounted(old(s.State()), old(s.Env()), postId, action, hubId, attempt)
  {
    s.meta := s.meta[(postId, RETRY_COUNT_KEY) := PInt(attempt)];
    if action == "send" {
      SyncPostToHub(s, postId);
    } else if action == "delete" && Truthy(hubId) {
      SendDeleteRequest(s, postId, hubId);
    }
  }

  /** One post of batch_sync_posts(). */
  method BatchSyncOne(s: Store, postId: int, synced: nat, errors: nat) returns (synced': nat, errors': nat)
    modifies s`meta, s`requests
    ensures Tally(s.State(), synced', errors') == BatchPost(Tally(old(s.State()), synced, errors), old(s.Env()), postId)
    ensures synced' >= synced && errors' >= errors
  {
    synced', errors' := synced, errors;
    if MetaOf(s.meta, postId, SEND_FLAG_KEY) == PStr("no") {
      return;
    }
    if postId !in s.posts || !NodeCredentials(SettingsOf(s.options)) {
      errors' := errors + 1;
      return;
    }
    var result := PushToHub(s, postId);
    if result.Stored? {
      synced' := synced + 1;
    } else {
      errors' := errors + 1;
    }
  }

  /** The j-th post of a page, as a step of the whole batch. */
  method BatchSyncStep(s: Store, page: seq<int>, j: nat, synced: nat, errors: nat,
                       ghost ids: seq<int>, ghost lo: nat, ghost t0: Tally, ghost env: SyncEnv)
    returns (synced': nat, errors': nat)
    requires j < |page| && lo + |page| <= |ids| && page == ids[lo..lo + |page|]
    requires s.Env() == env
    requires Tally(s.State(), synced, errors) == BatchRun(t0, env, ids[..lo + j])
    modifies s`meta, s`requests
    ensures s.Env() == env
    ensures Tally(s.State(), synced', errors') == BatchRun(t0, env, ids[..lo + j + 1])
    ensures synced' >= synced && errors' >= errors
  {
    assert page[j] == ids[lo + j];
    BatchRunAppend(t0, env, ids, lo + j);
    synced', errors' := BatchSyncOne(s, page[j], synced, errors);
  }

  /** One page of batch_sync_posts(): the posts `ids[lo..lo + |page|]`. */
  method BatchSyncPage(s: Store, page: seq<int>, synced: nat, errors: nat,
                       ghost ids: seq<int>, ghost lo: nat, ghost t0: Tally, ghost env: SyncEnv)
    returns (syncedThisPage: nat, errorsThisPage: nat)
    requires lo + |page| <= |ids| && page == ids[lo..lo + |page|]
    requires s.Env() == env
    requires Tally(s.State(), synced, errors) == BatchRun(t0, env, ids[..lo])
    modifies s`meta, s`requests
    ensures Tally(s.State(), synced + syncedThisPage, errors + errorsThisPage) == BatchRun(t0, env, ids[..lo + |page|])
  {
    syncedThisPage, errorsThisPage := 0, 0;
    var j := 0;
    while j < |page|
      invariant 0 <= j <= |page|
      invariant s.Env() == env
      invariant Tally(s.State(), synced + syncedThisPage, errors + errorsThisPage) == BatchRun(t0, env, ids[..lo + j])
    {
      var a, b := BatchSyncStep(s, page, j, synced + syncedThisPage, errors + errorsThisPage, ids, lo, t0, env);
      syncedThisPage, errorsThisPage := a - synced, b - errors;
      j := j + 1;
    }
  }

  lemma LockKeepsSettings(options: map<string, PhpValue>, now: int)
    ensures SettingsOf(SetTransient(options, BATCH_LOCK, PBool(true), HOUR_IN_SECONDS, now)) == SettingsOf(options)
    ensures DeleteTransient(SetTransient(options, BATCH_LOCK, PBool(true), HOUR_IN_SECONDS, now), BATCH_LOCK)
      == DeleteTransient(options, BATCH_LOCK)
  {
    assert TransientRow(BATCH_LOCK)[0] != SETTINGS_OPTION[0];
    assert TimeoutRow(BATCH_LOCK)[0] != SETTINGS_OPTION[0];
  }

  /**
   * batch_sync_posts(): all posts the batch query returns, page by page,
   * under the batch lock transient. `ids` is the query's result; the
   * batch changes neither the posts nor their send flags, so every page
   * is a slice of it.
   */
  method BatchSyncPosts(s: Store, ids: seq<int>, now: int) returns (synced: nat, errors: nat, processed: nat)
    requires BatchQuery(s.posts, s.meta, ids)
    modifies s`options, s`meta, s`requests
    ensures s.options == DeleteTransient(old(s.options), BATCH_LOCK)
    ensures s.hubMode ==> s.State() == old(s.State()) && synced == 0 && errors == 0 && processed == 0
    ensures !s.hubMode ==> Tally(s.State(), synced, errors) == BatchRun(Tally(old(s.State()), 0, 0), old(s.Env()), ids)
    ensures !s.hubMode ==> processed == |ids| && synced + errors <= processed
  {
    synced, errors, processed := 0, 0, 0;
    if s.hubMode {
      s.options := DeleteTransient(s.options, BATCH_LOCK);
      return;
    }
    ghost var t0 := Tally(s.State(), 0, 0);
    ghost var env := s.Env();
    LockKeepsSettings(s.options, now);
    s.options := SetTransient(s.options, BATCH_LOCK, PBool(true), HOUR_IN_SECONDS, now);
    var options := SettingsOf(s.options);
    var perPage := PerPage(options);
    var paged := 1;
    while true
      invariant paged >= 1
      invariant s.Env() == env
      invariant s.options == SetTransient(old(s.options), BATCH_LOCK, PBool(true), HOUR_IN_SECONDS, now)
      invariant processed == PageStart(|ids|, perPage, paged)
      invariant Tally(s.State(), synced, errors) == BatchRun(t0, env, ids[..processed])
      decreases |ids| - processed
    {
      var page := QueryPage(ids, perPage, paged);
      QueryPageSlice(ids, perPage, paged);
      if |page| == 0 {
        break;
      }
      ghost var lo := processed;
      var syncedThisPage, errorsThisPage := BatchSyncPage(s, page, synced, errors, ids, processed, t0, env);
      synced := synced + syncedThisPage;
      errors := errors + errorsThisPage;
      processed := processed + |page|;
      assert Tally(s.State(), synced, errors) == BatchRun(t0, env, ids[..lo + |page|]);
      paged := paged + 1;
    }
    assert ids[..processed] == ids;
    BatchTotals(t0, env, ids);
    s.options := DeleteTransient(s.options, BATCH_LOCK);
  }
}
