/**
 * Chiral_Connector_Core: the plugin's version, the synchronisation hooks it
 * registers with its loader, and the record its public node-status REST
 * endpoint answers with.
 */
module Core {
  import opened Php
  import opened Wp

  const DEFAULT_VERSION := "1.0.0"

  /** The version: CHIRAL_CONNECTOR_VERSION when that constant is defined, else 1.0.0. */
  function Version(defined: Option<string>): (r: string)
    ensures defined.Some? ==> r == defined.value
    ensures defined.None? ==> r == DEFAULT_VERSION
  {
    defined.GetOr(DEFAULT_VERSION)
  }

  // ------------------------------------------------------------------ hooks

  /** An add_action() registration: hook, callback method name, priority, accepted arguments. */
  datatype Hook = Hook(hook: string, callback: string, priority: int, acceptedArgs: int)

  const PUBLISH_HOOK := Hook("transition_post_status", "sync_post_on_publish_or_update", 10, 3)
  const TRASH_HOOK := Hook("wp_trash_post", "delete_post_from_hub_on_trash", 10, 1)
  const DELETE_HOOK := Hook("delete_post", "delete_post_from_hub_on_delete", 10, 1)
  const RETRY_HOOK := Hook("chiral_connector_retry_sync_event", "handle_retry_sync_event", 10, 4)

  /** The plugin's hook registry, to which add_action() appends. */
  class Loader {
    var actions: seq<Hook>

    constructor ()
      ensures actions == []
    {
      actions := [];
    }

    method AddAction(h: Hook)
      modifies this
      ensures actions == old(actions) + [h]
    {
      actions := actions + [h];
    }
  }

  /** The registrations define_sync_hooks() makes for these settings, in order. */
  function SyncHooks(settings: PhpValue): (r: seq<Hook>)
    ensures |r| >= 1 && r[|r| - 1] == RETRY_HOOK
  {
    var publish := if IsArray(settings) && !Empty(Field(settings, "sync_on_publish")) then [PUBLISH_HOOK] else [];
    var trash := if IsArray(settings) && !Empty(Field(settings, "sync_on_trash")) then [TRASH_HOOK, DELETE_HOOK] else [];
    publish + trash + [RETRY_HOOK]
  }

  /**
   * The publish hook is registered iff the settings are an array whose
   * sync_on_publish is non-empty; the trash and delete hooks iff its
   * sync_on_trash is; the retry hook always.
   */
  lemma SyncHooksSelected(settings: PhpValue)
    ensures PUBLISH_HOOK in SyncHooks(settings) <==> IsArray(settings) && !Empty(Field(settings, "sync_on_publish"))
    ensures TRASH_HOOK in SyncHooks(settings) <==> IsArray(settings) && !Empty(Field(settings, "sync_on_trash"))
    ensures DELETE_HOOK in SyncHooks(settings) <==> TRASH_HOOK in SyncHooks(settings)
    ensures RETRY_HOOK in SyncHooks(settings)
  {
    var r := SyncHooks(settings);
    if !(IsArray(settings) && !Empty(Field(settings, "sync_on_publish"))) {
      assert forall i | 0 <= i < |r| :: r[i] != PUBLISH_HOOK;
    }
    if !(IsArray(settings) && !Empty(Field(settings, "sync_on_trash"))) {
      assert forall i | 0 <= i < |r| :: r[i] != TRASH_HOOK && r[i] != DELETE_HOOK;
    }
  }

  /** define_sync_hooks(). */
  method DefineSyncHooks(loader: Loader, settings: PhpValue)
    modifies loader
    ensures loader.actions == old(loader.actions) + SyncHooks(settings)
  {
    if IsArray(settings) {
      if !Empty(Field(settings, "sync_on_publish")) {
        loader.AddAction(PUBLISH_HOOK);
      }
      if !Empty(Field(settings, "sync_on_trash")) {
        loader.AddAction(TRASH_HOOK);
        loader.AddAction(DELETE_HOOK);
      }
    }
    loader.AddAction(RETRY_HOOK);
  }

  // ------------------------------------------------------------------ node status

  /** The body of a node-status response. */
  datatype NodeStatus = NodeStatus(
    pluginVersion: string,
    relatedArticlesEnabled: bool,
    lastDisabledTime: PhpValue,
    timestamp: int,
    siteUrl: string)

  /**
   * node_status_endpoint(): display is on unless the settings say otherwise;
   * the stored disable timestamp (or null) is reported only while it is off.
   */
  function NodeStatusOf(options: map<string, PhpValue>, version: string, now: int, homeUrl: string): (r: NodeStatus)
    ensures r.pluginVersion == version && r.timestamp == now && r.siteUrl == homeUrl
    ensures r.relatedArticlesEnabled <==>
      var settings := OptionOf(options, SETTINGS_OPTION, PList([]));
      !Isset(settings, "display_enable") || Truthy(Field(settings, "display_enable"))
    ensures r.relatedArticlesEnabled ==> r.lastDisabledTime == PNull
    ensures !r.relatedArticlesEnabled ==> r.lastDisabledTime == OptionOf(options, LAST_DISABLED_OPTION, PNull)
  {
    var settings := OptionOf(options, SETTINGS_OPTION, PList([]));
    var enabled := if Isset(settings, "display_enable") then Truthy(Field(settings, "display_enable")) else true;
    var last := if !enabled then OptionOf(options, LAST_DISABLED_OPTION, PNull) else PNull;
    NodeStatus(version, enabled, last, now, homeUrl)
  }
}
