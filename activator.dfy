/**
 * Chiral_Connector_Activator: on activation the settings record is created
 * with its defaults, or an existing record is patched (a node ID, and the
 * cache and display switches, when missing). The hourly retry event is
 * scheduled when it is not already on the schedule.
 */
module Activator {
  import opened Php
  import opened Wp
  import opened Utils

  /**
   * `$array[$key] = $value`. A value that is not an associative array is
   * treated as an empty one.
   */
  function SetField(v: PhpValue, key: string, x: PhpValue): (r: PhpValue)
    ensures r.PMap?
    ensures Field(r, key) == x
    ensures forall k | k != key :: Field(r, k) == Field(v, k)
  {
    if v.PMap? then PMap(v.fields[key := x]) else PMap(map[key := x])
  }

  /** The record activation writes when there are no stored settings. */
  function DefaultSettings(lib: Lib): PhpValue {
    PMap(map[
      "hub_url" := PStr(""),
      "api_key" := PStr(""),
      "node_id" := PStr(GenerateNodeId(lib)),
      "sync_on_publish" := PBool(true),
      "sync_on_trash" := PBool(true),
      "batch_sync_posts_per_page" := PInt(20),
      "display_related_posts" := PBool(true),
      "display_enable" := PBool(true),
      "related_posts_title" := PStr("Related Content"),
      "related_posts_count" := PInt(5),
      "related_posts_placeholder_text" := PStr("Loading related posts..."),
      "enable_cache" := PBool(true)])
  }

  /** The patch applied to stored settings. */
  function PatchSettings(stored: PhpValue, lib: Lib): PhpValue {
    var a := if !Isset(stored, "node_id") || Empty(Field(stored, "node_id")) then SetField(stored, "node_id", PStr(GenerateNodeId(lib))) else stored;
    var b := if !Isset(a, "enable_cache") then SetField(a, "enable_cache", PBool(true)) else a;
    if !Isset(b, "display_enable") then SetField(b, "display_enable", PBool(true)) else b
  }

  /** The settings record after activation, from what get_option() returned. */
  function ActivatedSettings(stored: PhpValue, lib: Lib): PhpValue {
    if stored == PBool(false) then DefaultSettings(lib) else PatchSettings(stored, lib)
  }

  /** The options table after activation. */
  function ActivatedOptions(options: map<string, PhpValue>, lib: Lib): map<string, PhpValue> {
    options[SETTINGS_OPTION := ActivatedSettings(SettingsOf(options), lib)]
  }

  /** The default record has exactly the twelve keys of the source's default array. */
  lemma DefaultSettingsKeys(lib: Lib)
    ensures DefaultSettings(lib).fields.Keys ==
      {"hub_url", "api_key", "node_id", "sync_on_publish", "sync_on_trash", "batch_sync_posts_per_page",
       "display_related_posts", "display_enable", "related_posts_title", "related_posts_count",
       "related_posts_placeholder_text", "enable_cache"}
  {
  }

  /** The value of each connection default key. */
  lemma DefaultSettingsConnectionValues(lib: Lib)
    ensures var d := DefaultSettings(lib).fields;
      && "hub_url" in d && d["hub_url"] == PStr("")
      && "api_key" in d && d["api_key"] == PStr("")
      && "node_id" in d && d["node_id"] == PStr(GenerateNodeId(lib))
  {
  }

  /** The value of each sync default key. */
  lemma DefaultSettingsSyncValues(lib: Lib)
    ensures var d := DefaultSettings(lib).fields;
      && "sync_on_publish" in d && d["sync_on_publish"] == PBool(true)
      && "sync_on_trash" in d && d["sync_on_trash"] == PBool(true)
      && "batch_sync_posts_per_page" in d && d["batch_sync_posts_per_page"] == PInt(20)
  {
  }

  /** The value of each display and cache default key. */
  lemma DefaultSettingsDisplayValues(lib: Lib)
    ensures var d := DefaultSettings(lib).fields;
      && "display_related_posts" in d && d["display_related_posts"] == PBool(true)
      && "display_enable" in d && d["display_enable"] == PBool(true)
      && "related_posts_title" in d && d["related_posts_title"] == PStr("Related Content")
      && "related_posts_count" in d && d["related_posts_count"] == PInt(5)
      && "related_posts_placeholder_text" in d && d["related_posts_placeholder_text"] == PStr("Loading related posts...")
      && "enable_cache" in d && d["enable_cache"] == PBool(true)
  {
  }

  /**
   * A first activation writes the full default record (the four
   * lemmas above give all its keys and values): a generated node ID,
   * the cache, display and both sync switches on, 20 posts per batch page.
   */
  lemma FreshActivationDefaults(options: map<string, PhpValue>, lib: Lib)
    requires SETTINGS_OPTION !in options
    ensures var r := SettingsOf(ActivatedOptions(options, lib));
      && Field(r, "node_id") == PStr(GenerateNodeId(lib))
      && Field(r, "enable_cache") == PBool(true) && Field(r, "display_enable") == PBool(true)
      && Field(r, "sync_on_publish") == PBool(true) && Field(r, "sync_on_trash") == PBool(true)
      && Field(r, "batch_sync_posts_per_page") == PInt(20)
      && Field(r, "hub_url") == PStr("")
    ensures SettingsOf(ActivatedOptions(options, lib)) == DefaultSettings(lib)
  {
    var d := DefaultSettings(lib);
    assert SettingsOf(ActivatedOptions(options, lib)) == d;
    assert d.fields["node_id"] == PStr(GenerateNodeId(lib));
    assert d.fields["enable_cache"] == PBool(true);
    assert d.fields["display_enable"] == PBool(true);
    assert d.fields["sync_on_publish"] == PBool(true);
    assert d.fields["sync_on_trash"] == PBool(true);
    assert d.fields["batch_sync_posts_per_page"] == PInt(20);
    assert d.fields["hub_url"] == PStr("");
  }

  /**
   * Over stored settings, the node ID is generated only when it is missing
   * or empty, the cache and display switches are set on only when unset,
   * and every other key keeps its value.
   */
  lemma ActivationMerges(stored: PhpValue, lib: Lib)
    requires stored != PBool(false)
    ensures var r := ActivatedSettings(stored, lib);
      && (Empty(Field(stored, "node_id")) ==> Field(r, "node_id") == PStr(GenerateNodeId(lib)))
      && (!Empty(Field(stored, "node_id")) ==> Field(r, "node_id") == Field(stored, "node_id"))
      && Field(r, "enable_cache") == (if Isset(stored, "enable_cache") then Field(stored, "enable_cache") else PBool(true))
      && Field(r, "display_enable") == (if Isset(stored, "display_enable") then Field(stored, "display_enable") else PBool(true))
      && (forall k | k != "node_id" && k != "enable_cache" && k != "display_enable" :: Field(r, k) == Field(stored, k))
  {
  }

  /** Once activated, the record has a non-empty node ID and both switches set. */
  lemma ActivatedIsComplete(stored: PhpValue, lib: Lib)
    ensures var r := ActivatedSettings(stored, lib);
      r.PMap? && !Empty(Field(r, "node_id")) && Isset(r, "enable_cache") && Isset(r, "display_enable")
  {
    if stored != PBool(false) {
      ActivationMerges(stored, lib);
    }
  }

  /** A second activation leaves the settings record as the first one left it. */
  lemma {:induction false} ActivationIdempotent(options: map<string, PhpValue>, lib: Lib)
    ensures ActivatedOptions(ActivatedOptions(options, lib), lib) == ActivatedOptions(options, lib)
  {
    var once := ActivatedOptions(options, lib);
    var r := ActivatedSettings(SettingsOf(options), lib);
    assert SettingsOf(once) == r;
    ActivatedIsComplete(SettingsOf(options), lib);
    assert PatchSettings(r, lib) == r;
  }

  /** activate(). */
  method Activate(s: Store, lib: Lib)
    modifies s`options, s`events
    ensures s.options == ActivatedOptions(old(s.options), lib)
    ensures s.events == old(s.events) + {RetryFailedSyncs}
  {
    var options := OptionOf(s.options, SETTINGS_OPTION, PBool(false));
    if options == PBool(false) {
      s.options := s.options[SETTINGS_OPTION := DefaultSettings(lib)];
    } else {
      if !Isset(options, "node_id") || Empty(Field(options, "node_id")) {
        options := SetField(options, "node_id", PStr(GenerateNodeId(lib)));
      }
      if !Isset(options, "enable_cache") {
        options := SetField(options, "enable_cache", PBool(true));
      }
      if !Isset(options, "display_enable") {
        options := SetField(options, "display_enable", PBool(true));
      }
      s.options := s.options[SETTINGS_OPTION := options];
    }
    if RetryFailedSyncs !in s.events {
      s.events := s.events + {RetryFailedSyncs};
    }
  }
}
