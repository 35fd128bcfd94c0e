/**
 * Chiral_Connector_Admin: sanitising the settings form, the per-post
 * "Send to Chiral?" flag (metabox and quick edit) with the Hub deletion it
 * can cause, the post-list column, triggering a batch sync under its lock,
 * and quitting the network.
 */
module Admin {
  import opened Php
  import opened Wp
  import opened Api
  import opened Sync
  import opened Core
  import opened Deactivator

  // ------------------------------------------------------------------ settings

  /** The keys sanitize_settings() handles, in the order it handles them. */
  const SETTINGS_KEYS := ["hub_url", "hub_username", "hub_app_password", "hub_user_id", "node_id",
                          "display_enable", "display_count", "enable_debug_logging", "enable_cache"]

  /** get_option('chiral_connector_settings', array()). */
  function ExistingSettings(options: map<string, PhpValue>): PhpValue {
    OptionOf(options, SETTINGS_OPTION, PList([]))
  }

  /** A checkbox: `(bool) $input[$key]` when sent, false when the browser left it out. */
  function Checkbox(input: PhpValue, key: string): PhpValue {
    PBool(Isset(input, key) && Truthy(Field(input, key)))
  }

  /** What the sanitised record holds at `key`, if anything. */
  function SanitizedField(input: PhpValue, existing: PhpValue, key: string, lib: Lib): Option<PhpValue> {
    if key == "display_enable" || key == "enable_debug_logging" || key == "enable_cache" then Some(Checkbox(input, key))
    else if key == "hub_user_id" then
      if Isset(input, key) then Some(PInt(AbsInt(Field(input, key))))
      else if Isset(existing, key) then Some(PInt(AbsInt(Field(existing, key))))
      else None
    else if !Isset(input, key) then None
    else if key == "hub_url" then Some(PStr(lib.escUrlRaw(Trim(StrVal(Field(input, key))))))
    else if key == "hub_username" || key == "node_id" then Some(PStr(lib.sanitizeTextField(StrVal(Field(input, key)))))
    else if key == "hub_app_password" then Some(PStr(Trim(StrVal(Field(input, key)))))
    else if key == "display_count" then Some(PInt(AbsInt(Field(input, key))))
    else None
  }

  /** The record sanitize_settings() returns, key by key. */
  function Sanitized(input: PhpValue, existing: PhpValue, lib: Lib): map<string, PhpValue> {
    map key | key in SETTINGS_KEYS && SanitizedField(input, existing, key, lib).Some? :: SanitizedField(input, existing, key, lib).value
  }

  /** display_enable was on before (a missing value counts as on). */
  predicate PreviouslyDisplayed(existing: PhpValue) {
    !Isset(existing, "display_enable") || Truthy(Field(existing, "display_enable"))
  }

  /** The save turns display off: the disable time is recorded. */
  predicate DisableRecorded(input: PhpValue, existing: PhpValue) {
    PreviouslyDisplayed(existing) && Checkbox(input, "display_enable") == PBool(false)
  }

  function Lookup(m: map<string, PhpValue>, key: string): Option<PhpValue> {
    if key in m then Some(m[key]) else None
  }

  lemma SanitizedLookup(input: PhpValue, existing: PhpValue, lib: Lib)
    ensures forall key :: Lookup(Sanitized(input, existing, lib), key)
                          == if key in SETTINGS_KEYS then SanitizedField(input, existing, key, lib) else None
  {
  }

  /** Only whitelisted keys come out. */
  lemma SanitizedKeys(input: PhpValue, existing: PhpValue, lib: Lib)
    ensures forall key | key in Sanitized(input, existing, lib) :: key in SETTINGS_KEYS
  {
  }

  /** The three checkboxes are always there, and false when left out of the form. */
  lemma SanitizedCheckboxes(input: PhpValue, existing: PhpValue, lib: Lib, key: string)
    requires key == "display_enable" || key == "enable_debug_logging" || key == "enable_cache"
    ensures key in Sanitized(input, existing, lib)
    ensures Sanitized(input, existing, lib)[key] == PBool(Isset(input, key) && Truthy(Field(input, key)))
  {
    SanitizedLookup(input, existing, lib);
    assert Lookup(Sanitized(input, existing, lib), key) == SanitizedField(input, existing, key, lib);
  }

  /** hub_user_id comes from the form, else from the stored record, absint-ed either way. */
  lemma SanitizedUserId(input: PhpValue, existing: PhpValue, lib: Lib)
    ensures var r := Sanitized(input, existing, lib);
      && (Isset(input, "hub_user_id") ==> "hub_user_id" in r && r["hub_user_id"] == PInt(AbsInt(Field(input, "hub_user_id"))))
      && (!Isset(input, "hub_user_id") && Isset(existing, "hub_user_id") ==>
            "hub_user_id" in r && r["hub_user_id"] == PInt(AbsInt(Field(existing, "hub_user_id"))))
      && (!Isset(input, "hub_user_id") && !Isset(existing, "hub_user_id") ==> "hub_user_id" !in r)
  {
    SanitizedLookup(input, existing, lib);
    UserIdField(input, existing, lib);
    assert Lookup(Sanitized(input, existing, lib), "hub_user_id") == SanitizedField(input, existing, "hub_user_id", lib);
  }

  /** The text and number fields are there exactly when the form sent them. */
  lemma SanitizedSentFields(input: PhpValue, existing: PhpValue, lib: Lib, key: string)
    requires key in ["hub_url", "hub_username", "hub_app_password", "node_id", "display_count"]
    ensures key in Sanitized(input, existing, lib) <==> Isset(input, key)
  {
    SanitizedLookup(input, existing, lib);
    assert key in SETTINGS_KEYS;
    assert Lookup(Sanitized(input, existing, lib), key) == SanitizedField(input, existing, key, lib);
  }

  /** The effect of `if (...) $sanitized_input[$key] = ...;` for the value the key should get. */
  function WithField(m: map<string, PhpValue>, key: string, f: Option<PhpValue>): map<string, PhpValue> {
    if f.Some? then m[key := f.value] else m
  }

  /** The record after the first `n` keys have been handled. */
  function Built(input: PhpValue, existing: PhpValue, lib: Lib, n: nat): map<string, PhpValue>
    requires n <= |SETTINGS_KEYS|
  {
    if n == 0 then map[]
    else WithField(Built(input, existing, lib, n - 1), SETTINGS_KEYS[n - 1],
                   SanitizedField(input, existing, SETTINGS_KEYS[n - 1], lib))
  }

  lemma {:induction false} BuiltLookup(input: PhpValue, existing: PhpValue, lib: Lib, n: nat, key: string)
    requires n <= |SETTINGS_KEYS|
    ensures Lookup(Built(input, existing, lib, n), key) == if key in SETTINGS_KEYS[..n] then SanitizedField(input, existing, key, lib) else None
  {
    if n > 0 {
      BuiltLookup(input, existing, lib, n - 1, key);
      assert SETTINGS_KEYS[..n] == SETTINGS_KEYS[..n - 1] + [SETTINGS_KEYS[n - 1]];
    }
  }

  /** Only hub_user_id depends on the stored record. */
  lemma StoredOnlyForUserId(input: PhpValue, existing: PhpValue, lib: Lib, key: string)
    requires key != "hub_user_id"
    ensures SanitizedField(input, existing, key, lib) == SanitizedField(input, PList([]), key, lib)
  {
  }

  lemma LookupExtensional(m1: map<string, PhpValue>, m2: map<string, PhpValue>)
    requires forall key :: Lookup(m1, key) == Lookup(m2, key)
    ensures m1 == m2
  {
    forall key | key in m1
      ensures key in m2 && m2[key] == m1[key]
    {
      assert Lookup(m1, key) == Lookup(m2, key);
    }
    forall key | key in m2
      ensures key in m1
    {
      assert Lookup(m1, key) == Lookup(m2, key);
    }
  }

  /** Handling all the keys one after another builds the key-by-key record. */
  lemma BuiltAll(input: PhpValue, existing: PhpValue, lib: Lib, m: map<string, PhpValue>)
    requires m == Built(input, existing, lib, |SETTINGS_KEYS|)
    ensures forall key :: Lookup(m, key) == if key in SETTINGS_KEYS then SanitizedField(input, existing, key, lib) else None
  {
    assert SETTINGS_KEYS[..|SETTINGS_KEYS|] == SETTINGS_KEYS;
    forall key
      ensures Lookup(m, key) == if key in SETTINGS_KEYS then SanitizedField(input, existing, key, lib) else None
    {
      BuiltLookup(input, existing, lib, |SETTINGS_KEYS|, key);
    }
  }

  lemma UserIdField(input: PhpValue, existing: PhpValue, lib: Lib)
    ensures "hub_user_id" in SETTINGS_KEYS
    ensures SanitizedField(input, existing, "hub_user_id", lib) ==
      if !Isset(input, "hub_user_id") && Isset(existing, "hub_user_id") then Some(PInt(AbsInt(Field(existing, "hub_user_id"))))
      else SanitizedField(input, PList([]), "hub_user_id", lib)
  {
  }

  /**
   * The final step, hub_user_id from the stored record, turns the record
   * built as if nothing was stored into the one for what is stored.
   */
  lemma BuiltIsSanitized(input: PhpValue, existing: PhpValue, lib: Lib, m: map<string, PhpValue>, m': map<string, PhpValue>)
    requires m == Built(input, PList([]), lib, |SETTINGS_KEYS|)
    requires m' == if !Isset(input, "hub_user_id") && Isset(existing, "hub_user_id")
                   then m["hub_user_id" := PInt(AbsInt(Field(existing, "hub_user_id")))] else m
    ensures m' == Sanitized(input, existing, lib)
  {
    var r := Sanitized(input, existing, lib);
    BuiltAll(input, PList([]), lib, m);
    SanitizedLookup(input, existing, lib);
    forall key
      ensures Lookup(m', key) == Lookup(r, key)
    {
      if key != "hub_user_id" {
        assert Lookup(m', key) == Lookup(m, key);
        StoredOnlyForUserId(input, existing, lib, key);
      } else {
        UserIdField(input, existing, lib);
      }
    }
    LookupExtensional(m', r);
  }

  /** One more key handled: the record gains that key's sanitised value, if any. */
  lemma BuiltStep(input: PhpValue, lib: Lib, n: nat, m: map<string, PhpValue>, m': map<string, PhpValue>)
    requires n < |SETTINGS_KEYS| && m == Built(input, PList([]), lib, n)
    requires m' == WithField(m, SETTINGS_KEYS[n], SanitizedField(input, PList([]), SETTINGS_KEYS[n], lib))
    ensures m' == Built(input, PList([]), lib, n + 1)
  {
  }

  /** The connection fields of sanitize_settings(), each copied only when the form sent it. */
  method SanitizeConnection(input: PhpValue, lib: Lib) returns (m: map<string, PhpValue>)
    ensures m == Built(input, PList([]), lib, 5)
  {
    ConnectionFields(input, lib);
    m := map[];
    ghost var before := m;
    if Isset(input, "hub_url") {
      m := m["hub_url" := PStr(lib.escUrlRaw(Trim(StrVal(Field(input, "hub_url")))))];
    }
    BuiltStep(input, lib, 0, before, m);
    before := m;
    if Isset(input, "hub_username") {
      m := m["hub_username" := PStr(lib.sanitizeTextField(StrVal(Field(input, "hub_username"))))];
    }
    BuiltStep(input, lib, 1, before, m);
    before := m;
    if Isset(input, "hub_app_password") {
      m := m["hub_app_password" := PStr(Trim(StrVal(Field(input, "hub_app_password"))))];
    }
    BuiltStep(input, lib, 2, before, m);
    before := m;
    if Isset(input, "hub_user_id") {
      m := m["hub_user_id" := PInt(AbsInt(Field(input, "hub_user_id")))];
    }
    BuiltStep(input, lib, 3, before, m);
    before := m;
    if Isset(input, "node_id") {
      m := m["node_id" := PStr(lib.sanitizeTextField(StrVal(Field(input, "node_id"))))];
    }
    BuiltStep(input, lib, 4, before, m);
  }

  /** The keys in the order sanitize_settings() handles them. */
  lemma KeyOrder()
    ensures |SETTINGS_KEYS| == 9
    ensures SETTINGS_KEYS[0] == "hub_url" && SETTINGS_KEYS[1] == "hub_username" && SETTINGS_KEYS[2] == "hub_app_password"
    ensures SETTINGS_KEYS[3] == "hub_user_id" && SETTINGS_KEYS[4] == "node_id" && SETTINGS_KEYS[5] == "display_enable"
    ensures SETTINGS_KEYS[6] == "display_count" && SETTINGS_KEYS[7] == "enable_debug_logging" && SETTINGS_KEYS[8] == "enable_cache"
  {
  }

  /** What the connection keys get, read off the definition once. */
  lemma ConnectionFields(input: PhpValue, lib: Lib)
    ensures SETTINGS_KEYS[..5] == ["hub_url", "hub_username", "hub_app_password", "hub_user_id", "node_id"]
    ensures SanitizedField(input, PList([]), "hub_url", lib)
      == if Isset(input, "hub_url") then Some(PStr(lib.escUrlRaw(Trim(StrVal(Field(input, "hub_url")))))) else None
    ensures SanitizedField(input, PList([]), "hub_username", lib)
      == if Isset(input, "hub_username") then Some(PStr(lib.sanitizeTextField(StrVal(Field(input, "hub_username"))))) else None
    ensures SanitizedField(input, PList([]), "hub_app_password", lib)
      == if Isset(input, "hub_app_password") then Some(PStr(Trim(StrVal(Field(input, "hub_app_password"))))) else None
    ensures SanitizedField(input, PList([]), "hub_user_id", lib)
      == if Isset(input, "hub_user_id") then Some(PInt(AbsInt(Field(input, "hub_user_id")))) else None
    ensures SanitizedField(input, PList([]), "node_id", lib)
      == if Isset(input, "node_id") then Some(PStr(lib.sanitizeTextField(StrVal(Field(input, "node_id"))))) else None
  {
  }

  /**
   * The display switch of sanitize_settings(): left out of the form it is
   * false; switching display off records the time.
   */
  method SanitizeDisplayEnable(s: Store, input: PhpValue, now: int, lib: Lib, m0: map<string, PhpValue>)
    returns (m: map<string, PhpValue>)
    requires m0 == Built(input, PList([]), lib, 5)
    modifies s`options
    ensures m == Built(input, PList([]), lib, 6)
    ensures s.options == if DisableRecorded(input, ExistingSettings(old(s.options)))
                         then old(s.options)[LAST_DISABLED_OPTION := PInt(now)] else old(s.options)
  {
    KeyOrder();
    SwitchFields(input, lib);
    var existing := ExistingSettings(s.options);
    var previous := if Isset(existing, "display_enable") then Truthy(Field(existing, "display_enable")) else true;
    if Isset(input, "display_enable") {
      var enable := Truthy(Field(input, "display_enable"));
      m := m0["display_enable" := PBool(enable)];
      if previous && !enable {
        s.options := s.options[LAST_DISABLED_OPTION := PInt(now)];
      }
    } else {
      m := m0["display_enable" := PBool(false)];
      if previous {
        s.options := s.options[LAST_DISABLED_OPTION := PInt(now)];
      }
    }
    BuiltStep(input, lib, 5, m0, m);
  }

  /** The count and the two remaining checkboxes of sanitize_settings(); a checkbox left out of the form is false. */
  method SanitizeCountAndFlags(input: PhpValue, lib: Lib, m0: map<string, PhpValue>) returns (m: map<string, PhpValue>)
    requires m0 == Built(input, PList([]), lib, 6)
    ensures m == Built(input, PList([]), lib, 9)
  {
    KeyOrder();
    SwitchFields(input, lib);
    m := m0;
    if Isset(input, "display_count") {
      m := m["display_count" := PInt(AbsInt(Field(input, "display_count")))];
    }
    BuiltStep(input, lib, 6, m0, m);
    ghost var before := m;
    if Isset(input, "enable_debug_logging") {
      m := m["enable_debug_logging" := PBool(Truthy(Field(input, "enable_debug_logging")))];
    } else {
      m := m["enable_debug_logging" := PBool(false)];
    }
    BuiltStep(input, lib, 7, before, m);
    before := m;
    if Isset(input, "enable_cache") {
      m := m["enable_cache" := PBool(Truthy(Field(input, "enable_cache")))];
    } else {
      m := m["enable_cache" := PBool(false)];
    }
    BuiltStep(input, lib, 8, before, m);
  }

  /** What the switch keys get, read off the definition once. */
  lemma SwitchFields(input: PhpValue, lib: Lib)
    ensures SanitizedField(input, PList([]), "display_enable", lib) == Some(Checkbox(input, "display_enable"))
    ensures SanitizedField(input, PList([]), "display_count", lib)
      == if Isset(input, "display_count") then Some(PInt(AbsInt(Field(input, "display_count")))) else None
    ensures SanitizedField(input, PList([]), "enable_debug_logging", lib) == Some(Checkbox(input, "enable_debug_logging"))
    ensures SanitizedField(input, PList([]), "enable_cache", lib) == Some(Checkbox(input, "enable_cache"))
  {
  }

  /**
   * sanitize_settings(). It builds the record key by key, records the
   * time when the save switches the related-posts display off, and keeps a
   * stored hub_user_id the form did not send.
   */
  method SanitizeSettings(s: Store, input: PhpValue, now: int, lib: Lib) returns (r: PhpValue)
    modifies s`options
    ensures r == PMap(Sanitized(input, ExistingSettings(old(s.options)), lib))
    ensures s.options == if DisableRecorded(input, ExistingSettings(old(s.options)))
                         then old(s.options)[LAST_DISABLED_OPTION := PInt(now)] else old(s.options)
  {
    var m := SanitizeConnection(input, lib);
    m := SanitizeDisplayEnable(s, input, now, lib, m);
    m := SanitizeCountAndFlags(input, lib, m);
    ghost var built := m;
    var existing := ExistingSettings(s.options);
    assert existing == ExistingSettings(old(s.options));
    if !Isset(input, "hub_user_id") && Isset(existing, "hub_user_id") {
      m := m["hub_user_id" := PInt(AbsInt(Field(existing, "hub_user_id")))];
    }
    BuiltIsSanitized(input, existing, lib, built, m);
    r := PMap(m);
  }

  /**
   * Once WordPress stores a sanitised record that switched display off, the
   * node-status endpoint reports display off and the recorded time.
   */
  lemma DisableShowsInNodeStatus(options: map<string, PhpValue>, input: PhpValue, now: int, lib: Lib,
                                 version: string, later: int, homeUrl: string)
    requires DisableRecorded(input, ExistingSettings(options))
    ensures var saved := options[LAST_DISABLED_OPTION := PInt(now)][SETTINGS_OPTION := PMap(Sanitized(input, ExistingSettings(options), lib))];
      var status := NodeStatusOf(saved, version, later, homeUrl);
      !status.relatedArticlesEnabled && status.lastDisabledTime == PInt(now)
  {
    SanitizedCheckboxes(input, ExistingSettings(options), lib, "display_enable");
  }

  // ------------------------------------------------------------------ the "Send to Chiral?" flag

  /**
   * What save_chiral_send_metabox_data() learns besides $_POST: the two nonce
   * checks, DOING_AUTOSAVE and current_user_can('edit_post').
   */
  datatype SaveRequest = SaveRequest(form: PhpValue, metaboxNonceValid: bool, inlineNonceValid: bool,
                                     doingAutosave: bool, canEdit: bool)

  /** $_POST['post_type'] through sanitize_text_field(), when sent. */
  function FormPostType(form: PhpValue, lib: Lib): Option<string> {
    if Isset(form, "post_type") then Some(lib.sanitizeTextField(StrVal(Field(form, "post_type")))) else None
  }

  /** The save gets past every early return of save_chiral_send_metabox_data(). */
  predicate SaveProceeds(req: SaveRequest, lib: Lib) {
    && (Isset(req.form, "chiral_send_metabox_nonce") || Isset(req.form, "_inline_edit"))
    && (Isset(req.form, "chiral_send_metabox_nonce") ==> req.metaboxNonceValid)
    && (Isset(req.form, "_inline_edit") ==> req.inlineNonceValid)
    && (req.doingAutosave ==> Isset(req.form, "_inline_edit"))
    && (FormPostType(req.form, lib) == Some("post") || Isset(req.form, "post_ID"))
    && req.canEdit
    && (Isset(req.form, "_inline_edit") ==> FormPostType(req.form, lib) == Some("post"))
  }

  /** The flag the save writes: the metabox checkbox, else the quick-edit value, else 'no'. */
  function NewSendFlag(form: PhpValue, lib: Lib): string {
    if Isset(form, "chiral_send_to_hub_checkbox") then "yes"
    else if Isset(form, "chiral_send_to_hub_quick_edit") then
      if lib.sanitizeTextField(StrVal(Field(form, "chiral_send_to_hub_quick_edit"))) == "yes" then "yes" else "no"
    else "no"
  }

  /** The stored flag, with a never-set flag counting as 'yes'. */
  function PreviousSendFlag(meta: map<(int, string), PhpValue>, postId: int): PhpValue {
    if MetaOf(meta, postId, SEND_FLAG_KEY) == PStr("") then PStr("yes") else MetaOf(meta, postId, SEND_FLAG_KEY)
  }

  /** The save switches a synced post from sending to not sending, and the Hub can be reached. */
  predicate SaveDeletes(st: SyncState, env: SyncEnv, postId: int, req: SaveRequest, lib: Lib) {
    && PreviousSendFlag(st.meta, postId) != PStr("no")
    && NewSendFlag(req.form, lib) == "no"
    && !Empty(MetaOf(st.meta, postId, HUB_ID_KEY))
    && HubCredentials(env.settings)
  }

  /** save_chiral_send_metabox_data(). The reply to the DELETE is not looked at. */
  function SaveSendFlag(st: SyncState, env: SyncEnv, postId: int, req: SaveRequest, lib: Lib): SyncState {
    if !SaveProceeds(req, lib) then st else WriteSendFlag(st, env, postId, req, lib)
  }

  /** The part of save_chiral_send_metabox_data() after the early returns: write the flag, then maybe DELETE. */
  function WriteSendFlag(st: SyncState, env: SyncEnv, postId: int, req: SaveRequest, lib: Lib): SyncState {
    var written := st.(meta := st.meta[(postId, SEND_FLAG_KEY) := PStr(NewSendFlag(req.form, lib))]);
    if SaveDeletes(st, env, postId, req, lib)
    then written.(requests := written.requests + [DeletePost(DeleteEndpoint(HubUrlOf(env), MetaOf(st.meta, postId, HUB_ID_KEY)))])
    else written
  }

  /** The new flag is 'yes' exactly when the checkbox was sent or quick edit said 'yes'. */
  lemma NewSendFlagChoice(form: PhpValue, lib: Lib)
    ensures NewSendFlag(form, lib) == "yes" || NewSendFlag(form, lib) == "no"
    ensures NewSendFlag(form, lib) == "yes" <==>
      Isset(form, "chiral_send_to_hub_checkbox")
      || (Isset(form, "chiral_send_to_hub_quick_edit")
          && lib.sanitizeTextField(StrVal(Field(form, "chiral_send_to_hub_quick_edit"))) == "yes")
  {
  }

  /**
   * A save that gets through always writes the flag and changes no other
   * meta; in particular the Hub ID stays. It sends one DELETE for the Hub ID
   * exactly when the flag goes from sending (or never set) to 'no', the post
   * has a Hub ID and the credentials are set. A save stopped early changes
   * nothing.
   */
  lemma SaveSendFlagBehaviour(st: SyncState, env: SyncEnv, postId: int, req: SaveRequest, lib: Lib)
    ensures var st' := SaveSendFlag(st, env, postId, req, lib);
      && (!SaveProceeds(req, lib) ==> st' == st)
      && (SaveProceeds(req, lib) ==>
            && MetaOf(st'.meta, postId, SEND_FLAG_KEY) == PStr(NewSendFlag(req.form, lib))
            && st'.meta - {(postId, SEND_FLAG_KEY)} == st.meta - {(postId, SEND_FLAG_KEY)}
            && MetaOf(st'.meta, postId, HUB_ID_KEY) == MetaOf(st.meta, postId, HUB_ID_KEY)
            && st'.events == st.events
            && (SaveDeletes(st, env, postId, req, lib) ==>
                  st'.requests == st.requests + [DeletePost(DeleteEndpoint(HubUrlOf(env), MetaOf(st.meta, postId, HUB_ID_KEY)))])
            && (!SaveDeletes(st, env, postId, req, lib) ==> st'.requests == st.requests))
  {
    if SaveProceeds(req, lib) {
      var st' := SaveSendFlag(st, env, postId, req, lib);
      assert (postId, HUB_ID_KEY) != (postId, SEND_FLAG_KEY);
      assert MetaOf(st'.meta, postId, HUB_ID_KEY) == MetaOf(st.meta, postId, HUB_ID_KEY);
    }
  }

  /** Unchecking a synced post whose flag was never set asks the Hub to delete it. */
  lemma UncheckingNewPostDeletes(st: SyncState, env: SyncEnv, postId: int, req: SaveRequest, lib: Lib)
    requires SaveProceeds(req, lib) && (postId, SEND_FLAG_KEY) !in st.meta
    requires !Isset(req.form, "chiral_send_to_hub_checkbox") && !Isset(req.form, "chiral_send_to_hub_quick_edit")
    requires !Empty(MetaOf(st.meta, postId, HUB_ID_KEY)) && HubCredentials(env.settings)
    ensures SaveSendFlag(st, env, postId, req, lib).requests
            == st.requests + [DeletePost(DeleteEndpoint(HubUrlOf(env), MetaOf(st.meta, postId, HUB_ID_KEY)))]
  {
  }

  /** Saving a post that is already 'no' never talks to the Hub. */
  lemma ResavingOptedOutPostSendsNothing(st: SyncState, env: SyncEnv, postId: int, req: SaveRequest, lib: Lib)
    requires MetaOf(st.meta, postId, SEND_FLAG_KEY) == PStr("no")
    ensures SaveSendFlag(st, env, postId, req, lib).requests == st.requests
  {
  }

  /**
   * After a save that writes 'no', the post is out of synchronisation: a
   * later sync_post_to_hub() leaves the state as it is, and the post list
   * shows 'no'.
   */
  lemma SavedNoStopsSync(st: SyncState, env: SyncEnv, postId: int, req: SaveRequest, lib: Lib)
    requires SaveProceeds(req, lib) && NewSendFlag(req.form, lib) == "no"
    ensures var st' := SaveSendFlag(st, env, postId, req, lib);
      SyncPost(st', env, postId) == st' && ColumnStatus(st'.meta, postId) == "no"
  {
    SaveSendFlagBehaviour(st, env, postId, req, lib);
    var st' := SaveSendFlag(st, env, postId, req, lib);
    OptedOutPostIsNotSent(st', env, postId);
  }

  /** The early returns of save_chiral_send_metabox_data(), in the order it makes them. */
  method SaveGuardsPass(req: SaveRequest, lib: Lib) returns (ok: bool)
    ensures ok <==> SaveProceeds(req, lib)
  {
    var form := req.form;
    if !Isset(form, "chiral_send_metabox_nonce") && !Isset(form, "_inline_edit") {
      return false;
    }
    if Isset(form, "chiral_send_metabox_nonce") && !req.metaboxNonceValid {
      return false;
    }
    if Isset(form, "_inline_edit") && !req.inlineNonceValid {
      return false;
    }
    if req.doingAutosave && !Isset(form, "_inline_edit") {
      return false;
    }
    if Isset(form, "post_type") && "post" == lib.sanitizeTextField(StrVal(Field(form, "post_type"))) {
      if !req.canEdit {
        return false;
      }
    } else if Isset(form, "post_ID") {
      if !req.canEdit {
        return false;
      }
    } else {
      return false;
    }
    var quickEditPostType := FormPostType(form, lib);
    if Isset(form, "_inline_edit") && quickEditPostType != Some("post") {
      return false;
    }
    return true;
  }

  /** Writing the flag and, on a switch to 'no' of a synced post, the DELETE. */
  method WriteSendFlagData(s: Store, postId: int, req: SaveRequest, lib: Lib)
    modifies s`meta, s`requests
    ensures s.State() == WriteSendFlag(old(s.State()), old(s.Env()), postId, req, lib)
  {
    var form := req.form;
    var newFlag := "no";
    if Isset(form, "chiral_send_to_hub_checkbox") {
      newFlag := "yes";
    } else if Isset(form, "chiral_send_to_hub_quick_edit") {
      var quickEdit := lib.sanitizeTextField(StrVal(Field(form, "chiral_send_to_hub_quick_edit")));
      newFlag := if quickEdit == "yes" then "yes" else "no";
    }
    var current := MetaOf(s.meta, postId, SEND_FLAG_KEY);
    if current == PStr("") {
      current := PStr("yes");
    }
    var hubId := MetaOf(s.meta, postId, HUB_ID_KEY);
    s.meta := s.meta[(postId, SEND_FLAG_KEY) := PStr(newFlag)];
    if current != PStr("no") && newFlag == "no" && !Empty(hubId) {
      var settings := SettingsOf(s.options);
      var hubUrl := Setting(settings, "hub_url");
      if Truthy(hubUrl) && Truthy(Setting(settings, "hub_username")) && Truthy(Setting(settings, "hub_app_password")) {
        var _ := DeleteDataFromHub(s, hubId, StrVal(hubUrl));
      }
    }
  }

  /** save_chiral_send_metabox_data(). */
  method SaveChiralSendMetaboxData(s: Store, postId: int, req: SaveRequest, lib: Lib)
    modifies s`meta, s`requests
    ensures s.State() == SaveSendFlag(old(s.State()), old(s.Env()), postId, req, lib)
  {
    var ok := SaveGuardsPass(req, lib);
    if ok {
      WriteSendFlagData(s, postId, req, lib);
    }
  }

  // ------------------------------------------------------------------ the post-list column

  const SEND_COLUMN := "chiral_send_to_hub"
  const SEND_COLUMN_LABEL := "Send to Chiral?"

  /** A PHP array of column keys and titles, in order. */
  type Columns = seq<(string, string)>

  predicate HasKey(cols: Columns, key: string) {
    exists j | 0 <= j < |cols| :: cols[j].0 == key
  }

  /** The keys of a PHP array are distinct. */
  predicate UniqueKeys(cols: Columns) {
    forall a, b | 0 <= a < b < |cols| :: cols[a].0 != cols[b].0
  }

  /** `$cols[$key] = $value`: an existing key keeps its place, a new one goes last. */
  function Put(cols: Columns, key: string, value: string): Columns {
    if |cols| == 0 then [(key, value)]
    else if cols[0].0 == key then [(key, value)] + cols[1..]
    else [cols[0]] + Put(cols[1..], key, value)
  }

  /** The first loop of add_chiral_send_column(): every column, plus ours right after 'title'. */
  function CopyAddingAfterTitle(cols: Columns): Columns {
    if |cols| == 0 then []
    else
      var copied := Put(CopyAddingAfterTitle(cols[..|cols| - 1]), cols[|cols| - 1].0, cols[|cols| - 1].1);
      if cols[|cols| - 1].0 == "title" then Put(copied, SEND_COLUMN, SEND_COLUMN_LABEL) else copied
  }

  /** The second loop: every column, with ours right before 'date'. */
  function CopyAddingBeforeDate(cols: Columns): Columns {
    if |cols| == 0 then []
    else
      var before := CopyAddingBeforeDate(cols[..|cols| - 1]);
      var withOurs := if cols[|cols| - 1].0 == "date" then Put(before, SEND_COLUMN, SEND_COLUMN_LABEL) else before;
      Put(withOurs, cols[|cols| - 1].0, cols[|cols| - 1].1)
  }

  /** add_chiral_send_column(). */
  function AddSendColumn(cols: Columns): Columns {
    var afterTitle := CopyAddingAfterTitle(cols);
    if !HasKey(afterTitle, SEND_COLUMN) && HasKey(cols, "date") then CopyAddingBeforeDate(cols)
    else if !HasKey(afterTitle, SEND_COLUMN) then Put(afterTitle, SEND_COLUMN, SEND_COLUMN_LABEL)
    else afterTitle
  }

  lemma {:induction false} PutNew(cols: Columns, key: string, value: string)
    requires !HasKey(cols, key)
    ensures Put(cols, key, value) == cols + [(key, value)]
  {
    if |cols| > 0 {
      assert !HasKey(cols[1..], key) by {
        forall j | 0 <= j < |cols| - 1
          ensures cols[1..][j].0 != key
        {
          assert cols[j + 1].0 != key;
        }
      }
      PutNew(cols[1..], key, value);
      assert [cols[0]] + (cols[1..] + [(key, value)]) == cols + [(key, value)];
    }
  }

  /** The keys of a prefix of an array with distinct keys do not include the next key. */
  lemma NextKeyIsNew(cols: Columns, n: nat)
    requires UniqueKeys(cols) && n < |cols|
    ensures !HasKey(cols[..n], cols[n].0)
  {
    forall j | 0 <= j < n
      ensures cols[..n][j].0 != cols[n].0
    {
      assert cols[j].0 != cols[n].0;
    }
  }

  /** A key that is not in the array is in no prefix or suffix of it. */
  lemma NotInSlices(cols: Columns, key: string, a: nat, b: nat)
    requires !HasKey(cols, key) && a <= b <= |cols|
    ensures !HasKey(cols[a..b], key)
  {
    forall j | 0 <= j < b - a
      ensures cols[a..b][j].0 != key
    {
      assert cols[a + j].0 != key;
    }
  }

  /** Without a 'title' column, the first loop copies the prefix and nothing more. */
  lemma {:induction false} CopyWithoutTitle(cols: Columns, n: nat)
    requires UniqueKeys(cols) && !HasKey(cols, "title") && n <= |cols|
    ensures CopyAddingAfterTitle(cols[..n]) == cols[..n]
  {
    if n > 0 {
      CopyWithoutTitle(cols, n - 1);
      CopyAfterTitleStep(cols, n);
      NextKeyIsNew(cols, n - 1);
      PutNew(cols[..n - 1], cols[n - 1].0, cols[n - 1].1);
      assert cols[..n - 1] + [cols[n - 1]] == cols[..n];
      assert cols[n - 1].0 != "title";
    }
  }

  /** One step of the first loop. */
  lemma CopyAfterTitleStep(cols: Columns, n: nat)
    requires 0 < n <= |cols|
    ensures var copied := Put(CopyAddingAfterTitle(cols[..n - 1]), cols[n - 1].0, cols[n - 1].1);
      CopyAddingAfterTitle(cols[..n]) == if cols[n - 1].0 == "title" then Put(copied, SEND_COLUMN, SEND_COLUMN_LABEL) else copied
  {
    assert cols[..n][..n - 1] == cols[..n - 1];
  }

  /** One step of the second loop. */
  lemma CopyBeforeDateStep(cols: Columns, n: nat)
    requires 0 < n <= |cols|
    ensures var before := CopyAddingBeforeDate(cols[..n - 1]);
      CopyAddingBeforeDate(cols[..n]) ==
        Put(if cols[n - 1].0 == "date" then Put(before, SEND_COLUMN, SEND_COLUMN_LABEL) else before, cols[n - 1].0, cols[n - 1].1)
  {
    assert cols[..n][..n - 1] == cols[..n - 1];
  }

  /** Our column inserted at a into a prefix does not hold the next key. */
  lemma NextKeyIsNewAfterInsert(cols: Columns, a: nat, n: nat)
    requires UniqueKeys(cols) && !HasKey(cols, SEND_COLUMN) && a < n <= |cols|
    ensures !HasKey(cols[..a] + [(SEND_COLUMN, SEND_COLUMN_LABEL)] + cols[a..n - 1], cols[n - 1].0)
  {
    var prev := cols[..a] + [(SEND_COLUMN, SEND_COLUMN_LABEL)] + cols[a..n - 1];
    var k := cols[n - 1].0;
    forall b | 0 <= b < |prev|
      ensures prev[b].0 != k
    {
      if b < a {
        assert prev[b] == cols[b];
      } else if b > a {
        assert prev[b] == cols[b - 1];
      } else {
        assert cols[n - 1].0 != SEND_COLUMN;
      }
    }
  }

  /** The first loop at 'title' itself. */
  lemma TitleReached(cols: Columns, i: nat, n: nat)
    requires UniqueKeys(cols) && !HasKey(cols, SEND_COLUMN) && n == i + 1 <= |cols| && cols[i].0 == "title"
    ensures CopyAddingAfterTitle(cols[..n]) == cols[..i + 1] + [(SEND_COLUMN, SEND_COLUMN_LABEL)] + cols[i + 1..n]
  {
    CopyAfterTitleStep(cols, i + 1);
    NextKeyIsNew(cols, i);
    CopyUpTo(cols, i, i);
    PutNew(cols[..i], cols[i].0, cols[i].1);
    assert cols[..i] + [cols[i]] == cols[..i + 1];
    NotInSlices(cols, SEND_COLUMN, 0, i + 1);
    PutNew(cols[..i + 1], SEND_COLUMN, SEND_COLUMN_LABEL);
    assert cols[i + 1..n] == [];
  }

  /** The first loop past 'title', given that the next key is neither 'title' nor already copied. */
  lemma TitlePassed(cols: Columns, i: nat, n: nat)
    requires i + 1 < n <= |cols| && cols[n - 1].0 != "title"
    requires !HasKey(cols[..i + 1] + [(SEND_COLUMN, SEND_COLUMN_LABEL)] + cols[i + 1..n - 1], cols[n - 1].0)
    requires CopyAddingAfterTitle(cols[..n - 1]) == cols[..i + 1] + [(SEND_COLUMN, SEND_COLUMN_LABEL)] + cols[i + 1..n - 1]
    ensures CopyAddingAfterTitle(cols[..n]) == cols[..i + 1] + [(SEND_COLUMN, SEND_COLUMN_LABEL)] + cols[i + 1..n]
  {
    var prefix := cols[..i + 1] + [(SEND_COLUMN, SEND_COLUMN_LABEL)] + cols[i + 1..n - 1];
    CopyAfterTitleStep(cols, n);
    PutNew(prefix, cols[n - 1].0, cols[n - 1].1);
    InsertedExtends(cols, i + 1, n);
  }

  /** With 'title' at i, the first loop puts our column right after it. */
  lemma {:induction false} CopyWithTitle(cols: Columns, i: nat, n: nat)
    requires UniqueKeys(cols) && !HasKey(cols, SEND_COLUMN) && i < n <= |cols| && cols[i].0 == "title"
    ensures CopyAddingAfterTitle(cols[..n]) == cols[..i + 1] + [(SEND_COLUMN, SEND_COLUMN_LABEL)] + cols[i + 1..n]
  {
    if n == i + 1 {
      TitleReached(cols, i, n);
    } else {
      CopyWithTitle(cols, i, n - 1);
      assert cols[i].0 != cols[n - 1].0;
      NextKeyIsNewAfterInsert(cols, i + 1, n);
      TitlePassed(cols, i, n);
    }
  }

  /** Before 'title', the first loop copies the prefix. */
  lemma {:induction false} CopyUpTo(cols: Columns, i: nat, n: nat)
    requires UniqueKeys(cols) && n <= i < |cols| && cols[i].0 == "title"
    ensures CopyAddingAfterTitle(cols[..n]) == cols[..n]
  {
    if n > 0 {
      CopyUpTo(cols, i, n - 1);
      CopyAfterTitleStep(cols, n);
      NextKeyIsNew(cols, n - 1);
      PutNew(cols[..n - 1], cols[n - 1].0, cols[n - 1].1);
      assert cols[..n - 1] + [cols[n - 1]] == cols[..n];
      assert cols[n - 1].0 != cols[i].0;
    }
  }

  lemma PrefixLacksKey(cols: Columns, key: string, n: nat)
    requires 0 < n <= |cols| && !HasKey(cols[..n], key)
    ensures !HasKey(cols[..n - 1], key)
  {
    var front := cols[..n - 1];
    forall j | 0 <= j < |front|
      ensures front[j].0 != key
    {
      assert cols[..n][j].0 != key;
    }
  }

  /** Without 'date' in the prefix, the second loop copies it. */
  lemma {:induction false} CopyBeforeDate(cols: Columns, n: nat)
    requires UniqueKeys(cols) && n <= |cols| && !HasKey(cols[..n], "date")
    ensures CopyAddingBeforeDate(cols[..n]) == cols[..n]
  {
    if n > 0 {
      PrefixLacksKey(cols, "date", n);
      CopyBeforeDate(cols, n - 1);
      CopyBeforeDateStep(cols, n);
      assert cols[..n][n - 1].0 != "date";
      NextKeyIsNew(cols, n - 1);
      PutNew(cols[..n - 1], cols[n - 1].0, cols[n - 1].1);
      assert cols[..n - 1] + [cols[n - 1]] == cols[..n];
    }
  }

  /** The second loop at 'date' itself. */
  lemma DateReached(cols: Columns, j: nat, n: nat)
    requires UniqueKeys(cols) && !HasKey(cols, SEND_COLUMN) && n == j + 1 <= |cols| && cols[j].0 == "date"
    ensures CopyAddingBeforeDate(cols[..n]) == cols[..j] + [(SEND_COLUMN, SEND_COLUMN_LABEL)] + cols[j..n]
  {
    CopyBeforeDateStep(cols, j + 1);
    DateNotBefore(cols, j);
    CopyBeforeDate(cols, j);
    NotInSlices(cols, SEND_COLUMN, 0, j);
    PutNew(cols[..j], SEND_COLUMN, SEND_COLUMN_LABEL);
    NextKeyIsNewAfterInsert(cols, j, j + 1);
    assert cols[..j] + [(SEND_COLUMN, SEND_COLUMN_LABEL)] + cols[j..j] == cols[..j] + [(SEND_COLUMN, SEND_COLUMN_LABEL)];
    PutNew(cols[..j] + [(SEND_COLUMN, SEND_COLUMN_LABEL)], cols[j].0, cols[j].1);
    assert cols[j..j + 1] == [cols[j]];
  }

  lemma DateNotBefore(cols: Columns, j: nat)
    requires UniqueKeys(cols) && j < |cols| && cols[j].0 == "date"
    ensures !HasKey(cols[..j], "date")
  {
    forall a | 0 <= a < j
      ensures cols[..j][a].0 != "date"
    {
      assert cols[a].0 != cols[j].0;
    }
  }

  /** The second loop past 'date', given that the next key is neither 'date' nor already copied. */
  lemma DatePassed(cols: Columns, j: nat, n: nat)
    requires j + 1 < n <= |cols| && cols[n - 1].0 != "date"
    requires !HasKey(cols[..j] + [(SEND_COLUMN, SEND_COLUMN_LABEL)] + cols[j..n - 1], cols[n - 1].0)
    requires CopyAddingBeforeDate(cols[..n - 1]) == cols[..j] + [(SEND_COLUMN, SEND_COLUMN_LABEL)] + cols[j..n - 1]
    ensures CopyAddingBeforeDate(cols[..n]) == cols[..j] + [(SEND_COLUMN, SEND_COLUMN_LABEL)] + cols[j..n]
  {
    var prefix := cols[..j] + [(SEND_COLUMN, SEND_COLUMN_LABEL)] + cols[j..n - 1];
    CopyBeforeDateStep(cols, n);
    PutNew(prefix, cols[n - 1].0, cols[n - 1].1);
    InsertedExtends(cols, j, n);
  }

  /** Extending the copied prefix by the next column. */
  lemma InsertedExtends(cols: Columns, j: nat, n: nat)
    requires j < n <= |cols|
    ensures (cols[..j] + [(SEND_COLUMN, SEND_COLUMN_LABEL)] + cols[j..n - 1]) + [cols[n - 1]]
            == cols[..j] + [(SEND_COLUMN, SEND_COLUMN_LABEL)] + cols[j..n]
  {
    assert cols[j..n - 1] + [cols[n - 1]] == cols[j..n];
  }

  /** With 'date' at j, the second loop puts our column right before it. */
  lemma {:induction false} CopyWithDate(cols: Columns, j: nat, n: nat)
    requires UniqueKeys(cols) && !HasKey(cols, SEND_COLUMN) && j < n <= |cols| && cols[j].0 == "date"
    ensures CopyAddingBeforeDate(cols[..n]) == cols[..j] + [(SEND_COLUMN, SEND_COLUMN_LABEL)] + cols[j..n]
  {
    if n == j + 1 {
      DateReached(cols, j, n);
    } else {
      CopyWithDate(cols, j, n - 1);
      DateStep(cols, j, n);
    }
  }

  /** One turn of the second loop past 'date' in an array with distinct keys. */
  lemma DateStep(cols: Columns, j: nat, n: nat)
    requires UniqueKeys(cols) && !HasKey(cols, SEND_COLUMN) && j + 1 < n <= |cols| && cols[j].0 == "date"
    requires CopyAddingBeforeDate(cols[..n - 1]) == cols[..j] + [(SEND_COLUMN, SEND_COLUMN_LABEL)] + cols[j..n - 1]
    ensures CopyAddingBeforeDate(cols[..n]) == cols[..j] + [(SEND_COLUMN, SEND_COLUMN_LABEL)] + cols[j..n]
  {
    assert cols[j].0 != cols[n - 1].0;
    NextKeyIsNewAfterInsert(cols, j, n);
    DatePassed(cols, j, n);
  }

  /**
   * With 'title' at i, the new column comes right after it; every original
   * column stays once and in order.
   */
  lemma SendColumnAfterTitle(cols: Columns, i: nat)
    requires UniqueKeys(cols) && !HasKey(cols, SEND_COLUMN) && i < |cols| && cols[i].0 == "title"
    ensures AddSendColumn(cols) == cols[..i + 1] + [(SEND_COLUMN, SEND_COLUMN_LABEL)] + cols[i + 1..]
  {
    CopyWithTitle(cols, i, |cols|);
    assert cols[..|cols|] == cols;
    var r := cols[..i + 1] + [(SEND_COLUMN, SEND_COLUMN_LABEL)] + cols[i + 1..];
    assert r[i + 1].0 == SEND_COLUMN;
  }

  /** Without 'title' but with 'date' at j, the new column comes right before 'date'. */
  lemma SendColumnBeforeDate(cols: Columns, j: nat)
    requires UniqueKeys(cols) && !HasKey(cols, SEND_COLUMN) && !HasKey(cols, "title")
    requires j < |cols| && cols[j].0 == "date"
    ensures AddSendColumn(cols) == cols[..j] + [(SEND_COLUMN, SEND_COLUMN_LABEL)] + cols[j..]
  {
    CopyWithoutTitle(cols, |cols|);
    CopyWithDate(cols, j, |cols|);
    assert cols[..|cols|] == cols;
    assert cols[j..|cols|] == cols[j..];
  }

  /** Without 'title' or 'date', the new column comes last. */
  lemma SendColumnLast(cols: Columns)
    requires UniqueKeys(cols) && !HasKey(cols, SEND_COLUMN) && !HasKey(cols, "title") && !HasKey(cols, "date")
    ensures AddSendColumn(cols) == cols + [(SEND_COLUMN, SEND_COLUMN_LABEL)]
  {
    CopyWithoutTitle(cols, |cols|);
    assert cols[..|cols|] == cols;
    PutNew(cols, SEND_COLUMN, SEND_COLUMN_LABEL);
  }

  /** add_chiral_send_column(). */
  method AddChiralSendColumn(columns: Columns) returns (newColumns: Columns)
    ensures newColumns == AddSendColumn(columns)
  {
    newColumns := [];
    var i := 0;
    while i < |columns|
      invariant 0 <= i <= |columns|
      invariant newColumns == CopyAddingAfterTitle(columns[..i])
    {
      assert columns[..i + 1][..i] == columns[..i];
      newColumns := Put(newColumns, columns[i].0, columns[i].1);
      if columns[i].0 == "title" {
        newColumns := Put(newColumns, SEND_COLUMN, SEND_COLUMN_LABEL);
      }
      i := i + 1;
    }
    assert columns[..i] == columns;
    if !HasKey(newColumns, SEND_COLUMN) && HasKey(columns, "date") {
      newColumns := [];
      i := 0;
      while i < |columns|
        invariant 0 <= i <= |columns|
        invariant newColumns == CopyAddingBeforeDate(columns[..i])
      {
        assert columns[..i + 1][..i] == columns[..i];
        if columns[i].0 == "date" {
          newColumns := Put(newColumns, SEND_COLUMN, SEND_COLUMN_LABEL);
        }
        newColumns := Put(newColumns, columns[i].0, columns[i].1);
        i := i + 1;
      }
      assert columns[..i] == columns;
    } else if !HasKey(newColumns, SEND_COLUMN) {
      newColumns := Put(newColumns, SEND_COLUMN, SEND_COLUMN_LABEL);
    }
  }

  /** The column's status: 'no' exactly when the flag is stored as 'no'. */
  function ColumnStatus(meta: map<(int, string), PhpValue>, postId: int): (r: string)
    ensures r == "no" || r == "yes"
    ensures r == "no" <==> MetaOf(meta, postId, SEND_FLAG_KEY) == PStr("no")
  {
    if MetaOf(meta, postId, SEND_FLAG_KEY) == PStr("no") then "no" else "yes"
  }

  /** The column shows 'yes' exactly when the flag lets sync_post_to_hub() send the post. */
  lemma ColumnMatchesSyncFlag(st: SyncState, env: SyncEnv, postId: int)
    requires !env.hubMode && postId in env.posts && NodeCredentials(env.settings)
    ensures ColumnStatus(st.meta, postId) == "yes" <==> SyncEligible(st, env, postId)
  {
  }

  /**
   * render_chiral_send_column_content(): nothing for the other columns; for
   * ours a span that ends in "No" exactly when the flag is stored as 'no'.
   */
  function RenderSendColumn(columnName: string, meta: map<(int, string), PhpValue>, postId: int, lib: Lib): (r: string)
    ensures columnName != SEND_COLUMN ==> r == ""
    ensures columnName == SEND_COLUMN ==> "<span data-chiral-send-status=\"" <= r
    ensures columnName == SEND_COLUMN && MetaOf(meta, postId, SEND_FLAG_KEY) == PStr("no") ==>
      |r| >= 11 && r[|r| - 11..] == "\">No</span>"
    ensures columnName == SEND_COLUMN && MetaOf(meta, postId, SEND_FLAG_KEY) != PStr("no") ==>
      |r| >= 12 && r[|r| - 12..] == "\">Yes</span>"
  {
    if columnName != SEND_COLUMN then ""
    else
      var status := ColumnStatus(meta, postId);
      var word := if status == "no" then "No" else "Yes";
      StatusSpanShape(lib.escAttr(status), word);
      StatusTails();
      StatusSpan(lib.escAttr(status), word)
  }

  /** The two endings, spelled out. */
  lemma StatusTails()
    ensures "\">" + "No" + "</span>" == "\">No</span>" && "\">" + "Yes" + "</span>" == "\">Yes</span>"
  {
  }

  /** The span the column shows. */
  function StatusSpan(attr: string, word: string): string {
    "<span data-chiral-send-status=\"" + attr + "\">" + word + "</span>"
  }

  /** The span starts with its tag and ends with its word and the closing tag, whatever the attribute. */
  lemma StatusSpanShape(attr: string, word: string)
    ensures var r := StatusSpan(attr, word);
      && "<span data-chiral-send-status=\"" <= r
      && |r| >= |word| + 9 && r[|r| - (|word| + 9)..] == "\">" + word + "</span>"
  {
    var front := "<span data-chiral-send-status=\"" + attr;
    var tail := "\">" + word + "</span>";
    var r := StatusSpan(attr, word);
    assert r == front + tail;
    assert r[|front|..] == tail;
  }

  // ------------------------------------------------------------------ triggering a batch sync

  datatype TriggerOutcome = HubModeRefused | AlreadyRunning | ScheduleFailed | Scheduled

  /** `get_transient('chiral_connector_batch_sync_running')` is truthy. */
  predicate BatchLocked(options: map<string, PhpValue>, now: int) {
    GetTransient(options, BATCH_LOCK, now).Some? && Truthy(GetTransient(options, BATCH_LOCK, now).value)
  }

  datatype Triggered = Triggered(outcome: TriggerOutcome, options: map<string, PhpValue>, events: set<CronEvent>)

  /**
   * ajax_trigger_batch_sync(): take the lock for an hour and schedule the
   * batch event; give the lock back when scheduling fails.
   */
  function TriggerBatch(options: map<string, PhpValue>, events: set<CronEvent>, hubMode: bool, now: int, scheduled: bool)
    : Triggered
  {
    if hubMode then Triggered(HubModeRefused, options, events)
    else if BatchLocked(options, now) then Triggered(AlreadyRunning, options, events)
    else
      var locked := SetTransient(options, BATCH_LOCK, PBool(true), HOUR_IN_SECONDS, now);
      if !scheduled then Triggered(ScheduleFailed, DeleteTransient(locked, BATCH_LOCK), events)
      else Triggered(Scheduled, locked, events + {BatchSync})
  }

  /**
   * The trigger refuses exactly while the lock is held (or in Hub mode) and
   * then changes nothing; a successful trigger holds the lock for the next
   * hour and puts the batch event on the schedule; a failed schedule leaves
   * the options as they were apart from the lock rows, and no lock.
   */
  lemma TriggerBehaviour(options: map<string, PhpValue>, events: set<CronEvent>, hubMode: bool, now: int, scheduled: bool)
    ensures var t := TriggerBatch(options, events, hubMode, now, scheduled);
      && (t.outcome.HubModeRefused? <==> hubMode)
      && (t.outcome.AlreadyRunning? <==> !hubMode && BatchLocked(options, now))
      && (t.outcome.HubModeRefused? || t.outcome.AlreadyRunning? ==> t.options == options && t.events == events)
      && (t.outcome.Scheduled? ==>
            t.events == events + {BatchSync} && forall later | now <= later <= now + HOUR_IN_SECONDS :: BatchLocked(t.options, later))
      && (t.outcome.ScheduleFailed? ==>
            t.events == events && t.options == DeleteTransient(options, BATCH_LOCK) && forall later :: !BatchLocked(t.options, later))
  {
    if !hubMode && !BatchLocked(options, now) {
      var locked := SetTransient(options, BATCH_LOCK, PBool(true), HOUR_IN_SECONDS, now);
      assert DeleteTransient(locked, BATCH_LOCK) == DeleteTransient(options, BATCH_LOCK);
    }
  }

  /** A second trigger within the hour is refused. */
  lemma SecondTriggerRefused(options: map<string, PhpValue>, events: set<CronEvent>, now: int, later: int, scheduled: bool)
    requires TriggerBatch(options, events, false, now, true).outcome.Scheduled?
    requires now <= later <= now + HOUR_IN_SECONDS
    ensures var t := TriggerBatch(options, events, false, now, true);
      TriggerBatch(t.options, t.events, false, later, scheduled).outcome == AlreadyRunning
  {
    TriggerBehaviour(options, events, false, now, true);
  }

  /** Once batch_sync_posts() has deleted the lock, the trigger works again. */
  lemma BatchEndReopensTrigger(options: map<string, PhpValue>, events: set<CronEvent>, now: int)
    ensures TriggerBatch(DeleteTransient(options, BATCH_LOCK), events, false, now, true).outcome == Scheduled
  {
  }

  /** ajax_trigger_batch_sync(); `scheduled` is what wp_schedule_single_event() returns. */
  method TriggerBatchSync(s: Store, now: int, scheduled: bool) returns (r: TriggerOutcome)
    modifies s`options, s`events
    ensures Triggered(r, s.options, s.events) == TriggerBatch(old(s.options), old(s.events), s.hubMode, now, scheduled)
  {
    if s.hubMode {
      return HubModeRefused;
    }
    var running := GetTransient(s.options, BATCH_LOCK, now);
    if running.Some? && Truthy(running.value) {
      return AlreadyRunning;
    }
    s.options := SetTransient(s.options, BATCH_LOCK, PBool(true), HOUR_IN_SECONDS, now);
    if !scheduled {
      s.options := DeleteTransient(s.options, BATCH_LOCK);
      return ScheduleFailed;
    }
    s.events := s.events + {BatchSync};
    r := Scheduled;
  }

  // ------------------------------------------------------------------ quitting the network

  /** The four fields quitting needs, each under the name the error message uses and its settings key. */
  const QUIT_FIELDS: seq<(string, string)> := [("hub_url", "hub_url"), ("username", "hub_username"),
                                              ("app_password", "hub_app_password"), ("hub_user_id", "hub_user_id")]

  /** The names of the fields that are empty, in the fixed order. */
  function MissingFields(settings: PhpValue): (r: seq<string>)
    ensures |r| <= 4
  {
    (if Empty(Field(settings, "hub_url")) then ["hub_url"] else [])
    + (if Empty(Field(settings, "hub_username")) then ["username"] else [])
    + (if Empty(Field(settings, "hub_app_password")) then ["app_password"] else [])
    + (if Empty(Field(settings, "hub_user_id")) then ["hub_user_id"] else [])
  }

  /** No field is listed exactly when all four are set. */
  lemma NoneMissing(settings: PhpValue)
    ensures MissingFields(settings) == [] <==>
      !Empty(Field(settings, "hub_url")) && !Empty(Field(settings, "hub_username"))
      && !Empty(Field(settings, "hub_app_password")) && !Empty(Field(settings, "hub_user_id"))
  {
  }

  /** Where a field name stands in the fixed order. */
  function QuitFieldRank(name: string): nat {
    if name == "hub_url" then 0 else if name == "username" then 1 else if name == "app_password" then 2 else 3
  }

  /** A field is listed exactly when it is empty, and the list keeps the fixed order. */
  lemma MissingFieldsListed(settings: PhpValue)
    ensures var r := MissingFields(settings);
      && (forall i | 0 <= i < |QUIT_FIELDS| :: QUIT_FIELDS[i].0 in r <==> Empty(Field(settings, QUIT_FIELDS[i].1)))
      && (forall name | name in r :: exists i | 0 <= i < |QUIT_FIELDS| :: QUIT_FIELDS[i].0 == name)
      && (forall a, b | 0 <= a < b < |r| :: QuitFieldRank(r[a]) < QuitFieldRank(r[b]))
      && (r == [] <==> forall i | 0 <= i < |QUIT_FIELDS| :: !Empty(Field(settings, QUIT_FIELDS[i].1)))
  {
    var r := MissingFields(settings);
    assert QUIT_FIELDS[0].1 == "hub_url" && QUIT_FIELDS[1].1 == "hub_username";
    assert QUIT_FIELDS[2].1 == "hub_app_password" && QUIT_FIELDS[3].1 == "hub_user_id";
    if r == [] {
      forall i | 0 <= i < |QUIT_FIELDS|
        ensures !Empty(Field(settings, QUIT_FIELDS[i].1))
      {
        assert i == 0 || i == 1 || i == 2 || i == 3;
      }
    }
    forall name | name in r
      ensures exists i | 0 <= i < |QUIT_FIELDS| :: QUIT_FIELDS[i].0 == name
    {
      if name == "hub_url" { assert QUIT_FIELDS[0].0 == name; }
      else if name == "username" { assert QUIT_FIELDS[1].0 == name; }
      else if name == "app_password" { assert QUIT_FIELDS[2].0 == name; }
      else { assert QUIT_FIELDS[3].0 == name; }
    }
  }

  /** What deleting each of the node's items from the Hub came to. */
  datatype Deletions = Deletions(deleted: nat, errors: nat, failures: seq<(PhpValue, WpError)>)

  /** The tally of the delete loop over `ids`, whose replies start at the n-th request. */
  function DeleteAll(hub: nat -> HttpReply, n: nat, ids: seq<PhpValue>): Deletions {
    if |ids| == 0 then Deletions(0, 0, [])
    else
      var d := DeleteAll(hub, n, ids[..|ids| - 1]);
      var outcome := DeleteOutcome(hub(n + |ids| - 1));
      if outcome.Err? then d.(errors := d.errors + 1, failures := d.failures + [(ids[|ids| - 1], outcome.error)])
      else d.(deleted := d.deleted + 1)
  }

  /** One DELETE per ID, in order. */
  function DeleteRequests(hubUrl: string, ids: seq<PhpValue>): (r: seq<Request>)
    ensures |r| == |ids|
  {
    if |ids| == 0 then [] else DeleteRequests(hubUrl, ids[..|ids| - 1]) + [DeletePost(DeleteEndpoint(hubUrl, ids[|ids| - 1]))]
  }

  /** Every DELETE among the m from the n-th on succeeded. */
  predicate AllDeleted(hub: nat -> HttpReply, n: nat, m: nat) {
    forall k: nat | n <= k < n + m :: DeleteOutcome(hub(k)).Ok?
  }

  /**
   * Every ID is counted once, as deleted or as an error; each error is
   * listed with its ID, and there are no errors exactly when every DELETE
   * succeeded.
   */
  lemma {:induction false} DeletionsAddUp(hub: nat -> HttpReply, n: nat, ids: seq<PhpValue>)
    ensures var d := DeleteAll(hub, n, ids);
      && d.deleted + d.errors == |ids|
      && |d.failures| == d.errors
      && (forall f | f in d.failures :: f.0 in ids)
      && (AllDeleted(hub, n, |ids|) <==> d.errors == 0)
  {
    if |ids| > 0 {
      var front := ids[..|ids| - 1];
      DeletionsAddUp(hub, n, front);
      var d := DeleteAll(hub, n, front);
      forall f | f in d.failures
        ensures f.0 in ids
      {
        assert f.0 in front;
        var k :| 0 <= k < |front| && front[k] == f.0;
        assert ids[k] == f.0;
      }
      if AllDeleted(hub, n, |ids|) {
        assert AllDeleted(hub, n, |front|);
        assert DeleteOutcome(hub(n + |ids| - 1)).Ok?;
      } else if d.errors == 0 {
        assert AllDeleted(hub, n, |front|);
        var k: nat :| n <= k < n + |ids| && !DeleteOutcome(hub(k)).Ok?;
        assert k == n + |ids| - 1;
      }
    }
  }

  datatype QuitOutcome =
    | NoSettings
    | Incomplete(missing: seq<string>)
    | ListFailed(error: WpError)
    | Quit(deletions: Deletions)

  /** One pass of the delete loop. */
  method DeleteOneItem(s: Store, hubUrl: string, ids: seq<PhpValue>, i: nat, d: Deletions, ghost base: seq<Request>)
    returns (d': Deletions)
    requires i < |ids| && s.requests == base + DeleteRequests(hubUrl, ids[..i])
    requires d == DeleteAll(s.hub, |base|, ids[..i])
    modifies s`requests
    ensures s.requests == base + DeleteRequests(hubUrl, ids[..i + 1])
    ensures d' == DeleteAll(s.hub, |base|, ids[..i + 1])
  {
    assert ids[..i + 1][..i] == ids[..i];
    var result := DeleteDataFromHub(s, ids[i], hubUrl);
    if result.Err? {
      d' := d.(errors := d.errors + 1, failures := d.failures + [(ids[i], result.error)]);
    } else {
      d' := d.(deleted := d.deleted + 1);
    }
  }

  /** The delete loop of ajax_quit_network(): one DELETE per ID, counting successes and failures. */
  method DeleteNodeData(s: Store, hubUrl: string, ids: seq<PhpValue>) returns (d: Deletions)
    modifies s`requests
    ensures s.requests == old(s.requests) + DeleteRequests(hubUrl, ids)
    ensures d == DeleteAll(s.hub, |old(s.requests)|, ids)
  {
    d := Deletions(0, 0, []);
    var i := 0;
    while i < |ids|
      invariant 0 <= i <= |ids|
      invariant s.requests == old(s.requests) + DeleteRequests(hubUrl, ids[..i])
      invariant d == DeleteAll(s.hub, |old(s.requests)|, ids[..i])
    {
      d := DeleteOneItem(s, hubUrl, ids, i, d, old(s.requests));
      i := i + 1;
    }
    assert ids[..i] == ids;
  }

  /** What deleting the listed items adds to the request log: nothing when the listing failed. */
  function QuitDeletes(hubUrl: string, listing: Result<seq<PhpValue>>): seq<Request> {
    if listing.Ok? then DeleteRequests(hubUrl, listing.value) else []
  }

  /** Deleting the listed items, then clearing the local data whatever the deletions came to. */
  method DeleteAndClear(s: Store, hubUrl: string, ids: seq<PhpValue>) returns (d: Deletions)
    modifies s`options, s`events, s`requests
    ensures s.requests == old(s.requests) + DeleteRequests(hubUrl, ids)
    ensures d == DeleteAll(s.hub, |old(s.requests)|, ids)
    ensures s.options == ClearedOptions(old(s.options))
    ensures s.events == old(s.events) - {RetryFailedSyncs}
  {
    d := DeleteNodeData(s, hubUrl, ids);
    ClearAllPluginData(s);
  }

  /** Where the quit ends once the listing is known: its outcome, and the options and events it leaves. */
  ghost predicate QuitEffect(listing: Result<seq<PhpValue>>, r: QuitOutcome, hub: nat -> HttpReply, n: nat,
                             options0: map<string, PhpValue>, events0: set<CronEvent>,
                             options: map<string, PhpValue>, events: set<CronEvent>)
  {
    && (listing.Err? ==> r == ListFailed(listing.error) && options == options0 && events == events0)
    && (listing.Ok? ==>
          && r == Quit(DeleteAll(hub, n, listing.value))
          && options == ClearedOptions(options0)
          && events == events0 - {RetryFailedSyncs})
  }

  /** What follows the listing: stop on an error, otherwise delete the items and clear the local data. */
  method QuitListed(s: Store, hubUrl: string, listing: Result<seq<PhpValue>>, ghost n: nat) returns (r: QuitOutcome)
    requires n == |s.requests|
    modifies s`options, s`events, s`requests
    ensures s.requests == old(s.requests) + QuitDeletes(hubUrl, listing)
    ensures QuitEffect(listing, r, s.hub, n, old(s.options), old(s.events), s.options, s.events)
  {
    if listing.Err? {
      return ListFailed(listing.error);
    }
    var deletions := DeleteAndClear(s, hubUrl, listing.value);
    r := Quit(deletions);
  }

  /** The part of ajax_quit_network() after the settings checks; `listing` is what the Hub's pages add up to. */
  method QuitConnected(s: Store, hubUrl: string, userId: PhpValue)
    returns (r: QuitOutcome, ghost pages: nat, ghost listing: Result<seq<PhpValue>>)
    requires exists k: nat | k >= |s.requests| :: EndsListing(s.hub(k))
    requires !Empty(userId)
    modifies s`options, s`events, s`requests
    ensures ListedPages(s.hub, |old(s.requests)|, pages)
    ensures listing == ListingResult(Replies(s.hub, |old(s.requests)|, pages))
    ensures s.requests == old(s.requests) + ListingRequests(RTrimSlash(hubUrl) + CHIRAL_DATA_PATH, userId, pages)
                          + QuitDeletes(hubUrl, listing)
    ensures QuitEffect(listing, r, s.hub, |old(s.requests)| + pages, old(s.options), old(s.events), s.options, s.events)
  {
    var ids;
    ids, pages := GetAllNodeDataIds(s, hubUrl, userId);
    listing := ids;
    r := QuitListed(s, hubUrl, ids, |old(s.requests)| + pages);
  }

  /**
   * The checks ajax_quit_network() makes before it contacts the Hub: the
   * outcome that stops it, or None when it goes on.
   */
  function QuitPreflight(settings: PhpValue): (r: Option<QuitOutcome>)
    ensures r == Some(NoSettings) <==> !Truthy(settings)
    ensures r.Some? && Truthy(settings) ==> MissingFields(settings) != [] && r.value == Incomplete(MissingFields(settings))
    ensures r.None? <==> Truthy(settings) && MissingFields(settings) == []
    ensures r.None? ==> !Empty(Field(settings, "hub_user_id"))
  {
    NoneMissing(settings);
    if !Truthy(settings) then Some(NoSettings)
    else if Empty(Field(settings, "hub_url")) || Empty(Field(settings, "hub_username"))
            || Empty(Field(settings, "hub_app_password")) || Empty(Field(settings, "hub_user_id"))
    then Some(Incomplete(MissingFields(settings)))
    else None
  }

  /**
   * ajax_quit_network(): with complete settings, list the node's items on
   * the Hub, delete each, and clear the local data whatever the deletions
   * came to. A failed listing stops before anything is deleted. Without
   * settings, or with some of the four fields empty, nothing happens.
   */
  method QuitNetwork(s: Store) returns (r: QuitOutcome, ghost pages: nat, ghost listing: Result<seq<PhpValue>>)
    requires exists k: nat | k >= |s.requests| :: EndsListing(s.hub(k))
    modifies s`options, s`events, s`requests
    ensures QuitPreflight(SettingsOf(old(s.options))).Some? ==>
      r == QuitPreflight(SettingsOf(old(s.options))).value
      && s.options == old(s.options) && s.events == old(s.events) && s.requests == old(s.requests)
    ensures QuitPreflight(SettingsOf(old(s.options))).None? ==>
      && ListedPages(s.hub, |old(s.requests)|, pages)
      && listing == ListingResult(Replies(s.hub, |old(s.requests)|, pages))
      && s.requests == old(s.requests)
           + ListingRequests(RTrimSlash(StrVal(Field(SettingsOf(old(s.options)), "hub_url"))) + CHIRAL_DATA_PATH,
                             Field(SettingsOf(old(s.options)), "hub_user_id"), pages)
           + QuitDeletes(StrVal(Field(SettingsOf(old(s.options)), "hub_url")), listing)
      && QuitEffect(listing, r, s.hub, |old(s.requests)| + pages, old(s.options), old(s.events), s.options, s.events)
  {
    pages, listing := 0, Ok([]);
    var settings := SettingsOf(s.options);
    var stop := QuitPreflight(settings);
    if stop.Some? {
      return stop.value, pages, listing;
    }
    r, pages, listing := QuitConnected(s, StrVal(Field(settings, "hub_url")), Field(settings, "hub_user_id"));
  }
}
