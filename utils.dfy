/**
 * Chiral_Connector_Utils: the gate and the format of debug log lines,
 * reading one plugin setting, and the node ID generated from the site URL.
 */
module Utils {
  import opened Php
  import opened Wp

  const NODE_ID_PREFIX := "node_"
  const LOG_TAG := " - Chiral Connector] "

  /**
   * get_setting(): with no key, the whole settings record (false when the
   * option is absent); with a key, its value when set, else the default.
   */
  function GetSetting(options: map<string, PhpValue>, key: Option<string>, default: PhpValue): (r: PhpValue)
    ensures key.None? ==> r == SettingsOf(options)
    ensures key.Some? && Isset(SettingsOf(options), key.value) ==> r == Field(SettingsOf(options), key.value)
    ensures key.Some? && !Isset(SettingsOf(options), key.value) ==> r == default
  {
    if key.None? then SettingsOf(options) else FieldOr(SettingsOf(options), key.value, default)
  }

  /**
   * log_message()'s gate: the enable_debug_logging setting is strictly true,
   * or it is not set and WP_DEBUG is defined as true.
   */
  predicate LogEnabled(options: map<string, PhpValue>, wpDebug: bool) {
    var enabled := GetSetting(options, Some("enable_debug_logging"), PNull);
    enabled == PBool(true) || (enabled == PNull && wpDebug)
  }

  /** The line log_message() hands to error_log(), if any. */
  function LogMessage(options: map<string, PhpValue>, wpDebug: bool, level: string, message: string): (r: Option<string>)
    ensures r.Some? <==> LogEnabled(options, wpDebug)
  {
    if LogEnabled(options, wpDebug) then Some("[" + Upper(level) + LOG_TAG + message) else None
  }

  /**
   * An explicit false (or any other set value that is not true) silences the
   * log even under WP_DEBUG; an unset value defers to WP_DEBUG.
   */
  lemma LogGate(options: map<string, PhpValue>, wpDebug: bool, level: string, message: string)
    ensures Isset(SettingsOf(options), "enable_debug_logging") ==>
      (LogMessage(options, wpDebug, level, message).Some? <==> Field(SettingsOf(options), "enable_debug_logging") == PBool(true))
    ensures !Isset(SettingsOf(options), "enable_debug_logging") ==> (LogMessage(options, wpDebug, level, message).Some? <==> wpDebug)
  {
  }

  /**
   * An emitted line reads `[`, the level with its ASCII letters upper-cased,
   * the plugin tag, then the message unchanged.
   */
  lemma LogLineFormat(options: map<string, PhpValue>, wpDebug: bool, level: string, message: string)
    requires LogEnabled(options, wpDebug)
    ensures var line := LogMessage(options, wpDebug, level, message).value;
      && |line| == 1 + |level| + |LOG_TAG| + |message|
      && line[0] == '['
      && line[1..1 + |level|] == Upper(level)
      && (forall i | 1 <= i <= |level| :: !('a' <= line[i] <= 'z'))
      && line[1 + |level|..1 + |level| + |LOG_TAG|] == LOG_TAG
      && line[1 + |level| + |LOG_TAG|..] == message
  {
    var line := LogMessage(options, wpDebug, level, message).value;
    var up := Upper(level);
    assert line == "[" + up + LOG_TAG + message;
    assert line[1..1 + |level|] == up;
    forall i | 1 <= i <= |level|
      ensures !('a' <= line[i] <= 'z')
    {
      assert line[i] == up[i - 1];
    }
  }

  /** generate_node_id_from_url(): 'node_' followed by the MD5 of the site URL. */
  function GenerateNodeId(lib: Lib): (r: string)
    ensures |r| >= |NODE_ID_PREFIX| && r[..|NODE_ID_PREFIX|] == NODE_ID_PREFIX && r[|NODE_ID_PREFIX|..] == lib.md5(lib.siteUrl)
    ensures !Empty(PStr(r))
  {
    NODE_ID_PREFIX + lib.md5(lib.siteUrl)
  }
}
