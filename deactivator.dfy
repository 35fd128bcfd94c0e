/**
 * Chiral_Connector_Deactivator: deactivation unschedules the hourly retry
 * event; the full clean-up also deletes the plugin's options and every
 * cached related-posts transient, which it selects with SQL LIKE.
 */
module Deactivator {
  import opened Php
  import opened Wp

  const CACHE_VALUE_PATTERN := "_transient_chiral_related_cache_%"
  const CACHE_TIMEOUT_PATTERN := "_transient_timeout_chiral_related_cache_%"

  // ------------------------------------------------------------------ SQL LIKE

  /** ASCII letters compared without case, as MySQL's default collations compare them. */
  function FoldCase(c: char): char {
    if 'A' <= c <= 'Z' then c - 'A' + 'a' else c
  }

  /**
   * `s LIKE p` without an escape character: `%` matches any run of
   * characters, `_` any one character, every other character itself up to
   * ASCII case.
   */
  predicate Like(s: string, p: string)
    decreases |p| + |s|
  {
    if |p| == 0 then |s| == 0
    else if p[0] == '%' then Like(s, p[1..]) || (|s| > 0 && Like(s[1..], p))
    else |s| > 0 && (p[0] == '_' || FoldCase(s[0]) == FoldCase(p[0])) && Like(s[1..], p[1..])
  }

  /** `s` agrees with the wildcard-free pattern `p` position by position. */
  predicate CharsMatch(s: string, p: string)
    requires |s| == |p|
  {
    forall i | 0 <= i < |p| :: p[i] == '_' || FoldCase(s[i]) == FoldCase(p[i])
  }

  lemma LikeTrailingPercent(rest: string)
    ensures Like(rest, "%")
    decreases |rest|
  {
    if |rest| > 0 {
      LikeTrailingPercent(rest[1..]);
    }
  }

  /** A pattern without `%` followed by `%` matches every string whose head agrees with it. */
  lemma {:induction false} LikeHead(head: string, rest: string, p: string)
    requires |head| == |p| && '%' !in p && CharsMatch(head, p)
    ensures Like(head + rest, p + "%")
    decreases |p|
  {
    if |p| == 0 {
      assert head + rest == rest;
      assert p + "%" == "%";
      LikeTrailingPercent(rest);
    } else {
      assert (head + rest)[1..] == head[1..] + rest;
      assert (p + "%")[1..] == p[1..] + "%";
      assert CharsMatch(head[1..], p[1..]) by {
        forall i | 0 <= i < |p| - 1
          ensures p[1..][i] == '_' || FoldCase(head[1..][i]) == FoldCase(p[1..][i])
        {
          assert p[1..][i] == p[i + 1];
        }
      }
      LikeHead(head[1..], rest, p[1..]);
    }
  }

  /** A string that the `%`-free pattern `p` followed by `%` does not match: it differs at position i. */
  lemma {:induction false} LikeMismatch(s: string, p: string, i: nat)
    requires '%' !in p && i < |p| && p[i] != '_'
    requires i < |s| ==> FoldCase(s[i]) != FoldCase(p[i])
    ensures !Like(s, p + "%")
    decreases i
  {
    if |s| > 0 && i > 0 {
      assert (p + "%")[1..] == p[1..] + "%";
      assert p[0] in p;
      LikeMismatch(s[1..], p[1..], i - 1);
    }
  }

  // ------------------------------------------------------------------ clean-up

  /** The rows the clean-up's DELETE ... WHERE option_name LIKE ... OR option_name LIKE ... selects. */
  predicate CacheRow(name: string) {
    Like(name, CACHE_VALUE_PATTERN) || Like(name, CACHE_TIMEOUT_PATTERN)
  }

  /** The option rows clear_all_plugin_data() deletes. */
  predicate Cleared(name: string) {
    name == SETTINGS_OPTION || name == FAILED_QUEUE_OPTION || CacheRow(name)
  }

  /** The options table after clear_all_plugin_data(): every row it deletes is gone, every other row is kept. */
  function ClearedOptions(options: map<string, PhpValue>): map<string, PhpValue> {
    map name | name in options && !Cleared(name) :: options[name]
  }

  /** A `%`-free prefix followed by `%` matches every string that starts with that prefix. */
  lemma PrefixMatches(prefix: string, suffix: string)
    requires '%' !in prefix
    ensures Like(prefix + suffix, prefix + "%")
  {
    assert CharsMatch(prefix, prefix);
    LikeHead(prefix, suffix, prefix);
  }

  /** A cached related-posts value row matches the first pattern. */
  lemma CacheValueRowMatches(suffix: string)
    ensures Like(TransientRow(RELATED_CACHE_PREFIX + suffix), CACHE_VALUE_PATTERN)
  {
    var p := TRANSIENT_PREFIX + RELATED_CACHE_PREFIX;
    assert CACHE_VALUE_PATTERN == p + "%";
    assert TransientRow(RELATED_CACHE_PREFIX + suffix) == p + suffix;
    PrefixMatches(p, suffix);
  }

  /** Its timeout row matches the second. */
  lemma CacheTimeoutRowMatches(suffix: string)
    ensures Like(TimeoutRow(RELATED_CACHE_PREFIX + suffix), CACHE_TIMEOUT_PATTERN)
  {
    var p := TRANSIENT_TIMEOUT_PREFIX + RELATED_CACHE_PREFIX;
    assert CACHE_TIMEOUT_PATTERN == p + "%";
    assert TimeoutRow(RELATED_CACHE_PREFIX + suffix) == p + suffix;
    PrefixMatches(p, suffix);
  }

  /** Both rows of every cached related-posts entry match the clean-up's patterns. */
  lemma CacheRowsMatch(suffix: string)
    ensures Like(TransientRow(RELATED_CACHE_PREFIX + suffix), CACHE_VALUE_PATTERN)
    ensures Like(TimeoutRow(RELATED_CACHE_PREFIX + suffix), CACHE_TIMEOUT_PATTERN)
  {
    CacheValueRowMatches(suffix);
    CacheTimeoutRowMatches(suffix);
  }

  /**
   * `_` is a wildcard here, so the deletion is looser than a prefix test:
   * a row named with `x` in place of every `_` of the pattern goes too.
   */
  lemma LikeIsLooserThanPrefix()
    ensures var p := CACHE_VALUE_PATTERN[..|CACHE_VALUE_PATTERN| - 1];
      var name := seq(|p|, i requires 0 <= i < |p| => if p[i] == '_' then 'x' else p[i]);
      !(p <= name) && Cleared(name)
  {
    var p := CACHE_VALUE_PATTERN[..|CACHE_VALUE_PATTERN| - 1];
    var name := seq(|p|, i requires 0 <= i < |p| => if p[i] == '_' then 'x' else p[i]);
    assert p + "%" == CACHE_VALUE_PATTERN;
    assert '%' !in p;
    assert name + [] == name;
    LikeHead(name, [], p);
    assert name[0] != p[0];
  }

  /** The batch lock's row is not a cached value row: it differs from the pattern at position 18. */
  lemma LockIsNotCacheValue(row: string)
    requires row == TransientRow(BATCH_LOCK)
    ensures !Like(row, CACHE_VALUE_PATTERN)
  {
    var p := TRANSIENT_PREFIX + RELATED_CACHE_PREFIX;
    assert CACHE_VALUE_PATTERN == p + "%";
    assert '%' !in p;
    assert row[18] == 'c' && p[18] == 'r';
    LikeMismatch(row, p, 18);
  }

  /** Nor a cached timeout row: it differs from that pattern at position 11. */
  lemma LockIsNotCacheTimeout(row: string)
    requires row == TransientRow(BATCH_LOCK)
    ensures !Like(row, CACHE_TIMEOUT_PATTERN)
  {
    var p := TRANSIENT_TIMEOUT_PREFIX + RELATED_CACHE_PREFIX;
    assert CACHE_TIMEOUT_PATTERN == p + "%";
    assert '%' !in p;
    assert row[11] == 'c' && p[11] == 't';
    LikeMismatch(row, p, 11);
  }

  /** The batch lock is not one of the rows the clean-up deletes. */
  lemma BatchLockSurvives(row: string)
    requires row == TransientRow(BATCH_LOCK)
    ensures !Cleared(row)
  {
    LockIsNotCacheValue(row);
    LockIsNotCacheTimeout(row);
  }

  /**
   * After the clean-up no related-posts cache entry can be read, the
   * plugin's options are gone, and every row the patterns do not match is
   * kept.
   */
  lemma ClearedOptionsEffect(options: map<string, PhpValue>, suffix: string, now: int)
    ensures GetTransient(ClearedOptions(options), RELATED_CACHE_PREFIX + suffix, now).None?
    ensures SETTINGS_OPTION !in ClearedOptions(options) && FAILED_QUEUE_OPTION !in ClearedOptions(options)
    ensures TransientRow(BATCH_LOCK) in options ==> TransientRow(BATCH_LOCK) in ClearedOptions(options)
  {
    CacheRowsMatch(suffix);
    BatchLockSurvives(TransientRow(BATCH_LOCK));
  }

  /** deactivate(). */
  method Deactivate(s: Store)
    modifies s`events
    ensures s.events == old(s.events) - {RetryFailedSyncs}
  {
    s.events := s.events - {RetryFailedSyncs};
  }

  /** clear_all_plugin_data(). */
  method ClearAllPluginData(s: Store)
    modifies s`options, s`events
    ensures s.options == ClearedOptions(old(s.options))
    ensures s.events == old(s.events) - {RetryFailedSyncs}
  {
    s.options := s.options - {SETTINGS_OPTION};
    s.options := s.options - {FAILED_QUEUE_OPTION};
    var kept := s.options;
    s.options := map name | name in kept && !CacheRow(name) :: kept[name];
    assert s.options == ClearedOptions(old(s.options)) by {
      forall name | name in old(s.options)
        ensures name in s.options <==> !Cleared(name)
      {
      }
    }
    s.events := s.events - {RetryFailedSyncs};
  }
}
