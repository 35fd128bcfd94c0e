/**
 * The front-end script that fills the placeholder (chiral-connector-public.js).
 * It has two escaping helpers, the rendering of one related post, the guard
 * the ready handler applies to the placeholder's data attributes, and the
 * choice of the network name shown in the subtitle. JavaScript values
 * are modelled as a datatype; numbers are integers.
 */
module PublicJs {
  import opened Php

  datatype JsValue =
    | JUndefined
    | JNull
    | JBool(b: bool)
    | JNum(n: int)
    | JStr(s: string)
    | JArray(items: seq<JsValue>)
    | JObject(fields: map<string, JsValue>)

  /** JavaScript truthiness: undefined, null, false, 0 and '' are falsy. */
  predicate JsTruthy(v: JsValue) {
    match v
    case JUndefined => false
    case JNull => false
    case JBool(b) => b
    case JNum(n) => n != 0
    case JStr(s) => s != ""
    case JArray(_) => true
    case JObject(_) => true
  }

  /** `v.key`: undefined when `v` is not an object or lacks the property. */
  function Get(v: JsValue, key: string): JsValue {
    if v.JObject? && key in v.fields then v.fields[key] else JUndefined
  }

  /** String(v), as `+` with a string applies it. */
  function ToJsString(v: JsValue): string
    decreases v, 1
  {
    match v
    case JUndefined => "undefined"
    case JNull => "null"
    case JBool(b) => if b then "true" else "false"
    case JNum(n) => IntToDecimal(n)
    case JStr(s) => s
    case JArray(items) => JoinFrom(v, 0)
    case JObject(_) => "[object Object]"
  }

  /** Array.prototype.join(',') from position i: undefined and null show as ''. */
  function JoinFrom(v: JsValue, i: nat): string
    requires v.JArray? && i <= |v.items|
    decreases v, 0, |v.items| - i
  {
    if i == |v.items| then ""
    else
      var x := v.items[i];
      var shown := if x.JUndefined? || x.JNull? then "" else ToJsString(x);
      (if i == 0 then "" else ",") + shown + JoinFrom(v, i + 1)
  }

  /** The white space String.prototype.trim() removes. */
  predicate IsJsSpace(c: char) {
    c == ' ' || c == '\t' || c == '\n' || c == '\r' || c == '\U{B}' || c == '\U{C}' || c == '\U{A0}'
    || c == '\U{1680}' || ('\U{2000}' <= c <= '\U{200A}') || c == '\U{2028}' || c == '\U{2029}'
    || c == '\U{202F}' || c == '\U{205F}' || c == '\U{3000}' || c == '\U{FEFF}'
  }

  function JsTrimLeft(s: string): (r: string)
    ensures |r| <= |s| && r == s[|s| - |r|..]
    ensures |r| == 0 || !IsJsSpace(r[0])
  {
    if |s| > 0 && IsJsSpace(s[0]) then JsTrimLeft(s[1..]) else s
  }

  function JsTrimRight(s: string): (r: string)
    ensures |r| <= |s| && r == s[..|r|]
  {
    if |s| > 0 && IsJsSpace(s[|s| - 1]) then JsTrimRight(s[..|s| - 1]) else s
  }

  /** String.prototype.trim(). */
  function JsTrim(s: string): (r: string)
    ensures |r| <= |s|
  {
    JsTrimRight(JsTrimLeft(s))
  }

  /** `s.trim() !== ''`. */
  predicate NonBlank(s: string) {
    JsTrim(s) != ""
  }

  lemma {:induction false} BlankIsAllSpace(s: string)
    ensures JsTrimLeft(s) == "" <==> forall i | 0 <= i < |s| :: IsJsSpace(s[i])
    decreases |s|
  {
    if |s| > 0 && IsJsSpace(s[0]) {
      BlankIsAllSpace(s[1..]);
      assert forall i | 1 <= i < |s| :: s[i] == s[1..][i - 1];
    }
  }

  /** A string has visible content exactly when some character is not white space. */
  lemma NonBlankHasContent(s: string)
    ensures NonBlank(s) <==> exists i | 0 <= i < |s| :: !IsJsSpace(s[i])
  {
    BlankIsAllSpace(s);
    var t := JsTrimLeft(s);
    if t != "" {
      assert JsTrimRight(t) != "" by {
        assert !IsJsSpace(t[0]);
        TrimRightKeepsNonSpace(t);
      }
    }
  }

  lemma {:induction false} TrimRightKeepsNonSpace(t: string)
    requires |t| > 0 && !IsJsSpace(t[0])
    ensures JsTrimRight(t) != ""
    decreases |t|
  {
    if IsJsSpace(t[|t| - 1]) {
      TrimRightKeepsNonSpace(t[..|t| - 1]);
    }
  }

  // ------------------------------------------------------------------ escaping

  /** `s.replace(/c/g, rep)`. */
  function ReplaceAll(s: string, c: char, rep: string): (r: string)
    decreases |s|
  {
    if |s| == 0 then "" else (if s[0] == c then rep else [s[0]]) + ReplaceAll(s[1..], c, rep)
  }

  lemma {:induction false} ReplaceAllAppend(a: string, b: string, c: char, rep: string)
    ensures ReplaceAll(a + b, c, rep) == ReplaceAll(a, c, rep) + ReplaceAll(b, c, rep)
    decreases |a|
  {
    if |a| > 0 {
      assert (a + b)[1..] == a[1..] + b;
      ReplaceAllAppend(a[1..], b, c, rep);
    } else {
      assert a + b == b;
    }
  }

  /** Replacing a character that does not occur changes nothing. */
  lemma {:induction false} ReplaceAllAbsent(s: string, c: char, rep: string)
    requires c !in s
    ensures ReplaceAll(s, c, rep) == s
    decreases |s|
  {
    if |s| > 0 {
      assert c !in s[1..] by { assert forall i | 0 <= i < |s[1..]| :: s[1..][i] == s[i + 1]; }
      ReplaceAllAbsent(s[1..], c, rep);
      assert [s[0]] + s[1..] == s;
    }
  }

  /** The chain escapeHtml() applies, `&` first. */
  function EscapeChain(s: string): string {
    ReplaceAll(ReplaceAll(ReplaceAll(ReplaceAll(ReplaceAll(s, '&', "&amp;"), '<', "&lt;"), '>', "&gt;"), '"', "&quot;"), '\'', "&#039;")
  }

  /** escapeHtml(): '' for anything but a string. */
  function EscapeHtml(v: JsValue): (r: string)
    ensures !v.JStr? ==> r == ""
  {
    if v.JStr? then EscapeChain(v.s) else ""
  }

  /** The entity a character becomes. */
  function EscapeChar(c: char): string {
    if c == '&' then "&amp;"
    else if c == '<' then "&lt;"
    else if c == '>' then "&gt;"
    else if c == '"' then "&quot;"
    else if c == '\'' then "&#039;"
    else [c]
  }

  /** Character by character escaping, the independent reference for the chain. */
  function EscapeEach(s: string): string
    decreases |s|
  {
    if |s| == 0 then "" else EscapeChar(s[0]) + EscapeEach(s[1..])
  }

  lemma EscapeChainDistributes(a: string, b: string)
    ensures EscapeChain(a + b) == EscapeChain(a) + EscapeChain(b)
  {
    var s1a, s1b := ReplaceAll(a, '&', "&amp;"), ReplaceAll(b, '&', "&amp;");
    ReplaceAllAppend(a, b, '&', "&amp;");
    var s2a, s2b := ReplaceAll(s1a, '<', "&lt;"), ReplaceAll(s1b, '<', "&lt;");
    ReplaceAllAppend(s1a, s1b, '<', "&lt;");
    var s3a, s3b := ReplaceAll(s2a, '>', "&gt;"), ReplaceAll(s2b, '>', "&gt;");
    ReplaceAllAppend(s2a, s2b, '>', "&gt;");
    var s4a, s4b := ReplaceAll(s3a, '"', "&quot;"), ReplaceAll(s3b, '"', "&quot;");
    ReplaceAllAppend(s3a, s3b, '"', "&quot;");
    ReplaceAllAppend(s4a, s4b, '\'', "&#039;");
  }

  /** A replacement step on a one-character string, or on one without the replaced character. */
  lemma ReplaceStep(t: string, c: char, d: char, rep: string)
    requires t == [c] || d !in t
    ensures ReplaceAll(t, d, rep) == if t == [c] && c == d then rep else t
  {
    if t == [c] {
      assert t[1..] == [];
      assert ReplaceAll(t, d, rep) == (if c == d then rep else [c]) + "";
    } else {
      ReplaceAllAbsent(t, d, rep);
    }
  }

  lemma EscapeChainOfChar(c: char)
    ensures EscapeChain([c]) == EscapeChar(c)
  {
    var s1 := ReplaceAll([c], '&', "&amp;");
    ReplaceStep([c], c, '&', "&amp;");
    if c == '&' {
      assert '<' !in s1 && '>' !in s1 && '"' !in s1 && '\'' !in s1;
      ReplaceAllAbsent(s1, '<', "&lt;");
      ReplaceAllAbsent(s1, '>', "&gt;");
      ReplaceAllAbsent(s1, '"', "&quot;");
      ReplaceAllAbsent(s1, '\'', "&#039;");
    } else {
      EscapeTailOfChar(c);
    }
  }

  lemma EscapeTailOfChar(c: char)
    requires c != '&'
    ensures ReplaceAll(ReplaceAll(ReplaceAll(ReplaceAll([c], '<', "&lt;"), '>', "&gt;"), '"', "&quot;"), '\'', "&#039;")
            == EscapeChar(c)
  {
    var s2 := ReplaceAll([c], '<', "&lt;");
    ReplaceStep([c], c, '<', "&lt;");
    if c == '<' {
      assert '>' !in s2 && '"' !in s2 && '\'' !in s2;
      ReplaceAllAbsent(s2, '>', "&gt;");
      ReplaceAllAbsent(s2, '"', "&quot;");
      ReplaceAllAbsent(s2, '\'', "&#039;");
    } else {
      var s3 := ReplaceAll([c], '>', "&gt;");
      ReplaceStep([c], c, '>', "&gt;");
      if c == '>' {
        assert '"' !in s3 && '\'' !in s3;
        ReplaceAllAbsent(s3, '"', "&quot;");
        ReplaceAllAbsent(s3, '\'', "&#039;");
      } else {
        var s4 := ReplaceAll([c], '"', "&quot;");
        ReplaceStep([c], c, '"', "&quot;");
        if c == '"' {
          assert '\'' !in s4;
          ReplaceAllAbsent(s4, '\'', "&#039;");
        } else {
          ReplaceStep([c], c, '\'', "&#039;");
        }
      }
    }
  }

  /** The five chained replacements escape each character on its own: `&` first means no entity is escaped twice. */
  lemma {:induction false} EscapeChainIsPerChar(s: string)
    ensures EscapeChain(s) == EscapeEach(s)
    decreases |s|
  {
    if |s| == 0 {
    } else {
      assert s == [s[0]] + s[1..];
      EscapeChainDistributes([s[0]], s[1..]);
      EscapeChainOfChar(s[0]);
      EscapeChainIsPerChar(s[1..]);
    }
  }

  /** The characters escaping removes. */
  predicate Markup(c: char) {
    c == '<' || c == '>' || c == '"' || c == '\''
  }

  /** One of the five entities starts here. */
  predicate EntityStart(t: string) {
    "&amp;" <= t || "&lt;" <= t || "&gt;" <= t || "&quot;" <= t || "&#039;" <= t
  }

  lemma {:induction false} EscapeEachSafe(s: string)
    ensures forall i | 0 <= i < |EscapeEach(s)| :: !Markup(EscapeEach(s)[i])
    ensures forall i | 0 <= i < |EscapeEach(s)| && EscapeEach(s)[i] == '&' :: EntityStart(EscapeEach(s)[i..])
    decreases |s|
  {
    if |s| > 0 {
      EscapeEachSafe(s[1..]);
      var e, rest := EscapeChar(s[0]), EscapeEach(s[1..]);
      var r := EscapeEach(s);
      assert r == e + rest;
      forall i | 0 <= i < |r|
        ensures !Markup(r[i])
        ensures r[i] == '&' ==> EntityStart(r[i..])
      {
        if i < |e| {
          assert r[i] == e[i];
          if r[i] == '&' {
            assert i == 0;
            assert e <= r[i..];
          }
        } else {
          assert r[i] == rest[i - |e|];
          assert r[i..] == rest[i - |e|..];
        }
      }
    }
  }

  /**
   * escapeHtml() output contains no `<`, `>`, `"` or `'`. Every `&` in it
   * begins one of the five entities.
   */
  lemma EscapeHtmlIsSafe(v: JsValue)
    ensures forall i | 0 <= i < |EscapeHtml(v)| :: !Markup(EscapeHtml(v)[i])
    ensures forall i | 0 <= i < |EscapeHtml(v)| && EscapeHtml(v)[i] == '&' :: EntityStart(EscapeHtml(v)[i..])
  {
    if v.JStr? {
      EscapeChainIsPerChar(v.s);
      EscapeEachSafe(v.s);
    }
  }

  /** How a browser reads the five entities back. */
  function Unescape(t: string): string
    decreases |t|
  {
    if |t| == 0 then ""
    else if "&amp;" <= t then "&" + Unescape(t[5..])
    else if "&lt;" <= t then "<" + Unescape(t[4..])
    else if "&gt;" <= t then ">" + Unescape(t[4..])
    else if "&quot;" <= t then "\"" + Unescape(t[6..])
    else if "&#039;" <= t then "'" + Unescape(t[6..])
    else [t[0]] + Unescape(t[1..])
  }

  lemma UnescapeStep(c: char, rest: string)
    ensures Unescape(EscapeChar(c) + rest) == [c] + Unescape(rest)
  {
    var t := EscapeChar(c) + rest;
    if c == '&' { assert t[..5] == "&amp;" && t[5..] == rest; }
    else if c == '<' { assert t[1] == 'l' && t[..4] == "&lt;" && t[4..] == rest; }
    else if c == '>' { assert t[1] == 'g' && t[..4] == "&gt;" && t[4..] == rest; }
    else if c == '"' { assert t[1] == 'q' && t[..6] == "&quot;" && t[6..] == rest; }
    else if c == '\'' { assert t[1] == '#' && t[..6] == "&#039;" && t[6..] == rest; }
    else { assert t[0] == c && t[1..] == rest; }
  }

  lemma {:induction false} UnescapeEach(s: string)
    ensures Unescape(EscapeEach(s)) == s
    decreases |s|
  {
    if |s| > 0 {
      UnescapeStep(s[0], EscapeEach(s[1..]));
      UnescapeEach(s[1..]);
      assert [s[0]] + s[1..] == s;
    }
  }

  /** The escaped text reads back as the original: the browser shows what the Hub sent. */
  lemma EscapeHtmlRoundTrip(s: string)
    ensures Unescape(EscapeHtml(JStr(s))) == s
  {
    EscapeChainIsPerChar(s);
    UnescapeEach(s);
  }

  /** The chain encodeURIPath() applies. */
  function EncodeChain(s: string): string {
    ReplaceAll(ReplaceAll(ReplaceAll(s, ' ', "%20"), '"', "%22"), '\'', "%27")
  }

  /** encodeURIPath(): '' for anything but a string. */
  function EncodeUriPath(v: JsValue): (r: string)
    ensures !v.JStr? ==> r == ""
  {
    if v.JStr? then EncodeChain(v.s) else ""
  }

  /** The characters encodeURIPath() rewrites. */
  predicate UrlBreaking(c: char) {
    c == ' ' || c == '"' || c == '\''
  }

  /** A replacement text free of a character leaves none of it behind, and keeps out any it did not bring. */
  lemma {:induction false} ReplaceAllRemoves(s: string, c: char, rep: string, d: char)
    requires d !in rep
    requires d == c || d !in s
    ensures d !in ReplaceAll(s, c, rep)
    decreases |s|
  {
    if |s| > 0 {
      assert d == c || d !in s[1..] by { assert forall i | 0 <= i < |s[1..]| :: s[1..][i] == s[i + 1]; }
      ReplaceAllRemoves(s[1..], c, rep, d);
    }
  }

  /** A URL put in an attribute by encodeURIPath() has no space or quote to end the attribute early. */
  lemma EncodeUriPathIsSafe(v: JsValue)
    ensures forall i | 0 <= i < |EncodeUriPath(v)| :: !UrlBreaking(EncodeUriPath(v)[i])
  {
    if v.JStr? {
      var s1 := ReplaceAll(v.s, ' ', "%20");
      var s2 := ReplaceAll(s1, '"', "%22");
      ReplaceAllRemoves(v.s, ' ', "%20", ' ');
      ReplaceAllRemoves(s1, '"', "%22", ' ');
      ReplaceAllRemoves(s2, '\'', "%27", ' ');
      ReplaceAllRemoves(s1, '"', "%22", '"');
      ReplaceAllRemoves(s2, '\'', "%27", '"');
      ReplaceAllRemoves(s2, '\'', "%27", '\'');
    }
  }

  /** Every other character is kept: a URL without spaces or quotes comes out as it went in. */
  lemma EncodeUriPathKeepsSafeUrls(s: string)
    requires forall i | 0 <= i < |s| :: !UrlBreaking(s[i])
    ensures EncodeUriPath(JStr(s)) == s
  {
    ReplaceAllAbsent(s, ' ', "%20");
    ReplaceAllAbsent(s, '"', "%22");
    ReplaceAllAbsent(s, '\'', "%27");
  }

  // ------------------------------------------------------------------ one related post

  /** The localised texts the script uses (chiralConnectorPublicAjax.texts over the defaults). */
  datatype Texts = Texts(loading: string, relatedTitle: string, noData: string, fetchError: string,
                         configError: string, source: string, fromChiralNetwork: string)

  const DEFAULT_TEXTS := Texts("Loading related Chiral data...", "Related Posts",
                               "No related Chiral data found at the moment.", "Error fetching related data",
                               "Chiral Connector: Configuration error for related posts.", "Source: %s",
                               "From Chiral Network: %s")

  /** `new URL(x).hostname`, None when the constructor throws. */
  type Hostname = string -> Option<string>

  /** `s.indexOf(p)` finds `p`. */
  predicate Contains(s: string, p: string) {
    exists k | 0 <= k <= |s| - |p| :: p <= s[k..]
  }

  /** `s.replace(p, rep)` with a string pattern: the first occurrence only. */
  function ReplaceFirst(s: string, p: string, rep: string): string
    decreases |s|
  {
    if |p| > 0 && p <= s then rep + s[|p|..]
    else if |s| == 0 || |p| == 0 then (if |p| == 0 then rep + s else s)
    else [s[0]] + ReplaceFirst(s[1..], p, rep)
  }

  /** The first metadata entry whose key is chiral_source_url (Array.prototype.find). */
  function FindSourceMeta(metas: seq<JsValue>): (r: Option<JsValue>)
    ensures r.Some? ==> r.value in metas && Get(r.value, "key") == JStr("chiral_source_url")
    ensures r.None? <==> forall i | 0 <= i < |metas| :: Get(metas[i], "key") != JStr("chiral_source_url")
    ensures r.Some? ==>
      exists i | 0 <= i < |metas| ::
        && r.value == metas[i]
        && Get(metas[i], "key") == JStr("chiral_source_url")
        && forall j | 0 <= j < i :: Get(metas[j], "key") != JStr("chiral_source_url")
  {
    if |metas| == 0 then None
    else if Get(metas[0], "key") == JStr("chiral_source_url") then Some(metas[0])
    else FindSourceMeta(metas[1..])
  }

  /** The post's own url is a string with visible content. */
  predicate HasOwnUrl(post: JsValue) {
    JsTruthy(Get(post, "url")) && Get(post, "url").JStr? && NonBlank(Get(post, "url").s)
  }

  /** The link target: the post's url, else the chiral_source_url metadata value, else '#'. */
  function ItemSourceUrl(post: JsValue): JsValue {
    if HasOwnUrl(post) then Get(post, "url")
    else
      var metas := Get(post, "metadata");
      if JsTruthy(metas) && metas.JArray? then
        match FindSourceMeta(metas.items)
        case Some(m) => if JsTruthy(Get(m, "value")) then Get(m, "value") else JStr("#")
        case None => JStr("#")
      else JStr("#")
  }

  /**
   * The link target's priority. The first entry keyed chiral_source_url
   * decides, so a later entry's value is never consulted.
   */
  lemma ItemSourceUrlPriority(post: JsValue)
    ensures HasOwnUrl(post) ==> ItemSourceUrl(post) == Get(post, "url")
    ensures !HasOwnUrl(post) && Get(post, "metadata").JArray?
            && FindSourceMeta(Get(post, "metadata").items).Some?
            && JsTruthy(Get(FindSourceMeta(Get(post, "metadata").items).value, "value"))
            ==> ItemSourceUrl(post) == Get(FindSourceMeta(Get(post, "metadata").items).value, "value")
    ensures ItemSourceUrl(post) == JStr("#") || HasOwnUrl(post) || JsTruthy(ItemSourceUrl(post))
    ensures !HasOwnUrl(post) && !Get(post, "metadata").JArray? ==> ItemSourceUrl(post) == JStr("#")
    ensures !HasOwnUrl(post)
            && !(Get(post, "metadata").JArray? && FindSourceMeta(Get(post, "metadata").items).Some?
                 && JsTruthy(Get(FindSourceMeta(Get(post, "metadata").items).value, "value")))
            ==> ItemSourceUrl(post) == JStr("#")
  {
  }

  /** The post's url is a link into the configured Hub's chiral_data entries. */
  predicate IsHubUrl(post: JsValue, configuredHubUrl: string) {
    var url := Get(post, "url");
    configuredHubUrl != "" && JsTruthy(url) && url.JStr? && configuredHubUrl <= url.s && Contains(url.s, "/chiral_data/")
  }

  /** The "Source: %s" label: author, else the Hub, else the source's host, else none. */
  function SourceLabel(post: JsValue, texts: Texts, configuredHubUrl: string, hostname: Hostname): (r: string)
  {
    var author := Get(post, "author_name");
    if JsTruthy(author) && author != JStr("N/A") then ReplaceFirst(texts.source, "%s", EscapeHtml(author))
    else if IsHubUrl(post, configuredHubUrl) then
      match hostname(configuredHubUrl)
      case Some(h) => ReplaceFirst(texts.source, "%s", EscapeChain(h) + " (Hub)")
      case None => ReplaceFirst(texts.source, "%s", "Chiral Hub")
    else
      var src := ItemSourceUrl(post);
      if JsTruthy(src) && src != JStr("#") then
        match hostname(ToJsString(src))
        case Some(h) => ReplaceFirst(texts.source, "%s", EscapeChain(h))
        case None => ""
      else ""
  }

  /** The label's four-way priority, with the two failed host lookups. */
  lemma SourceLabelPriority(post: JsValue, texts: Texts, configuredHubUrl: string, hostname: Hostname)
    ensures var author := Get(post, "author_name");
      JsTruthy(author) && author != JStr("N/A") ==>
      SourceLabel(post, texts, configuredHubUrl, hostname) == ReplaceFirst(texts.source, "%s", EscapeHtml(author))
    ensures var author := Get(post, "author_name");
      !(JsTruthy(author) && author != JStr("N/A")) && IsHubUrl(post, configuredHubUrl) && hostname(configuredHubUrl).Some? ==>
      SourceLabel(post, texts, configuredHubUrl, hostname)
      == ReplaceFirst(texts.source, "%s", EscapeChain(hostname(configuredHubUrl).value) + " (Hub)")
    ensures var author := Get(post, "author_name");
      var src := ItemSourceUrl(post);
      !(JsTruthy(author) && author != JStr("N/A")) && !IsHubUrl(post, configuredHubUrl)
      && JsTruthy(src) && src != JStr("#") && hostname(ToJsString(src)).Some? ==>
      SourceLabel(post, texts, configuredHubUrl, hostname) == ReplaceFirst(texts.source, "%s", EscapeChain(hostname(ToJsString(src)).value))
    ensures var author := Get(post, "author_name");
      !(JsTruthy(author) && author != JStr("N/A")) && !IsHubUrl(post, configuredHubUrl) && ItemSourceUrl(post) == JStr("#") ==>
      SourceLabel(post, texts, configuredHubUrl, hostname) == ""
    ensures var author := Get(post, "author_name");
      !(JsTruthy(author) && author != JStr("N/A")) && IsHubUrl(post, configuredHubUrl) && hostname(configuredHubUrl).None? ==>
      SourceLabel(post, texts, configuredHubUrl, hostname) == ReplaceFirst(texts.source, "%s", "Chiral Hub")
    ensures var author := Get(post, "author_name");
      var src := ItemSourceUrl(post);
      !(JsTruthy(author) && author != JStr("N/A")) && !IsHubUrl(post, configuredHubUrl)
      && JsTruthy(src) && src != JStr("#") && hostname(ToJsString(src)).None? ==>
      SourceLabel(post, texts, configuredHubUrl, hostname) == ""
  {
  }

  const LINK_TAIL := "\" target=\"_blank\" rel=\"noopener noreferrer\">"

  /** The thumbnail block, present when the post has a featured image. */
  function ThumbnailHtml(post: JsValue, sourceUrl: JsValue): string {
    if JsTruthy(Get(post, "featured_image_url")) then
      "<div class=\"related-post-thumbnail\">" + "<a href=\"" + EncodeUriPath(sourceUrl) + LINK_TAIL
      + "<img src=\"" + EncodeUriPath(Get(post, "featured_image_url")) + "\" alt=\"" + EscapeHtml(Get(post, "title")) + "\">"
      + "</a>" + "</div>"
    else ""
  }

  /** The opening of the content block and the heading linking the title to the source. */
  function HeadingHtml(post: JsValue, sourceUrl: JsValue): string {
    "<div class=\"related-post-content\">"
    + "<h4><a href=\"" + EncodeUriPath(sourceUrl) + LINK_TAIL + EscapeHtml(Get(post, "title")) + "</a></h4>"
  }

  /** The excerpt block, present when the post has an excerpt; the excerpt is inserted unescaped. */
  function ExcerptHtml(post: JsValue): string {
    if JsTruthy(Get(post, "excerpt")) then "<div class=\"related-post-excerpt\">" + ToJsString(Get(post, "excerpt")) + "</div>" else ""
  }

  /** The source line, present when there is a label. */
  function LabelHtml(sourceLabel: string): string {
    if sourceLabel != "" then "<small class=\"related-post-source\">" + sourceLabel + "</small>" else ""
  }

  /** The list item renderRelatedPostItem() returns. */
  function ItemHtml(post: JsValue, texts: Texts, configuredHubUrl: string, hostname: Hostname): string {
    var sourceUrl := ItemSourceUrl(post);
    "<li>" + ThumbnailHtml(post, sourceUrl) + HeadingHtml(post, sourceUrl) + ExcerptHtml(post)
    + LabelHtml(SourceLabel(post, texts, configuredHubUrl, hostname)) + "</div>" + "</li>"
  }

  /** The script's choice of `sourceUrl`. */
  method ChooseSourceUrl(post: JsValue) returns (sourceUrl: JsValue)
    ensures sourceUrl == ItemSourceUrl(post)
  {
    sourceUrl := JStr("#");
    var url := Get(post, "url");
    if JsTruthy(url) && url.JStr? && NonBlank(url.s) {
      sourceUrl := url;
    } else {
      var metas := Get(post, "metadata");
      if JsTruthy(metas) && metas.JArray? {
        var found := FindSourceMeta(metas.items);
        if found.Some? && JsTruthy(Get(found.value, "value")) {
          sourceUrl := Get(found.value, "value");
        }
      }
    }
  }

  /** The script's choice of `sourceLabel`. */
  method ChooseSourceLabel(post: JsValue, texts: Texts, configuredHubUrl: string, hostname: Hostname, sourceUrl: JsValue)
    returns (sourceLabel: string)
    requires sourceUrl == ItemSourceUrl(post)
    ensures sourceLabel == SourceLabel(post, texts, configuredHubUrl, hostname)
  {
    sourceLabel := "";
    var author := Get(post, "author_name");
    if JsTruthy(author) && author != JStr("N/A") {
      sourceLabel := ReplaceFirst(texts.source, "%s", EscapeHtml(author));
    } else if IsHubUrl(post, configuredHubUrl) {
      var hubHostname := hostname(configuredHubUrl);
      if hubHostname.Some? {
        sourceLabel := ReplaceFirst(texts.source, "%s", EscapeHtml(JStr(hubHostname.value)) + " (Hub)");
      } else {
        sourceLabel := ReplaceFirst(texts.source, "%s", "Chiral Hub");
      }
    } else if JsTruthy(sourceUrl) && sourceUrl != JStr("#") {
      var sourceHostname := hostname(ToJsString(sourceUrl));
      if sourceHostname.Some? {
        sourceLabel := ReplaceFirst(texts.source, "%s", EscapeHtml(JStr(sourceHostname.value)));
      }
    }
  }

  method AppendThumbnail(itemHtml: string, post: JsValue, sourceUrl: JsValue) returns (r: string)
    ensures r == itemHtml + ThumbnailHtml(post, sourceUrl)
  {
    r := itemHtml;
    if JsTruthy(Get(post, "featured_image_url")) {
      var block := "<div class=\"related-post-thumbnail\">";
      block := block + "<a href=\"" + EncodeUriPath(sourceUrl) + LINK_TAIL;
      block := block + "<img src=\"" + EncodeUriPath(Get(post, "featured_image_url")) + "\" alt=\"" + EscapeHtml(Get(post, "title")) + "\">";
      block := block + "</a>";
      block := block + "</div>";
      r := r + block;
    }
  }

  method AppendHeading(itemHtml: string, post: JsValue, sourceUrl: JsValue) returns (r: string)
    ensures r == itemHtml + HeadingHtml(post, sourceUrl)
  {
    var block := "<div class=\"related-post-content\">";
    block := block + "<h4><a href=\"" + EncodeUriPath(sourceUrl) + LINK_TAIL + EscapeHtml(Get(post, "title")) + "</a></h4>";
    r := itemHtml + block;
  }

  /** renderRelatedPostItem(), building the item by appending as the script does. */
  method RenderRelatedPostItem(post: JsValue, texts: Texts, configuredHubUrl: string, hostname: Hostname)
    returns (itemHtml: string)
    ensures itemHtml == ItemHtml(post, texts, configuredHubUrl, hostname)
  {
    itemHtml := "<li>";
    var sourceUrl := ChooseSourceUrl(post);
    itemHtml := AppendThumbnail(itemHtml, post, sourceUrl);
    itemHtml := AppendHeading(itemHtml, post, sourceUrl);
    if JsTruthy(Get(post, "excerpt")) {
      itemHtml := itemHtml + ("<div class=\"related-post-excerpt\">" + ToJsString(Get(post, "excerpt")) + "</div>");
    }
    assert itemHtml == "<li>" + ThumbnailHtml(post, sourceUrl) + HeadingHtml(post, sourceUrl) + ExcerptHtml(post);
    var sourceLabel := ChooseSourceLabel(post, texts, configuredHubUrl, hostname, sourceUrl);
    if sourceLabel != "" {
      itemHtml := itemHtml + ("<small class=\"related-post-source\">" + sourceLabel + "</small>");
    }
    assert itemHtml == "<li>" + ThumbnailHtml(post, sourceUrl) + HeadingHtml(post, sourceUrl) + ExcerptHtml(post)
                       + LabelHtml(sourceLabel);
    itemHtml := itemHtml + "</div>";
    itemHtml := itemHtml + "</li>";
  }

  // ------------------------------------------------------------------ the ready handler

  /** The whitespace parseInt() skips, the same set trim() removes. */
  function SkipJsSpace(s: string): (r: string)
    ensures |r| <= |s|
  {
    if |s| > 0 && IsJsSpace(s[0]) then SkipJsSpace(s[1..]) else s
  }

  /** parseInt(s, 10): None where the script gets NaN. */
  function JsParseInt(s: string): (r: Option<int>) {
    var t := SkipJsSpace(s);
    var neg := |t| > 0 && t[0] == '-';
    var body := if |t| > 0 && (t[0] == '-' || t[0] == '+') then t[1..] else t;
    var digits := LeadingDigits(body);
    if |digits| == 0 then None
    else if neg then Some(-(DigitsValue(digits) as int))
    else Some(DigitsValue(digits))
  }

  const DEFAULT_COUNT := 5

  /** `parseInt($container.data('count'), 10) || 5`: NaN and 0 both give 5. */
  function ReadCount(data: JsValue): (r: int)
    ensures r != 0
  {
    match JsParseInt(ToJsString(data))
    case None => DEFAULT_COUNT
    case Some(n) => if n != 0 then n else DEFAULT_COUNT
  }

  /** parseInt() reads a run of digits as its value. */
  lemma ParseDigits(d: string, m: nat)
    requires d == NatToDecimal(m)
    ensures JsParseInt(d) == Some(m)
  {
    LeadingDigitsOfAllDigits(d);
    DigitsOfDecimal(m);
    assert IsDigit(d[0]);
    assert SkipJsSpace(d) == d;
  }

  lemma ParseNegative(d: string, m: nat)
    requires d == NatToDecimal(m)
    ensures JsParseInt("-" + d) == Some(-(m as int))
  {
    var s := "-" + d;
    assert s[0] == '-' && !IsJsSpace(s[0]);
    assert SkipJsSpace(s) == s;
    assert s[1..] == d;
    LeadingDigitsOfAllDigits(d);
    DigitsOfDecimal(m);
  }

  /**
   * A count written into data-count as a decimal is read back unchanged,
   * except 0, which the `|| 5` turns into 5.
   */
  lemma CountSurvivesPage(n: int)
    ensures ReadCount(JStr(IntToDecimal(n))) == if n == 0 then DEFAULT_COUNT else n
    ensures ReadCount(JNum(n)) == ReadCount(JStr(IntToDecimal(n)))
  {
    if n < 0 {
      ParseNegative(NatToDecimal(-n), -n);
    } else {
      ParseDigits(NatToDecimal(n), n);
    }
  }

  /** What the ready handler does with the placeholder. */
  datatype ReadyOutcome =
    | NoContainer
    | ConfigError(html: string)
    // The loading message is shown and the AJAX request goes out with these fields.
    | Request(sourceUrl: JsValue, requestingNodeId: JsValue, count: int)

  /** The ready handler up to the AJAX request. */
  function ReadyAction(containerFound: bool, postUrl: JsValue, nodeId: JsValue, countData: JsValue, texts: Texts)
    : (r: ReadyOutcome)
    ensures !containerFound <==> r.NoContainer?
    ensures r.ConfigError? <==> containerFound && (!JsTruthy(postUrl) || !JsTruthy(nodeId))
    ensures r.Request? ==> r.sourceUrl == postUrl && r.requestingNodeId == nodeId && r.count == ReadCount(countData)
  {
    if !containerFound then NoContainer
    else if !JsTruthy(postUrl) || !JsTruthy(nodeId) then
      ConfigError("<p class=\"chiral-no-related-posts\">" + texts.configError + "</p>")
    else Request(postUrl, nodeId, ReadCount(countData))
  }

  // ------------------------------------------------------------------ the subtitle

  /** `s.split('%s')[0]`: what precedes the first `%s`, or all of `s`. */
  function BeforePlaceholder(s: string): (r: string)
    ensures r <= s
    decreases |s|
  {
    if |s| == 0 || "%s" <= s then "" else [s[0]] + BeforePlaceholder(s[1..])
  }

  /** The name shown in the subtitle when neither the posts nor the Hub URL give one. */
  function DefaultNetworkName(fromChiralNetwork: string): (r: string)
    ensures r != ""
  {
    var head := JsTrim(BeforePlaceholder(fromChiralNetwork));
    if head != "" then head else "From Network:"
  }

  /** The first post's network_name when the answer is a successful non-empty list; '' otherwise. */
  function FirstNetworkName(success: bool, data: JsValue): JsValue {
    if success && JsTruthy(data) && data.JArray? && |data.items| > 0 && JsTruthy(Get(data.items[0], "network_name"))
    then Get(data.items[0], "network_name")
    else JStr("")
  }

  /** `siteIdentifierForHubName`: the Hub URL's host when the URL is set and parses, '' otherwise. */
  function SiteIdentifier(configuredHubUrl: string, hostname: Hostname): (r: string)
    ensures r != "" ==> configuredHubUrl != "" && hostname(configuredHubUrl) == Some(r)
    ensures configuredHubUrl != "" && hostname(configuredHubUrl).Some? ==> r == hostname(configuredHubUrl).value
  {
    if configuredHubUrl == "" then "" else hostname(configuredHubUrl).GetOr("")
  }

  /** The subtitle's name: the first post's network name, else the Hub's host, else the default text. */
  function SubtitleName(success: bool, data: JsValue, site: string, fromChiralNetwork: string): (r: string)
    ensures r != ""
  {
    var fromPost := FirstNetworkName(success, data);
    if fromPost.JStr? && NonBlank(fromPost.s) then fromPost.s
    else if site != "" then site
    else DefaultNetworkName(fromChiralNetwork)
  }

  /** With no usable first-post name and no site identifier, the subtitle falls back to the default text. */
  lemma SubtitleNameDefault(success: bool, data: JsValue, site: string, fromChiralNetwork: string)
    ensures var first := FirstNetworkName(success, data);
      !(first.JStr? && NonBlank(first.s)) && site == "" ==>
            SubtitleName(success, data, site, fromChiralNetwork) == DefaultNetworkName(fromChiralNetwork)
  {
  }

  /** The subtitle's priority: a non-blank first-post name, then the Hub's host, then the default text's name. */
  lemma SubtitleNamePriority(success: bool, data: JsValue, configuredHubUrl: string, texts: Texts, hostname: Hostname, h: string)
    ensures var first := FirstNetworkName(success, data);
      first.JStr? && NonBlank(first.s) ==>
      SubtitleName(success, data, SiteIdentifier(configuredHubUrl, hostname), texts.fromChiralNetwork) == first.s
    ensures var first := FirstNetworkName(success, data);
      !(first.JStr? && NonBlank(first.s)) && configuredHubUrl != "" && hostname(configuredHubUrl) == Some(h) && h != "" ==>
      SubtitleName(success, data, SiteIdentifier(configuredHubUrl, hostname), texts.fromChiralNetwork) == h
    ensures var first := FirstNetworkName(success, data);
      !(first.JStr? && NonBlank(first.s)) && SiteIdentifier(configuredHubUrl, hostname) == "" ==>
      SubtitleName(success, data, SiteIdentifier(configuredHubUrl, hostname), texts.fromChiralNetwork)
      == DefaultNetworkName(texts.fromChiralNetwork)
  {
    var site := SiteIdentifier(configuredHubUrl, hostname);
    SubtitleNameDefault(success, data, site, texts.fromChiralNetwork);
    if configuredHubUrl != "" && hostname(configuredHubUrl) == Some(h) {
      assert site == h;
    }
  }

  /** A failed request on a page with no Hub URL shows the default text's name. */
  lemma SubtitleNameFailedUnconfigured(data: JsValue, texts: Texts, hostname: Hostname)
    ensures SubtitleName(false, data, SiteIdentifier("", hostname), texts.fromChiralNetwork)
      == DefaultNetworkName(texts.fromChiralNetwork)
  {
    SubtitleNameDefault(false, data, SiteIdentifier("", hostname), texts.fromChiralNetwork);
  }

  /** With the default texts the fallback name is "From Chiral Network:", the text before its `%s`, trimmed. */
  lemma DefaultTextsNetworkName()
    ensures DefaultNetworkName(DEFAULT_TEXTS.fromChiralNetwork) == "From Chiral Network:"
  {
    var s := DEFAULT_TEXTS.fromChiralNetwork;
    BeforePlaceholderUpTo(s, 21);
    assert s[..21] == "From Chiral Network: ";
    TrimDefaultHead("From Chiral Network: ");
  }

  lemma TrimDefaultHead(head: string)
    requires head == "From Chiral Network: "
    ensures JsTrim(head) == "From Chiral Network:"
  {
    assert JsTrimLeft(head) == head;
    var body := "From Chiral Network:";
    assert IsJsSpace(head[20]) && head[..20] == body;
    assert JsTrimRight(head) == JsTrimRight(body);
    assert !IsJsSpace(body[19]);
    assert JsTrimRight(body) == body;
  }

  lemma {:induction false} BeforePlaceholderUpTo(s: string, k: nat)
    requires k + 2 <= |s| && s[k] == '%' && s[k + 1] == 's'
    requires forall i | 0 <= i < k :: s[i] != '%'
    ensures BeforePlaceholder(s) == s[..k]
    decreases k
  {
    if k == 0 {
      assert s[..2] == "%s";
    } else {
      assert s[0] != '%';
      BeforePlaceholderUpTo(s[1..], k - 1);
      assert s[..k] == [s[0]] + s[1..][..k - 1];
    }
  }
}
