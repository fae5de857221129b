/**
 * The configuration part of the Sunnytrail client: the messages endpoint it
 * derives from an API key, a base URL and the choice of scheme.
 *
 * The endpoint is `<scheme>://<base url>/messages?apikey=<encoded key>`.
 * `ParseMessagesUrl` reads an endpoint back; `MessagesUrlRoundTrip` shows
 * that the endpoint determines the scheme, the base URL and the key, which
 * holds because the encoded key can contain no `?`.
 */
module Client {
  import opened Wrappers
  import opened FormEncoding

  const DEFAULT_BASE_URL: string := "api.thesunnytrail.com"
  const MESSAGES_PATH: string := "/messages"
  const API_KEY_PARAM: ByteString := "apikey"

  /**
   * A configured client. `baseUrl` is the scheme-qualified base URL, as the
   * source stores it; `messagesUrl` is the endpoint events are sent to.
   */
  datatype Sunnytrail = Sunnytrail(key: ByteString, baseUrl: string, messagesUrl: string, useSsl: bool)

  function SchemePrefix(useSsl: bool): string {
    if useSsl then "https://" else "http://"
  }

  /** `<scheme>://<base url>/messages?<query>`. */
  function EndpointUrl(useSsl: bool, baseUrl: string, query: string): string {
    SchemePrefix(useSsl) + baseUrl + MESSAGES_PATH + "?" + query
  }

  /**
   * `Sunnytrail(key, base_url, use_ssl)`: the scheme-qualified base URL, and
   * the endpoint with the form-encoded `apikey` query.
   */
  function NewSunnytrail(key: ByteString, baseUrl: string, useSsl: bool): (c: Sunnytrail)
    ensures c.key == key && c.useSsl == useSsl
    ensures c.baseUrl == SchemePrefix(useSsl) + baseUrl
    ensures c.messagesUrl == EndpointUrl(useSsl, baseUrl, UrlEncodeOne(API_KEY_PARAM, key))
  {
    Sunnytrail(key, SchemePrefix(useSsl) + baseUrl, EndpointUrl(useSsl, baseUrl, UrlEncodeOne(API_KEY_PARAM, key)), useSsl)
  }

  /** An endpoint starts with `https://` when SSL is on and with `http://` when it is off, never both. */
  lemma EndpointScheme(useSsl: bool, baseUrl: string, query: string)
    ensures var url := EndpointUrl(useSsl, baseUrl, query);
      && (useSsl <==> |url| >= 8 && url[..8] == "https://")
      && (!useSsl <==> |url| >= 7 && url[..7] == "http://")
  {
    var scheme := SchemePrefix(useSsl);
    var url := EndpointUrl(useSsl, baseUrl, query);
    assert url == scheme + (baseUrl + MESSAGES_PATH + "?" + query);
    assert url[..|scheme|] == scheme;
    assert url[4] == scheme[4];
  }

  /** The client's endpoint starts with `https://` exactly when SSL is on, and with `http://` exactly when it is off. */
  lemma MessagesUrlScheme(key: ByteString, baseUrl: string, useSsl: bool)
    ensures var url := NewSunnytrail(key, baseUrl, useSsl).messagesUrl;
      && (useSsl <==> |url| >= 8 && url[..8] == "https://")
      && (!useSsl <==> |url| >= 7 && url[..7] == "http://")
  {
    EndpointScheme(useSsl, baseUrl, UrlEncodeOne(API_KEY_PARAM, key));
  }

  /** What an endpoint says about the client that built it. */
  datatype Endpoint = Endpoint(useSsl: bool, baseUrl: string, key: ByteString)

  /** The last position of `c` in `s` before position `n`, if any. */
  function LastIndexOf(s: string, c: char, n: nat): (r: Option<nat>)
    requires n <= |s|
    ensures r.Some? ==> r.value < n && s[r.value] == c
    ensures r.Some? ==> forall j | r.value < j < n :: s[j] != c
    ensures r.None? ==> forall j | 0 <= j < n :: s[j] != c
  {
    if n == 0 then None
    else if s[n - 1] == c then Some(n - 1)
    else LastIndexOf(s, c, n - 1)
  }

  /** Reads an endpoint back into its scheme, base URL and API key. */
  function ParseMessagesUrl(url: string): (r: Option<Endpoint>)
  {
    match SplitScheme(url)
    case Some((useSsl, rest)) => ParseAfterScheme(useSsl, rest)
    case None => None
  }

  /** Reads the scheme: `https://` means SSL on, `http://` SSL off. */
  function SplitScheme(url: string): Option<(bool, string)>
  {
    if |url| >= 8 && url[..8] == "https://" then Some((true, url[8..]))
    else if |url| >= 7 && url[..7] == "http://" then Some((false, url[7..]))
    else None
  }

  /** Splits `<base url>/messages?<query>` at its last `?`. */
  function ParseAfterScheme(useSsl: bool, rest: string): (r: Option<Endpoint>)
  {
    match LastIndexOf(rest, '?', |rest|)
    case None => None
    case Some(k) =>
      var path, query := rest[..k], rest[k + 1..];
      var n := |path| - |MESSAGES_PATH|;
      if n < 0 || path[n..] != MESSAGES_PATH then None
      else match ParseQueryOne(query)
        case Some((name, key)) =>
          if name == API_KEY_PARAM then Some(Endpoint(useSsl, path[..n], key)) else None
        case None => None
  }

  /** The last `c` of `s` is at `k` when `s[k]` is `c` and no `c` follows it. */
  lemma LastIndexOfAt(s: string, c: char, k: nat)
    requires k < |s| && s[k] == c
    requires forall j | k < j < |s| :: s[j] != c
    ensures LastIndexOf(s, c, |s|) == Some(k)
  {
  }

  /** In `p + [c] + q`, when `q` holds no `c`, the `c` after `p` is the last one. */
  lemma NoSeparatorAfter(p: string, c: char, q: string)
    requires forall j | 0 <= j < |q| :: q[j] != c
    ensures var s := p + [c] + q; s[|p|] == c && forall j | |p| < j < |s| :: s[j] != c
  {
  }

  /** The scheme prefix is read back as the SSL flag it came from. */
  lemma ParseSchemePrefix(useSsl: bool, rest: string)
    ensures SplitScheme(SchemePrefix(useSsl) + rest) == Some((useSsl, rest))
  {
    var url := SchemePrefix(useSsl) + rest;
    if useSsl {
      assert url[..8] == "https://" && url[8..] == rest;
    } else {
      assert url[4] == ':';
      assert url[..7] == "http://" && url[7..] == rest;
    }
  }

  /** The path and query split at the `?` they were joined by, when the query holds no `?`. */
  lemma ParsePathAndQuery(useSsl: bool, baseUrl: string, query: string, key: ByteString)
    requires forall j | 0 <= j < |query| :: query[j] != '?'
    requires ParseQueryOne(query) == Some((API_KEY_PARAM, key))
    ensures ParseAfterScheme(useSsl, baseUrl + MESSAGES_PATH + "?" + query) == Some(Endpoint(useSsl, baseUrl, key))
  {
    var path := baseUrl + MESSAGES_PATH;
    var rest := path + "?" + query;
    NoSeparatorAfter(path, '?', query);
    LastIndexOfAt(rest, '?', |path|);
    assert rest[..|path|] == path;
    assert rest[|path| + 1..] == query;
    assert path[|baseUrl|..] == MESSAGES_PATH;
    assert path[..|baseUrl|] == baseUrl;
  }

  /** An endpoint whose query holds no `?` and carries the key reads back as the parts it was built from. */
  lemma ParseEndpointUrl(useSsl: bool, baseUrl: string, query: string, key: ByteString)
    requires forall j | 0 <= j < |query| :: query[j] != '?'
    requires ParseQueryOne(query) == Some((API_KEY_PARAM, key))
    ensures ParseMessagesUrl(EndpointUrl(useSsl, baseUrl, query)) == Some(Endpoint(useSsl, baseUrl, key))
  {
    var rest := baseUrl + MESSAGES_PATH + "?" + query;
    assert EndpointUrl(useSsl, baseUrl, query) == SchemePrefix(useSsl) + rest;
    ParseSchemePrefix(useSsl, rest);
    ParsePathAndQuery(useSsl, baseUrl, query, key);
  }

  /** The endpoint of a client reads back as the scheme, base URL and key it was built from. */
  lemma MessagesUrlRoundTrip(key: ByteString, baseUrl: string, useSsl: bool)
    ensures ParseMessagesUrl(NewSunnytrail(key, baseUrl, useSsl).messagesUrl)
      == Some(Endpoint(useSsl, baseUrl, key))
  {
    UrlEncodeOneRoundTrip(API_KEY_PARAM, key);
    ParseEndpointUrl(useSsl, baseUrl, UrlEncodeOne(API_KEY_PARAM, key), key);
  }

  /** Two clients with the same endpoint agree on scheme, base URL and key. */
  lemma MessagesUrlDeterminesConfig(k1: ByteString, b1: string, s1: bool, k2: ByteString, b2: string, s2: bool)
    requires NewSunnytrail(k1, b1, s1).messagesUrl == NewSunnytrail(k2, b2, s2).messagesUrl
    ensures k1 == k2 && b1 == b2 && s1 == s2
  {
    MessagesUrlRoundTrip(k1, b1, s1);
    MessagesUrlRoundTrip(k2, b2, s2);
  }

  /** The scheme-qualified base URL a client built with the default arguments stores. */
  const DEFAULT_ENDPOINT_BASE: string := "https://api.thesunnytrail.com"

  /** The default base URL with the `https` scheme spells the default endpoint base. */
  lemma DefaultEndpointBase()
    ensures SchemePrefix(true) + DEFAULT_BASE_URL == DEFAULT_ENDPOINT_BASE
  {
  }

  /** A client built with the default base URL and SSL on. */
  function DefaultSunnytrail(key: ByteString): (c: Sunnytrail)
    ensures c == NewSunnytrail(key, DEFAULT_BASE_URL, true)
    ensures c.useSsl && c.key == key
    ensures c.baseUrl == DEFAULT_ENDPOINT_BASE
    ensures ParseMessagesUrl(c.messagesUrl) == Some(Endpoint(true, DEFAULT_BASE_URL, key))
  {
    MessagesUrlRoundTrip(key, DEFAULT_BASE_URL, true);
    DefaultEndpointBase();
    NewSunnytrail(key, DEFAULT_BASE_URL, true)
  }
}
