/**
 * The proxy setting of the collector: a configured `login:password@ip:port`
 * string becomes the proxy table that the HTTP session and the web3 provider
 * use, or no proxy at all when the string is absent or malformed.
 */
module Proxy {
  import opened Records
  import opened Text

  /** The proxy table: the same URL for plain and for TLS traffic. */
  type ProxyTable = map<string, string>

  /**
   * `setup_proxy`. `config` is the configured value (`None` or a string).
   * Every malformed shape, including the two-way unpack of a string with
   * more than one `@` that raises and is caught, yields no proxy.
   */
  function SetupProxy(config: Option<string>): (r: Option<ProxyTable>)
    ensures r.Some? ==> config.Some? && CountOf(config.value, '@') == 1
    ensures r.Some? ==> r.value.Keys == {"http", "https"} && r.value["http"] == r.value["https"]
  {
    if config.None? || config.value == "" then None
    else
      var s := config.value;
      if '@' !in s then None
      else
        var parts := Split(s, '@');
        if |parts| != 2 then None
        else
          var auth, server := parts[0], parts[1];
          if ':' !in auth || ':' !in server then None
          else
            var url := ProxyUrl(auth, server);
            Some(map["http" := url, "https" := url])
  }

  /** The proxy URL built from the two sides of `@`, each split at its first `:`. */
  function ProxyUrl(auth: string, server: string): string
    requires ':' in auth && ':' in server
  {
    var (login, password) := SplitFirst(auth, ':');
    var (ip, port) := SplitFirst(server, ':');
    "http://" + login + ":" + password + "@" + ip + ":" + port
  }

  /**
   * The accepted shape, stated without `split`: exactly one `@`, and a `:` on
   * each side of it.
   */
  predicate WellFormed(s: string) {
    CountOf(s, '@') == 1
    && '@' in s
    && ':' in s[..IndexOf(s, '@')]
    && ':' in s[IndexOf(s, '@') + 1..]
  }

  /** A proxy is set up exactly when the configured string is well formed. */
  lemma {:induction false} SetupProxyAcceptsExactly(config: Option<string>)
    ensures SetupProxy(config).Some? <==> (config.Some? && WellFormed(config.value))
  {
    if config.Some? && config.value != "" && '@' in config.value {
      var s := config.value;
      if CountOf(s, '@') == 1 {
        SplitOnce(s, '@');
      } else {
        assert |Split(s, '@')| != 2;
      }
    }
  }

  /**
   * On success both schemes map to the same URL, and that URL is `http://`
   * followed by the configured string: login and ip run up to the first `:`
   * of their side, and password and port take the rest.
   */
  lemma {:induction false} SetupProxyUrl(config: Option<string>)
    requires SetupProxy(config).Some?
    ensures config.Some?
    ensures var t := SetupProxy(config).value;
      t.Keys == {"http", "https"} && t["http"] == t["https"] == "http://" + config.value
  {
    var parts := Split(config.value, '@');
    SetupProxyParts(config);
    JoinPair(parts, '@');
    ProxyUrlText(parts[0], parts[1]);
  }

  /** On success the string splits at `@` into two sides, each holding a `:`, and the URL is built from them. */
  lemma SetupProxyParts(config: Option<string>)
    requires SetupProxy(config).Some?
    ensures config.Some?
    ensures var parts := Split(config.value, '@');
      && |parts| == 2 && ':' in parts[0] && ':' in parts[1]
      && SetupProxy(config).value == map["http" := ProxyUrl(parts[0], parts[1]), "https" := ProxyUrl(parts[0], parts[1])]
  {
  }

  /** The URL rebuilt from the two sides of `@` spells them out unchanged. */
  lemma ProxyUrlText(auth: string, server: string)
    requires ':' in auth && ':' in server
    ensures ProxyUrl(auth, server) == "http://" + auth + ['@'] + server
  {
    var (login, password) := SplitFirst(auth, ':');
    var (ip, port) := SplitFirst(server, ':');
    calc {
      "http://" + login + ":" + password + "@" + ip + ":" + port;
      "http://" + (login + [':'] + password) + ['@'] + (ip + [':'] + port);
    }
  }

  /** A string with a second `@` fails the two-way unpack and yields no proxy. */
  lemma TwoAtSignsRejected()
    ensures SetupProxy(Some("a:b@c:d@e")) == None
  {
    var s := "a:b@c:d@e";
    assert s == "a:b" + ['@'] + "c:d@e";
    assert CountOf("c:d@e", '@') == 1;
    assert CountOf(s, '@') == 2;
  }
}
