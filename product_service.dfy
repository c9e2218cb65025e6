/** The webhook configuration lookup of a product: a cache-aside read of the
    product's notification config, keyed by keyword and event, through the
    Redis cache and then the product table. */
module ProductConfig {
  import opened Wrappers
  import opened Json
  import Base64
  import Strings

  /** How long a config stays cached, in seconds: fifteen minutes. */
  const CacheTtl: int := 15 * 60

  /** The Redis key a config is cached under. */
  function CacheKey(keyword: string, event: string): (k: string)
    ensures |k| == |CachePrefix| + |keyword| + 1 + |event|
    ensures k[..|CachePrefix|] == CachePrefix
  {
    CachePrefix + keyword + ":" + event
  }

  const CachePrefix: string := "product:webhook_config:"

  /** Keywords without a colon never share a cache key: the key gives back
      the keyword and the event. */
  lemma CacheKeyInjective(keyword: string, event: string, keyword': string, event': string)
    requires ':' !in keyword && ':' !in keyword'
    requires CacheKey(keyword, event) == CacheKey(keyword', event')
    ensures keyword == keyword' && event == event'
  {
    var k := CacheKey(keyword, event);
    assert k[|CachePrefix|..] == keyword + [':'] + event;
    assert k[|CachePrefix|..] == keyword' + [':'] + event';
    Strings.SplitAtFirst(keyword, ':', event);
    Strings.SplitAtFirst(keyword', ':', event');
  }

  /** A row of the product table; `notificationConfig` is its JSON column,
      `None` when that is `null`. */
  datatype Product = Product(notificationConfig: Option<Object>)

  /** A cache entry: the config and the time to live it was written with. */
  datatype CacheEntry = CacheEntry(value: Object, ttl: int)

  /** `!!auth_user && !!auth_password`. */
  predicate HasAuth(config: Object) {
    Truthy(Field(config, "auth_user")) && Truthy(Field(config, "auth_password"))
  }

  /** The config with `hasAuth` written into it, as the lookup leaves it. */
  function WithHasAuth(config: Object): (r: Object)
    ensures r.Keys == config.Keys + {"hasAuth"}
    ensures r["hasAuth"] == JBool(HasAuth(config))
    ensures forall k :: k in config && k != "hasAuth" ==> r[k] == config[k]
  {
    config["hasAuth" := JBool(HasAuth(config))]
  }

  /** The database half of `getWebhookConfig`: the two `NotFound` errors,
      otherwise the stored config with `hasAuth` derived. */
  function FromDatabase(products: map<string, Product>, keyword: string): (r: Result<Object, string>)
    ensures keyword !in products ==> r == Err("Product not found for keyword: " + keyword)
    ensures keyword in products && products[keyword].notificationConfig.None? ==>
      r == Err("No notification config for product: " + keyword)
    ensures r.Ok? <==> keyword in products && products[keyword].notificationConfig.Some?
    ensures r.Ok? ==> r.value == WithHasAuth(products[keyword].notificationConfig.value)
  {
    if keyword !in products then Err("Product not found for keyword: " + keyword)
    else match products[keyword].notificationConfig
      case None => Err("No notification config for product: " + keyword)
      case Some(config) => Ok(WithHasAuth(config))
  }

  /** What `getWebhookConfig` gives for a cache state: the cached config on
      a hit, the database answer on a miss. */
  function ConfigLookup(cache: map<string, CacheEntry>, products: map<string, Product>,
                        keyword: string, event: string): Result<Object, string> {
    var key := CacheKey(keyword, event);
    if key in cache then Ok(cache[key].value) else FromDatabase(products, keyword)
  }

  /** The cache after `getWebhookConfig`: only a successful miss writes. */
  function CacheAfterLookup(cache: map<string, CacheEntry>, products: map<string, Product>,
                            keyword: string, event: string): map<string, CacheEntry> {
    var key := CacheKey(keyword, event);
    if key !in cache && FromDatabase(products, keyword).Ok? then
      cache[key := CacheEntry(FromDatabase(products, keyword).value, CacheTtl)]
    else cache
  }

  /** A lookup that succeeds leaves its config cached, so the same lookup
      right after is a hit that gives the same config. */
  lemma LookupTwice(cache: map<string, CacheEntry>, products: map<string, Product>, keyword: string, event: string)
    requires ConfigLookup(cache, products, keyword, event).Ok?
    ensures var after := CacheAfterLookup(cache, products, keyword, event);
      CacheKey(keyword, event) in after
      && ConfigLookup(after, products, keyword, event) == ConfigLookup(cache, products, keyword, event)
      && CacheAfterLookup(after, products, keyword, event) == after
  {
  }

  /** With both credentials given as text, `hasAuth` holds exactly when
      neither is empty. */
  lemma HasAuthOfStrings(config: Object, user: string, password: string)
    requires Field(config, "auth_user") == Some(JStr(user))
    requires Field(config, "auth_password") == Some(JStr(password))
    ensures HasAuth(config) <==> user != "" && password != ""
  {
  }

  /** A missing credential means no auth. */
  lemma NoAuthWithoutUser(config: Object)
    requires "auth_user" !in config || "auth_password" !in config
    ensures !HasAuth(config)
  {
  }

  /** Deriving `hasAuth` again from a config read back from the cache
      changes nothing: the credentials it is derived from are untouched. */
  lemma WithHasAuthIdempotent(config: Object)
    ensures WithHasAuth(WithHasAuth(config)) == WithHasAuth(config)
  {
    var once := WithHasAuth(config);
    assert Field(once, "auth_user") == Field(config, "auth_user");
    assert Field(once, "auth_password") == Field(config, "auth_password");
  }

  class ProductService {
    /** The product table, by keyword (`findByKeyword`). */
    const products: map<string, Product>
    /** The cached configs, by cache key. */
    var cache: map<string, CacheEntry>
    /** The keywords looked up in the product table, in call order. */
    var lookups: seq<string>

    constructor(products: map<string, Product>)
      ensures this.products == products && cache == map[] && lookups == []
    {
      this.products := products;
      cache := map[];
      lookups := [];
    }

    /** `getWebhookConfig`. A cache hit is returned as it is, with no table
        lookup and no cache write. A miss looks the keyword up; a missing
        product or config is an error that caches nothing; a found config
        gets `hasAuth`, is cached for `CacheTtl` seconds and returned. */
    method GetWebhookConfig(keyword: string, event: string) returns (r: Result<Object, string>)
      modifies this
      ensures var key := CacheKey(keyword, event);
        (key in old(cache) ==>
           r == Ok(old(cache)[key].value) && cache == old(cache) && lookups == old(lookups))
        && (key !in old(cache) ==>
              r == FromDatabase(products, keyword)
              && lookups == old(lookups) + [keyword]
              && cache == (if r.Ok? then old(cache)[key := CacheEntry(r.value, CacheTtl)] else old(cache)))
      ensures r == ConfigLookup(old(cache), products, keyword, event)
      ensures cache == CacheAfterLookup(old(cache), products, keyword, event)
    {
      var key := CacheKey(keyword, event);
      if key in cache {
        return Ok(cache[key].value);
      }
      lookups := lookups + [keyword];
      if keyword !in products {
        return Err("Product not found for keyword: " + keyword);
      }
      var config := products[keyword].notificationConfig;
      if config.None? {
        return Err("No notification config for product: " + keyword);
      }
      var webhookConfig := config.value["hasAuth" := JBool(HasAuth(config.value))];
      cache := cache[key := CacheEntry(webhookConfig, CacheTtl)];
      return Ok(webhookConfig);
    }
  }

  /** The private `getAuthHeaders` of the product service: Basic credentials
      without a default for the password, and a five second timeout. */
  function AuthHeaders(user: string, password: string): (r: Object)
    ensures r.Keys == {"headers", "timeout"} && r["timeout"] == JNum(5000)
    ensures r["headers"].JObj? && r["headers"].fields.Keys == {"Authorization", "Content-Type"}
    ensures r["headers"].fields["Content-Type"] == JStr("application/json")
  {
    map[
      "headers" := JObj(map[
        "Authorization" := JStr("Basic " + Base64.EncodeText(user + ":" + password)),
        "Content-Type" := JStr("application/json")]),
      "timeout" := JNum(5000)]
  }

  /** The `Authorization` value decodes back to `user:password`. */
  lemma AuthHeadersDecode(user: string, password: string)
    ensures var auth := AuthHeaders(user, password)["headers"].fields["Authorization"];
      auth.JStr? && auth.s[..6] == "Basic "
      && Base64.DecodeText(auth.s[6..]) == Some(user + ":" + password)
  {
    var auth := "Basic " + Base64.EncodeText(user + ":" + password);
    assert auth[6..] == Base64.EncodeText(user + ":" + password);
    Base64.DecodeEncodeText(user + ":" + password);
  }
}
