/** Addressing the store's admin API: the shop domain taken from the environment,
    the admin URL, the GET wrapper that turns every failure into an empty document,
    and the two listings built on it (collections and products of a collection). */
module Shop {

  import opened Wrappers
  import opened Text
  import opened Catalog

  /** The shop domain with the scheme and any surrounding slashes removed. */
  function NormalizeDomain(raw: string): (r: string)
    ensures r == [] || (r[0] != '/' && r[|r| - 1] != '/')
    ensures |r| <= |raw|
  {
    Strip(RemoveAll(RemoveAll(raw, "https://"), "http://"), '/')
  }

  /** A domain already free of any ':' and of slashes at either end is unchanged. */
  lemma NormalizeKeepsBareDomain(raw: string)
    requires forall k :: 0 <= k < |raw| ==> raw[k] != ':'
    requires raw == [] || (raw[0] != '/' && raw[|raw| - 1] != '/')
    ensures NormalizeDomain(raw) == raw
  {
    RemoveAllAbsent(raw, "https://", 5);
    RemoveAllAbsent(raw, "http://", 4);
    StripKeeps(raw, '/');
  }

  /** A URL made of either scheme, a bare domain and any run of trailing slashes is
      normalised to the bare domain. */
  lemma NormalizeSchemeAndSlash(scheme: string, host: string, slashes: string)
    requires scheme == "https://" || scheme == "http://"
    requires forall k :: 0 <= k < |host| ==> host[k] != ':'
    requires host == [] || (host[0] != '/' && host[|host| - 1] != '/')
    requires forall k :: 0 <= k < |slashes| ==> slashes[k] == '/'
    ensures NormalizeDomain(scheme + host + slashes) == host
  {
    var rest := host + slashes;
    assert scheme + host + slashes == scheme + rest;
    assert forall k :: 0 <= k < |rest| ==> rest[k] != ':';
    if scheme == "https://" {
      RemoveLeading("https://", rest);
      RemoveAllAbsent(rest, "https://", 5);
    } else {
      var s := scheme + rest;
      assert forall k :: 0 <= k < |s| && k != 4 ==> s[k] != ':';
      RemoveAllMisaligned(s, "https://", 5, 4);
      RemoveLeading("http://", rest);
    }
    RemoveAllAbsent(rest, "http://", 4);
    StripTrailing(host, slashes, '/');
  }

  /** The scheme and the trailing slash of a typical shop URL are removed. */
  lemma NormalizeExample()
    ensures NormalizeDomain("https://shop.myshopify.com/") == "shop.myshopify.com"
  {
    var host := "shop.myshopify.com";
    assert "https://shop.myshopify.com/" == "https://" + host + "/";
    NormalizeSchemeAndSlash("https://", host, "/");
  }

  /** The host text the module works with: the environment variable normalised when
      it is set and non-empty, and as the f-string prints it otherwise. */
  function ShopHost(env: Option<string>): (r: string)
    ensures env.None? ==> r == "None"
    ensures env.Some? ==> r == NormalizeDomain(env.value)
  {
    match env
    case None => "None"
    case Some(s) => if s == "" then s else NormalizeDomain(s)
  }

  /** The request headers: the access token and the JSON content type when a token
      is set, none otherwise. */
  function Headers(token: Option<string>): (h: map<string, string>)
    ensures (token.None? || token.value == "") ==> h == map[]
    ensures token.Some? && token.value != "" ==>
              && h.Keys == {"X-Shopify-Access-Token", "Content-Type"}
              && h["X-Shopify-Access-Token"] == token.value
              && h["Content-Type"] == "application/json"
  {
    match token
    case Some(t) =>
      if t == "" then map[]
      else map["X-Shopify-Access-Token" := t, "Content-Type" := "application/json"]
    case None => map[]
  }

  const AdminPrefix := "/admin/api/2024-01/"

  /** The admin API URL of an endpoint: the secure scheme, the host, the API prefix
      of version 2024-01 and the endpoint, in that order and nothing else. */
  function AdminUrl(host: string, endpoint: string): (url: string)
    ensures OccursAt("https://", url, 0) && OccursAt(host, url, 8)
    ensures OccursAt(AdminPrefix, url, 8 + |host|)
    ensures OccursAt(endpoint, url, 8 + |host| + |AdminPrefix|)
    ensures |url| == 8 + |host| + |AdminPrefix| + |endpoint|
  {
    var url := "https://" + host + AdminPrefix + endpoint;
    assert OccursAt("https://", url, 0) && OccursAt(host, url, 8);
    assert OccursAt(AdminPrefix, url, 8 + |host|);
    url
  }

  datatype Request = Request(url: string, headers: map<string, string>)

  /** What `requests.get` does for one request: it raises, or it answers with a
      status and a body that `r.json()` either decodes to a document (`Some`) or
      fails on (`None`). A document maps top-level keys to lists of records. */
  datatype Response<T> = GetRaised | Reply(status: int, json: Option<map<string, seq<T>>>)

  datatype Connection = Connection(host: string, token: Option<string>)

  function GetRequest(conn: Connection, endpoint: string): Request {
    Request(AdminUrl(conn.host, endpoint), Headers(conn.token))
  }

  /** The decoded body of a status-200 answer; the empty document for every other
      outcome: a raised exception, another status, or a body that is not JSON. */
  function ShopifyGet<T>(conn: Connection, endpoint: string, fetch: Request -> Response<T>)
    : (doc: map<string, seq<T>>)
    ensures doc != map[] ==>
              fetch(GetRequest(conn, endpoint)).Reply? && fetch(GetRequest(conn, endpoint)).status == 200
    ensures (fetch(GetRequest(conn, endpoint)).Reply?
             && fetch(GetRequest(conn, endpoint)).status == 200
             && fetch(GetRequest(conn, endpoint)).json.Some?)
            ==> doc == fetch(GetRequest(conn, endpoint)).json.value
    ensures !(fetch(GetRequest(conn, endpoint)).Reply?
              && fetch(GetRequest(conn, endpoint)).status == 200
              && fetch(GetRequest(conn, endpoint)).json.Some?)
            ==> doc == map[]
  {
    match fetch(GetRequest(conn, endpoint))
    case GetRaised => map[]
    case Reply(status, json) => if status == 200 then json.GetOr(map[]) else map[]
  }

  /** Python's `d.get(key, [])`. */
  function ListAt<T>(doc: map<string, seq<T>>, key: string): seq<T> {
    if key in doc then doc[key] else []
  }

  /** What an answer lists under a key: the key's list in a status-200 JSON document
      that has it, and nothing for a raised request, another status, a body that is
      not JSON or a document without the key. */
  function Answered<T>(resp: Response<T>, key: string): seq<T> {
    match resp
    case Reply(200, Some(d)) => if key in d then d[key] else []
    case _ => []
  }

  /** The smart collections followed by the custom collections, each as the shop's
      answer to its own request lists it. */
  function GetCollections(conn: Connection, fetch: Request -> Response<Collection>)
    : (cols: seq<Collection>)
    ensures cols == Answered(fetch(GetRequest(conn, "smart_collections.json")), "smart_collections")
                    + Answered(fetch(GetRequest(conn, "custom_collections.json")), "custom_collections")
  {
    ListAt(ShopifyGet(conn, "smart_collections.json", fetch), "smart_collections")
      + ListAt(ShopifyGet(conn, "custom_collections.json", fetch), "custom_collections")
  }

  const ListingPath := "products.json"
  const LimitParam := "?limit="

  /** The last part of every products endpoint: the listing and its page size. */
  function LimitQuery(limit: int): (q: string)
    ensures |q| == |ListingPath| + |LimitParam| + |IntText(limit)|
    ensures OccursAt(ListingPath, q, 0) && OccursAt(LimitParam, q, |ListingPath|)
    ensures OccursAt(IntText(limit), q, |q| - |IntText(limit)|)
  {
    var q := ListingPath + LimitParam + IntText(limit);
    assert OccursAt(ListingPath, q, 0) && OccursAt(LimitParam, q, |ListingPath|);
    q
  }

  /** The sentinel "all" lists the whole catalogue; any other id lists the products
      of that collection under its own path. Both end with the same query. */
  function ProductsEndpoint(collectionId: string, limit: int): (e: string)
    ensures |e| >= |LimitQuery(limit)| && OccursAt(LimitQuery(limit), e, |e| - |LimitQuery(limit)|)
    ensures collectionId == "all" <==> OccursAt(ListingPath, e, 0)
    ensures collectionId == "all" ==> |e| == |LimitQuery(limit)|
    ensures collectionId != "all" ==>
              && |e| == 12 + |collectionId| + 1 + |LimitQuery(limit)|
              && OccursAt("collections/", e, 0) && OccursAt(collectionId, e, 12)
              && e[12 + |collectionId|] == '/'
  {
    var tail := LimitQuery(limit);
    if collectionId == "all" then
      assert tail[|tail| - |tail|..] == tail;
      tail
    else
      var e := Nested("collections/", collectionId, tail);
      assert e[0] == "collections/"[0] != ListingPath[0];
      e
  }

  /** `id` placed as a path segment between a directory and a tail. */
  function Nested(dir: string, id: string, tail: string): (e: string)
    ensures |e| == |dir| + |id| + 1 + |tail| && e[|dir| + |id|] == '/'
    ensures OccursAt(dir, e, 0) && OccursAt(id, e, |dir|) && OccursAt(tail, e, |e| - |tail|)
  {
    dir + id + "/" + tail
  }

  const DefaultLimit := 50

  /** The products the shop lists for a collection id and page size: those of its
      answer to the endpoint's request, nothing when that request fails. */
  function GetProductsByCollection(conn: Connection, collectionId: string, limit: int,
                                   fetch: Request -> Response<Product>): (prods: seq<Product>)
    ensures prods == Answered(fetch(GetRequest(conn, ProductsEndpoint(collectionId, limit))), "products")
  {
    ListAt(ShopifyGet(conn, ProductsEndpoint(collectionId, limit), fetch), "products")
  }

  /** A failed request (an exception or a status other than 200) lists no products. */
  lemma FailedFetchListsNothing(conn: Connection, collectionId: string, limit: int,
                                fetch: Request -> Response<Product>)
    requires var resp := fetch(GetRequest(conn, ProductsEndpoint(collectionId, limit)));
             resp.GetRaised? || resp.status != 200
    ensures GetProductsByCollection(conn, collectionId, limit, fetch) == []
  {
  }

  /** When both listings are answered with status 200 and a JSON document, the
      collections are the smart list of the first document (none if it lacks the key)
      followed by the custom list of the second. */
  lemma CollectionsOfReplies(conn: Connection, fetch: Request -> Response<Collection>,
                             smart: map<string, seq<Collection>>, custom: map<string, seq<Collection>>)
    requires fetch(GetRequest(conn, "smart_collections.json")) == Reply(200, Some(smart))
    requires fetch(GetRequest(conn, "custom_collections.json")) == Reply(200, Some(custom))
    ensures GetCollections(conn, fetch) == ListAt(smart, "smart_collections") + ListAt(custom, "custom_collections")
  {
  }

  /** A collections request that raises or is answered with another status than 200
      contributes nothing; the other list is returned alone. */
  lemma FailedCollectionFetch(conn: Connection, fetch: Request -> Response<Collection>)
    ensures var s := fetch(GetRequest(conn, "smart_collections.json"));
            (s.GetRaised? || s.status != 200) ==>
              GetCollections(conn, fetch) == Answered(fetch(GetRequest(conn, "custom_collections.json")), "custom_collections")
    ensures var c := fetch(GetRequest(conn, "custom_collections.json"));
            (c.GetRaised? || c.status != 200) ==>
              GetCollections(conn, fetch) == Answered(fetch(GetRequest(conn, "smart_collections.json")), "smart_collections")
  {
  }

  /** The page size written at the end of the endpoint reads back as the requested
      limit. */
  lemma EndpointCarriesLimit(collectionId: string, limit: int)
    ensures var e := ProductsEndpoint(collectionId, limit);
            |e| >= |IntText(limit)| && ParseInt(e[|e| - |IntText(limit)|..]) == Some(limit)
  {
    IntTextRoundTrip(limit);
    EndOfEnd(IntText(limit), LimitQuery(limit), ProductsEndpoint(collectionId, limit));
  }
}
