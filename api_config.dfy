/** Endpoint paths of the backend and the absolute URLs built from them. */
module ApiConfig {
  import opened Wrappers

  const ApiBaseUrl: string := "http://localhost:8000/api"

  /** `API_ENDPOINTS.items`. */
  const ItemsEndpoint: string := "/items"

  /** `API_ENDPOINTS.item(id)`, for the id as it is written into the path. */
  function ItemEndpoint(id: string): (r: string)
    ensures |r| == |ItemsEndpoint| + 1 + |id|
    ensures r[..|ItemsEndpoint|] == ItemsEndpoint && r[|ItemsEndpoint|] == '/' && r[|ItemsEndpoint| + 1..] == id
  {
    ItemsEndpoint + "/" + id
  }

  /** `createApiUrl(endpoint)`: the base URL with the endpoint appended. */
  function CreateApiUrl(endpoint: string): (r: string)
    ensures |r| == |ApiBaseUrl| + |endpoint|
    ensures r[..|ApiBaseUrl|] == ApiBaseUrl && r[|ApiBaseUrl|..] == endpoint
  {
    ApiBaseUrl + endpoint
  }

  /** The id a per-item URL names, or `None` for a URL outside the item collection. */
  function ItemIdOf(url: string): (r: Option<string>)
    ensures r.Some? ==> url == CreateApiUrl(ItemEndpoint(r.value))
  {
    var prefix := CreateApiUrl(ItemsEndpoint) + "/";
    if |prefix| <= |url| && url[..|prefix|] == prefix then
      assert url == prefix + url[|prefix|..];
      Some(url[|prefix|..])
    else None
  }

  /** Every per-item URL extends the collection URL, with a '/' between them. */
  lemma {:induction false} ItemUrlExtendsCollection(id: string)
    ensures var items := CreateApiUrl(ItemsEndpoint); var one := CreateApiUrl(ItemEndpoint(id));
      |items| < |one| && one[..|items|] == items && one[|items|] == '/'
  {
    assert CreateApiUrl(ItemEndpoint(id)) == CreateApiUrl(ItemsEndpoint) + "/" + id;
  }

  /** Reading the id back from the URL built for it gives the same id; so distinct ids never share a URL. */
  lemma {:induction false} ItemUrlRoundTrip(id: string)
    ensures ItemIdOf(CreateApiUrl(ItemEndpoint(id))) == Some(id)
  {
    var prefix := CreateApiUrl(ItemsEndpoint) + "/";
    var url := CreateApiUrl(ItemEndpoint(id));
    assert url == prefix + id;
    assert url[..|prefix|] == prefix;
    assert url[|prefix|..] == id;
  }

  lemma ItemUrlInjective(a: string, b: string)
    requires CreateApiUrl(ItemEndpoint(a)) == CreateApiUrl(ItemEndpoint(b))
    ensures a == b
  {
    ItemUrlRoundTrip(a);
    ItemUrlRoundTrip(b);
  }
}
