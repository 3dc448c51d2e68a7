/** The plugin's ApiRequester: the requests it builds for the Gaode map service and the
    Baidu chat service, and the order in which it issues them. The HTTP client is a
    parameter `net` that answers one request with the response text or a fault, and
    the configuration file is given as the outcome of reading and decoding it. */
module ApiRequester {
  import opened Results
  import opened Messages
  import opened Query
  import Decimal

  datatype Method = Get | Post

  /** The two media types sent in the Content-Type header. */
  datatype MediaType = FormMedia | JsonMedia

  /** The chat request's JSON body. The float sampling fields (temperature 0.9,
      top_p 1.0, penalty_score 1.4) are fixed constants and are not modelled. */
  datatype ChatBody = ChatBody(messages: seq<Message>, stream: bool, userId: string)

  datatype Body = FormBody(text: string) | JsonBody(chat: ChatBody)

  datatype HttpRequest = HttpRequest(verb: Method, url: string, contentType: Option<MediaType>, body: Option<Body>)

  /** The API keys read from the bot's configuration file. */
  datatype Config = Config(gaodeApiKey: string, baiduApiKey: string, baiduSecretKey: string)

  /** The Gaode endpoint constants (their values live outside this model). */
  datatype GaodeConstants = GaodeConstants(
    aroundSearchApiUrl: string, addressGetApiUrl: string,
    offset: string, page: string, extensions: string, output: string)

  /** The Baidu endpoint constants (their values live outside this model). */
  datatype BaiduConstants = BaiduConstants(apiUrl: string, tokenUrl: string, grantType: string)

  /** The caller's parameters for a nearby-place search, as they print into a URL. */
  datatype AroundSearchRequestBody = AroundSearchRequestBody(location: string, types: string, radius: string, sortrule: string)

  /** What one call did: the HTTP requests it issued, in order, and what it returned. */
  datatype Exchange = Exchange(requests: seq<HttpRequest>, response: Outcome<string>)

  /** Executing one request and reading its body: the body text, or an I/O fault. */
  type Network = HttpRequest -> Outcome<string>

  // ---------------------------------------------------------------- Gaode

  /** The around-search query, in the order ApiRequester writes them. */
  function AroundSearchQuery(g: GaodeConstants, q: AroundSearchRequestBody, key: string): string
  {
    "location=" + q.location +
    "&types=" + q.types +
    "&radius=" + q.radius +
    "&sortrule=" + q.sortrule +
    "&offset=" + g.offset +
    "&page=" + g.page +
    "&extensions=" + g.extensions +
    "&key=" + key
  }

  function AroundSearchUrl(g: GaodeConstants, q: AroundSearchRequestBody, key: string): string
  {
    g.aroundSearchApiUrl + "?" + AroundSearchQuery(g, q, key)
  }

  /** The geocode query, in the order ApiRequester writes them. */
  function AddressQuery(g: GaodeConstants, address: string, city: string, key: string): string
  {
    "address=" + address +
    "&city=" + city +
    "&output=" + g.output +
    "&key=" + key
  }

  function AddressUrl(g: GaodeConstants, address: string, city: string, key: string): string
  {
    g.addressGetApiUrl + "?" + AddressQuery(g, address, city, key)
  }

  function AroundSearchParams(g: GaodeConstants, q: AroundSearchRequestBody, key: string): seq<Param>
  {
    [Param("location", q.location), Param("types", q.types), Param("radius", q.radius),
     Param("sortrule", q.sortrule), Param("offset", g.offset), Param("page", g.page),
     Param("extensions", g.extensions), Param("key", key)]
  }

  /** The first four around-search fields render as the query's literal front half. */
  lemma AroundSearchFront(a: string, b: string, c: string, d: string)
    ensures RenderQuery([Param("location", a), Param("types", b), Param("radius", c), Param("sortrule", d)]) ==
      "location=" + a + "&types=" + b + "&radius=" + c + "&sortrule=" + d
  {
    RenderQuery4(Param("location", a), Param("types", b), Param("radius", c), Param("sortrule", d));
  }

  /** The last four around-search fields render as the query's literal back half. */
  lemma AroundSearchBack(e: string, f: string, g: string, h: string)
    ensures RenderQuery([Param("offset", e), Param("page", f), Param("extensions", g), Param("key", h)]) ==
      "offset=" + e + "&page=" + f + "&extensions=" + g + "&key=" + h
  {
    RenderQuery4(Param("offset", e), Param("page", f), Param("extensions", g), Param("key", h));
  }

  lemma AroundSearchQueryIsRendered(g: GaodeConstants, q: AroundSearchRequestBody, key: string)
    ensures RenderQuery(AroundSearchParams(g, q, key)) == AroundSearchQuery(g, q, key)
  {
    var front := [Param("location", q.location), Param("types", q.types), Param("radius", q.radius), Param("sortrule", q.sortrule)];
    var back := [Param("offset", g.offset), Param("page", g.page), Param("extensions", g.extensions), Param("key", key)];
    assert AroundSearchParams(g, q, key) == front + back;
    AroundSearchFront(q.location, q.types, q.radius, q.sortrule);
    AroundSearchBack(g.offset, g.page, g.extensions, key);
    RenderQueryAppend(front, back);
  }

  lemma AroundSearchUrlIsRendered(g: GaodeConstants, q: AroundSearchRequestBody, key: string)
    ensures AroundSearchUrl(g, q, key) == RenderUrl(g.aroundSearchApiUrl, AroundSearchParams(g, q, key))
  {
    AroundSearchQueryIsRendered(g, q, key);
  }

  /** The around-search URL carries location, types, radius, sortrule, offset, page,
      extensions and key in that order; offset, page and extensions come from the
      constants whatever the caller asks, the key is last, and values are copied verbatim. */
  lemma AroundSearchUrlReadsBack(g: GaodeConstants, q: AroundSearchRequestBody, key: string)
    requires '?' !in g.aroundSearchApiUrl
    requires '&' !in q.location && '&' !in q.types && '&' !in q.radius && '&' !in q.sortrule
    requires '&' !in g.offset && '&' !in g.page && '&' !in g.extensions && '&' !in key
    ensures ParseUrl(AroundSearchUrl(g, q, key)) == Some((g.aroundSearchApiUrl, [
      Param("location", q.location), Param("types", q.types), Param("radius", q.radius),
      Param("sortrule", q.sortrule), Param("offset", g.offset), Param("page", g.page),
      Param("extensions", g.extensions), Param("key", key)]))
  {
    AroundSearchUrlIsRendered(g, q, key);
    UrlRoundTrip(g.aroundSearchApiUrl, AroundSearchParams(g, q, key));
  }

  function AddressParams(address: string, city: string, output: string, key: string): seq<Param>
  {
    [Param("address", address), Param("city", city), Param("output", output), Param("key", key)]
  }

  lemma AddressQueryIsRendered(address: string, city: string, output: string, key: string)
    ensures RenderQuery(AddressParams(address, city, output, key)) ==
      "address=" + address + "&city=" + city + "&output=" + output + "&key=" + key
  {
    RenderQuery4(Param("address", address), Param("city", city), Param("output", output), Param("key", key));
  }

  lemma AddressUrlIsRendered(g: GaodeConstants, address: string, city: string, key: string)
    ensures AddressUrl(g, address, city, key) == RenderUrl(g.addressGetApiUrl, AddressParams(address, city, g.output, key))
  {
    AddressQueryIsRendered(address, city, g.output, key);
  }

  /** The geocode URL carries exactly address, city, output and key, in that order,
      with the caller's address and city copied verbatim. */
  lemma AddressUrlReadsBack(g: GaodeConstants, address: string, city: string, key: string)
    requires '?' !in g.addressGetApiUrl
    requires '&' !in address && '&' !in city && '&' !in g.output && '&' !in key
    ensures ParseUrl(AddressUrl(g, address, city, key)) == Some((g.addressGetApiUrl, [
      Param("address", address), Param("city", city), Param("output", g.output), Param("key", key)]))
  {
    AddressUrlIsRendered(g, address, city, key);
    UrlRoundTrip(g.addressGetApiUrl, AddressParams(address, city, g.output, key));
  }

  /** The address is not escaped: an address holding '&' makes the geocode URL
      read back with more than its four parameters. */
  lemma AddressIsNotEscaped(g: GaodeConstants, address: string, city: string, key: string)
    requires '?' !in g.addressGetApiUrl
    requires '&' in address
    ensures ParseUrl(AddressUrl(g, address, city, key)).Some?
    ensures |ParseUrl(AddressUrl(g, address, city, key)).value.1| > 4
  {
    AddressUrlIsRendered(g, address, city, key);
    AmpersandAddsParameter(g.addressGetApiUrl, AddressParams(address, city, g.output, key), 0);
  }

  /** sendAroundSearchRequest: read the configuration, then issue one GET without a body
      and hand back its response unchanged. */
  function SendAroundSearchRequest(g: GaodeConstants, config: Outcome<Config>, q: AroundSearchRequestBody, net: Network): (r: Exchange)
    ensures config.Err? ==> r.requests == [] && r.response == Err(config.fault)
    ensures config.Ok? ==> |r.requests| == 1 && r.response == net(r.requests[0])
    ensures config.Ok? ==> r.requests[0] == HttpRequest(Get, AroundSearchUrl(g, q, config.value.gaodeApiKey), None, None)
  {
    match config
    case Err(f) => Exchange([], Err(f))
    case Ok(c) =>
      var req := HttpRequest(Get, AroundSearchUrl(g, q, c.gaodeApiKey), None, None);
      Exchange([req], net(req))
  }

  /** sendAddressRequest: read the configuration, then issue one GET without a body
      and hand back its response unchanged. */
  function SendAddressRequest(g: GaodeConstants, config: Outcome<Config>, address: string, city: string, net: Network): (r: Exchange)
    ensures config.Err? ==> r.requests == [] && r.response == Err(config.fault)
    ensures config.Ok? ==> |r.requests| == 1 && r.response == net(r.requests[0])
    ensures config.Ok? ==> r.requests[0] == HttpRequest(Get, AddressUrl(g, address, city, config.value.gaodeApiKey), None, None)
  {
    match config
    case Err(f) => Exchange([], Err(f))
    case Ok(c) =>
      var req := HttpRequest(Get, AddressUrl(g, address, city, c.gaodeApiKey), None, None);
      Exchange([req], net(req))
  }

  // ---------------------------------------------------------------- Baidu

  /** The OAuth form body of the token request. */
  function TokenForm(b: BaiduConstants, c: Config): string
  {
    "grant_type=" + b.grantType + "&client_id=" + c.baiduApiKey + "&client_secret=" + c.baiduSecretKey
  }

  function TokenRequest(b: BaiduConstants, c: Config): HttpRequest
  {
    HttpRequest(Post, b.tokenUrl, Some(FormMedia), Some(FormBody(TokenForm(b, c))))
  }

  /** The token form carries grant_type, client_id and client_secret in that order,
      the keys copied verbatim from the configuration. */
  lemma TokenFormReadsBack(b: BaiduConstants, c: Config)
    requires '&' !in b.grantType && '&' !in c.baiduApiKey && '&' !in c.baiduSecretKey
    ensures ParseQuery(TokenForm(b, c)) ==
      [Param("grant_type", b.grantType), Param("client_id", c.baiduApiKey), Param("client_secret", c.baiduSecretKey)]
  {
    var ps := [Param("grant_type", b.grantType), Param("client_id", c.baiduApiKey), Param("client_secret", c.baiduSecretKey)];
    var s1 := "grant_type=" + b.grantType;
    assert RenderQuery(ps[..1]) == s1;
    var s2 := s1 + "&client_id=" + c.baiduApiKey;
    RenderQuerySnoc(ps[..1], ps[1]);
    assert ps[..2] == ps[..1] + [ps[1]];
    assert RenderQuery(ps[..2]) == s2;
    var s3 := s2 + "&client_secret=" + c.baiduSecretKey;
    RenderQuerySnoc(ps[..2], ps[2]);
    assert ps == ps[..2] + [ps[2]];
    assert RenderQuery(ps) == s3;
    QueryRoundTrip(ps);
  }

  function ChatUrl(b: BaiduConstants, token: string): string
  {
    b.apiUrl + "?access_token=" + token
  }

  /** The chat URL names the chat endpoint and carries the token as its only parameter. */
  lemma ChatUrlReadsBack(b: BaiduConstants, token: string)
    requires '?' !in b.apiUrl && '&' !in token
    ensures ParseUrl(ChatUrl(b, token)) == Some((b.apiUrl, [Param("access_token", token)]))
  {
    assert ChatUrl(b, token) == RenderUrl(b.apiUrl, [Param("access_token", token)]);
    UrlRoundTrip(b.apiUrl, [Param("access_token", token)]);
  }

  /** Different tokens give different chat URLs: the URL is tied to the token it was built with. */
  lemma ChatUrlDeterminesToken(b: BaiduConstants, t1: string, t2: string)
    requires ChatUrl(b, t1) == ChatUrl(b, t2)
    ensures t1 == t2
  {
    var p := b.apiUrl + "?access_token=";
    assert ChatUrl(b, t1) == p + t1 && ChatUrl(b, t2) == p + t2;
    assert t1 == (p + t1)[|p|..];
  }

  /** createBaiduRequestBody: the messages unchanged and in order, streaming off, and the
      sender's number written in decimal as the user id. */
  function CreateBaiduRequestBody(messages: seq<Message>, sender: int): (r: ChatBody)
    ensures r.messages == messages && !r.stream
    ensures Decimal.ParseInt(r.userId) == Some(sender)
  {
    Decimal.IntRoundTrip(sender);
    ChatBody(messages, false, Decimal.IntToString(sender))
  }

  /** getBaiduAccessToken: read the configuration, post the form to the token endpoint,
      and take the access_token field of the reply (`accessToken` stands for the JSON
      reader; its None is the exception it throws on a reply without that field). */
  function GetBaiduAccessToken(b: BaiduConstants, config: Outcome<Config>, net: Network, accessToken: string -> Option<string>): (r: Exchange)
    ensures config.Err? ==> r == Exchange([], Err(config.fault))
    ensures config.Ok? ==> r.requests == [TokenRequest(b, config.value)]
    ensures r.response.Ok? <==>
      config.Ok? && net(r.requests[0]).Ok? && accessToken(net(r.requests[0]).value).Some?
    ensures r.response.Ok? ==> Some(r.response.value) == accessToken(net(r.requests[0]).value)
    ensures config.Ok? && net(TokenRequest(b, config.value)).Err? ==>
      r.response == net(TokenRequest(b, config.value))
    ensures config.Ok? && net(TokenRequest(b, config.value)).Ok?
            && accessToken(net(TokenRequest(b, config.value)).value).None? ==>
      r.response == Err(UncheckedFault)
  {
    match config
    case Err(f) => Exchange([], Err(f))
    case Ok(c) =>
      var req := TokenRequest(b, c);
      match net(req)
      case Err(f) => Exchange([req], Err(f))
      case Ok(reply) =>
        match accessToken(reply)
        case None => Exchange([req], Err(UncheckedFault))
        case Some(t) => Exchange([req], Ok(t))
  }

  /** sendBaiduRequest: build the body, fetch a fresh token, then post the body to the
      chat URL carrying that token and hand back the response unchanged. */
  function SendBaiduRequest(b: BaiduConstants, config: Outcome<Config>, messages: seq<Message>, sender: int,
                            net: Network, accessToken: string -> Option<string>): (r: Exchange)
    ensures config.Err? ==> r == Exchange([], Err(config.fault))
    ensures config.Ok? ==> 1 <= |r.requests| <= 2 && r.requests[0] == TokenRequest(b, config.value)
    ensures |r.requests| == 2 <==>
      config.Ok? && net(r.requests[0]).Ok? && accessToken(net(r.requests[0]).value).Some?
    ensures |r.requests| == 2 ==>
      var token := accessToken(net(r.requests[0]).value).value;
      && r.requests[1].verb == Post
      && r.requests[1].url == ChatUrl(b, token)
      && r.requests[1].contentType == Some(JsonMedia)
      && r.requests[1].body == Some(JsonBody(CreateBaiduRequestBody(messages, sender)))
      && r.response == net(r.requests[1])
    ensures r.response.Ok? ==> |r.requests| == 2
    ensures |r.requests| < 2 ==> r.response == GetBaiduAccessToken(b, config, net, accessToken).response
  {
    var body := CreateBaiduRequestBody(messages, sender);
    var tok := GetBaiduAccessToken(b, config, net, accessToken);
    match tok.response
    case Err(f) => tok
    case Ok(t) =>
      var req := HttpRequest(Post, ChatUrl(b, t), Some(JsonMedia), Some(JsonBody(body)));
      Exchange(tok.requests + [req], net(req))
  }

  /** The requests of a run of chat calls, one after another, each with its own messages and sender. */
  function ChatSession(b: BaiduConstants, config: Outcome<Config>, calls: seq<(seq<Message>, int)>,
                       net: Network, accessToken: string -> Option<string>): seq<HttpRequest>
    decreases |calls|
  {
    if |calls| == 0 then []
    else SendBaiduRequest(b, config, calls[0].0, calls[0].1, net, accessToken).requests
         + ChatSession(b, config, calls[1..], net, accessToken)
  }

  predicate IsTokenRequest(req: HttpRequest)
  {
    req.body.Some? && req.body.value.FormBody?
  }

  function CountTokenRequests(reqs: seq<HttpRequest>): nat
    decreases |reqs|
  {
    if |reqs| == 0 then 0
    else (if IsTokenRequest(reqs[0]) then 1 else 0) + CountTokenRequests(reqs[1..])
  }

  lemma {:induction false} CountTokenRequestsAppend(a: seq<HttpRequest>, b: seq<HttpRequest>)
    ensures CountTokenRequests(a + b) == CountTokenRequests(a) + CountTokenRequests(b)
    decreases |a|
  {
    if |a| == 0 {
      assert a + b == b;
    } else {
      assert (a + b)[1..] == a[1..] + b;
      CountTokenRequestsAppend(a[1..], b);
    }
  }

  /** With a readable configuration, one chat call posts exactly one token request. */
  lemma ChatCallFetchesOneToken(b: BaiduConstants, config: Outcome<Config>, messages: seq<Message>, sender: int,
                                net: Network, accessToken: string -> Option<string>)
    requires config.Ok?
    ensures CountTokenRequests(SendBaiduRequest(b, config, messages, sender, net, accessToken).requests) == 1
  {
    var first := SendBaiduRequest(b, config, messages, sender, net, accessToken).requests;
    assert IsTokenRequest(first[0]);
    if |first| == 2 {
      assert !IsTokenRequest(first[1..][0]) && first[1..][1..] == [];
      assert CountTokenRequests(first[1..]) == 0;
    } else {
      assert first[1..] == [];
    }
  }

  /** No token is cached: with a readable configuration, every chat call of a session
      fetches its own token, so a session of n calls posts n token requests. */
  lemma {:induction false} OneTokenRequestPerCall(b: BaiduConstants, config: Outcome<Config>, calls: seq<(seq<Message>, int)>,
                                                  net: Network, accessToken: string -> Option<string>)
    requires config.Ok?
    ensures CountTokenRequests(ChatSession(b, config, calls, net, accessToken)) == |calls|
    decreases |calls|
  {
    if |calls| > 0 {
      var first := SendBaiduRequest(b, config, calls[0].0, calls[0].1, net, accessToken).requests;
      var rest := ChatSession(b, config, calls[1..], net, accessToken);
      CountTokenRequestsAppend(first, rest);
      ChatCallFetchesOneToken(b, config, calls[0].0, calls[0].1, net, accessToken);
      OneTokenRequestPerCall(b, config, calls[1..], net, accessToken);
    }
  }
}
