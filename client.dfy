/** client.go: the Steam Web API client. Each call builds a request URL from the
    client's key and its arguments, hands it to the network, and decodes the
    reply. The network and the JSON decoder are not modelled: what they return
    is a `Reply` parameter, and each call reports the URL it requested (`None`
    when it stops before any request). */
module SteamClient {
  import opened GoBase
  import opened Decimal
  import opened Strings
  import opened Format
  import opened Errors
  import opened Player

  /** A client holds only the API key, set once by `NewClient`. */
  datatype Client = Client(key: string)

  /** What the network and the decoder produced for a request: `http.Get`
      failed, the body did not decode, or the decoded payload. */
  datatype Reply<T> =
    | TransportError(cause: GoError)
    | BodyUndecodable(cause: GoError)
    | Decoded(value: T)

  /** The outcome of a client call: the URL handed to `http.Get` (if any), the
      returned value and the returned error (`None` for nil). */
  datatype Call<T> = Call(request: Option<string>, value: T, err: Option<GoError>)

  /** The decoded `response` object of `ResolveVanityURL`. */
  datatype VanityResponse = VanityResponse(steamId: uint64, success: int64)

  const Host: string := "https://api.steampowered.com/"

  /** Most ids one `GetPlayerSummaries` call accepts. */
  const MaxIds: nat := 100

  /** The over-the-cap error: `CapText` is its message up to the one verb,
      and `CapFormat` the whole format. `CapText` is one sentence, written
      as two literals only because the verifier reasons about shorter
      literals more cheaply. */
  const CapText: string := "GetPlayerSummaries accepts" + " a max of 100 ids, saw "
  const CapFormat: string := CapText + "%d"

  /** The messages of the errors that wrap a transport or decoding error, and
      of the error for a vanity status other than 1. None holds a verb, so
      `errorf` stores each as written. */
  const FriendListFailed: string := "unable to get friend list"
  const FriendListUndecodable: string := "unable to parse friends list response"
  const VanityFailed: string := "unable to resolve vanity url"
  const VanityUndecodable: string := "unable to decode vanity url response"
  const VanityNotResolved: string := "resolving vanity url returned non-1 status"
  const SummariesFailed: string := "unable to call GetPlayerSummaries API"
  const SummariesUndecodable: string := "unable to parse GetPlayerSummaries response"

  /** `Client.Get`: the URL of method `meth`, version `version`, of interface
      `iface`, with the key as the query. */
  function MethodUrl(c: Client, iface: string, meth: string, version: string): (url: string)
    ensures Host <= url
  {
    Host + iface + "/" + meth + "/" + version + "/?key=" + c.key
  }

  /** The URL with one more query parameter, `name=value`, appended. */
  function WithParam(url: string, name: string, value: string): (r: string)
    ensures url <= r && r[|url|..] == "&" + (name + "=" + value)
    ensures |value| <= |r| && r[|r| - |value|..] == value
  {
    url + ("&" + (name + "=" + value))
  }

  /** The query of a URL: the text after its first `?`, up to the `#` that
      starts the fragment (section 3.4 of RFC 3986). The fragment is cut off
      first, so a `#` before any `?` leaves no query. */
  function Query(url: string): (q: string)
    ensures |q| <= |url| && '#' !in q
    decreases |url|
  {
    if url == [] || url[0] == '#' then ""
    else if url[0] == '?' then
      SplitHeadBefore(url[1..], '#');
      Split(url[1..], '#')[0]
    else Query(url[1..])
  }

  /** The query parameters of a URL, in order. */
  function QueryParams(url: string): seq<string> {
    Split(Query(url), '&')
  }

  lemma {:induction false} QueryAfter(a: string, b: string)
    requires '?' !in a && '#' !in a
    ensures Query(a + "?" + b) == Split(b, '#')[0]
    decreases |a|
  {
    if a == [] {
      assert a + "?" + b == ['?'] + b;
    } else {
      assert a[0] != '?' && a[0] != '#' by {
        assert a[0] in a;
      }
      assert (a + "?" + b)[1..] == a[1..] + "?" + b;
      QueryAfter(a[1..], b);
    }
  }

  /** A path segment: text holding none of `/`, `?` and `#`. */
  predicate Segment(s: string) {
    '/' !in s && '?' !in s && '#' !in s
  }

  lemma HostPlain()
    ensures '?' !in Host && '#' !in Host
  {
  }

  /** The query of a URL built from `Client.Get`'s template is the key
      parameter followed by whatever was appended, up to the first `#`. */
  lemma QueryOfMethodUrl(c: Client, iface: string, meth: string, version: string, extra: string)
    requires Segment(iface) && Segment(meth) && Segment(version)
    ensures Query(MethodUrl(c, iface, meth, version) + extra) == Split("key=" + c.key + extra, '#')[0]
  {
    var path := Host + iface + "/" + meth + "/" + version + "/";
    HostPlain();
    assert '?' !in path && '#' !in path;
    assert MethodUrl(c, iface, meth, version) + extra == path + "?" + ("key=" + c.key + extra);
    QueryAfter(path, "key=" + c.key + extra);
  }

  /** The endpoint a request URL names: the `/`-separated pieces between the
      host and the first `?`. */
  function Endpoint(url: string): seq<string>
    requires Host <= url
  {
    Split(Split(url[|Host|..], '?')[0], '/')
  }

  /** The template read back, whatever is appended to it: the endpoint is the
      interface, method and version, each followed by `/`, and the query is
      the key parameter followed by the appended text, up to the first `#`. */
  lemma MethodUrlFields(c: Client, iface: string, meth: string, version: string, extra: string)
    requires Segment(iface) && Segment(meth) && Segment(version)
    ensures var url := MethodUrl(c, iface, meth, version) + extra;
      Host <= url && Endpoint(url) == [iface, meth, version, ""]
      && Query(url) == Split("key=" + c.key + extra, '#')[0]
  {
    var url := MethodUrl(c, iface, meth, version) + extra;
    var path := iface + "/" + meth + "/" + version + "/";
    assert url[|Host|..] == path + ['?'] + ("key=" + c.key + extra);
    assert '?' !in path;
    SplitHead(path, "key=" + c.key + extra, '?');
    SplitPair(iface, meth, '/');
    SplitSnoc(iface + "/" + meth, version, '/');
    SplitSnoc(iface + "/" + meth + "/" + version, "", '/');
    assert path == iface + "/" + meth + "/" + version + ['/'] + "";
    QueryOfMethodUrl(c, iface, meth, version, extra);
  }

  /** One parameter appended to the template: the query reads back as the key
      and then that parameter, when neither the key nor the parameter holds a
      `&` or a `#`. */
  lemma ParamQuery(c: Client, iface: string, meth: string, version: string, name: string, value: string)
    requires Segment(iface) && Segment(meth) && Segment(version)
    requires '&' !in c.key && '&' !in name && '&' !in value
    requires '#' !in c.key && '#' !in name && '#' !in value
    ensures QueryParams(WithParam(MethodUrl(c, iface, meth, version), name, value))
      == ["key=" + c.key, name + "=" + value]
  {
    var url := MethodUrl(c, iface, meth, version);
    var param := name + "=" + value;
    var k := "key=" + c.key;
    assert Query(url + ("&" + param)) == k + ("&" + param) by {
      QueryOfMethodUrl(c, iface, meth, version, "&" + param);
      assert k + ("&" + param) == "key=" + c.key + ("&" + param);
      SplitFree(k + ("&" + param), '#');
    }
    assert Split(k + ("&" + param), '&') == [k, param] by {
      assert '&' !in k && '&' !in param;
      assert k + ("&" + param) == k + ['&'] + param;
      SplitPair(k, param, '&');
    }
    assert QueryParams(WithParam(url, name, value)) == Split(k + ("&" + param), '&');
  }

  lemma FriendListSegments()
    ensures Segment("ISteamUser") && Segment("GetFriendList") && Segment("v1")
  {
  }

  lemma VanitySegments()
    ensures Segment("ISteamUser") && Segment("ResolveVanityURL") && Segment("v0001")
  {
  }

  lemma SummariesSegments()
    ensures Segment("ISteamUser") && Segment("GetPlayerSummaries") && Segment("v0002")
  {
  }

  /** The names of the parameters the client appends hold neither `&` nor `#`. */
  lemma ParamNames()
    ensures '&' !in "steamid" && '#' !in "steamid"
    ensures '&' !in "vanityurl" && '#' !in "vanityurl"
    ensures '&' !in "steamids" && '#' !in "steamids"
  {
  }

  /** The friend-list request: the template for `ISteamUser/GetFriendList/v1`
      and the user id in decimal. When the key holds neither `&` nor `#`, its
      query is the key and then the id, which parses back to the id requested. */
  function FriendListUrl(c: Client, userid: uint64): (url: string)
    ensures Host <= url && Endpoint(url) == ["ISteamUser", "GetFriendList", "v1", ""]
    ensures '&' !in c.key && '#' !in c.key ==>
      QueryParams(url) == ["key=" + c.key, "steamid" + "=" + FormatUint(userid)]
      && ParseUint(QueryParams(url)[1][8..]) == Some(userid)
  {
    var id := FormatUint(userid);
    FriendListSegments();
    ParamNames();
    MethodUrlFields(c, "ISteamUser", "GetFriendList", "v1", "&" + ("steamid" + "=" + id));
    if '&' in c.key || '#' in c.key then WithParam(MethodUrl(c, "ISteamUser", "GetFriendList", "v1"), "steamid", id)
    else
      NumeralFree(userid, '#');
      ParamQuery(c, "ISteamUser", "GetFriendList", "v1", "steamid", id);
      assert ("steamid" + "=" + id)[8..] == id;
      ParseFormatUint(userid);
      WithParam(MethodUrl(c, "ISteamUser", "GetFriendList", "v1"), "steamid", id)
  }

  /** The vanity request: the template for `ISteamUser/ResolveVanityURL/v0001`
      and the vanity text exactly as given, not percent-encoded: the URL ends
      with it. When neither the key nor the text holds `&` or `#`, its query
      is the key and then the vanity text. */
  function VanityUrl(c: Client, vanity: string): (url: string)
    ensures Host <= url && Endpoint(url) == ["ISteamUser", "ResolveVanityURL", "v0001", ""]
    ensures |vanity| <= |url| && url[|url| - |vanity|..] == vanity
    ensures '&' !in c.key && '&' !in vanity && '#' !in c.key && '#' !in vanity ==>
      QueryParams(url) == ["key=" + c.key, "vanityurl" + "=" + vanity]
  {
    var url := WithParam(MethodUrl(c, "ISteamUser", "ResolveVanityURL", "v0001"), "vanityurl", vanity);
    assert |vanity| <= |url| && url[|url| - |vanity|..] == vanity;
    VanitySegments();
    MethodUrlFields(c, "ISteamUser", "ResolveVanityURL", "v0001", "&" + ("vanityurl" + "=" + vanity));
    if '&' in c.key || '&' in vanity || '#' in c.key || '#' in vanity then url
    else
      ParamNames();
      ParamQuery(c, "ISteamUser", "ResolveVanityURL", "v0001", "vanityurl", vanity);
      url
  }

  /** Two pieces of text appended to the template, each after a `&`, read
      back as two query parameters after the key, when none of the three
      holds `&` or `#`. */
  lemma TwoParamQuery(c: Client, iface: string, meth: string, version: string, p: string, q: string)
    requires Segment(iface) && Segment(meth) && Segment(version)
    requires '&' !in c.key && '&' !in p && '&' !in q
    requires '#' !in c.key && '#' !in p && '#' !in q
    ensures QueryParams(MethodUrl(c, iface, meth, version) + ("&" + p + "&" + q))
      == ["key=" + c.key, p, q]
  {
    var url := MethodUrl(c, iface, meth, version);
    var k, extra := "key=" + c.key, "&" + p + "&" + q;
    assert Query(url + extra) == k + extra by {
      QueryOfMethodUrl(c, iface, meth, version, extra);
      assert k + extra == "key=" + c.key + extra;
      SplitFree(k + extra, '#');
    }
    assert Split(k + extra, '&') == [k, p, q] by {
      assert '&' !in k;
      assert k + extra == k + ['&'] + p + ['&'] + q;
      SplitTriple(k, p, q, '&');
    }
    assert QueryParams(url + extra) == Split(k + extra, '&');
  }

  lemma ValueWithAmpersand(url: string, name: string, a: string, b: string)
    ensures WithParam(url, name, a + "&" + b) == url + ("&" + (name + "=" + a) + "&" + b)
  {
  }

  /** Because the vanity text is not escaped, a `&` in it ends the vanity
      parameter, and the text after it becomes a query parameter of its own. */
  lemma VanityNotEscaped(c: Client, a: string, b: string)
    requires '&' !in c.key && '&' !in a && '&' !in b
    requires '#' !in c.key && '#' !in a && '#' !in b
    ensures QueryParams(VanityUrl(c, a + "&" + b)) == ["key=" + c.key, "vanityurl" + "=" + a, b]
  {
    var base := MethodUrl(c, "ISteamUser", "ResolveVanityURL", "v0001");
    var p := "vanityurl" + "=" + a;
    assert VanityUrl(c, a + "&" + b) == WithParam(base, "vanityurl", a + "&" + b);
    ValueWithAmpersand(base, "vanityurl", a, b);
    assert '&' !in "vanityurl" + "=";
    VanitySegments();
    ParamNames();
    TwoParamQuery(c, "ISteamUser", "ResolveVanityURL", "v0001", p, b);
  }

  /** Nor is a `#` escaped: it starts the fragment, so the vanity parameter
      ends before it and the text after it is not part of the query. */
  lemma VanityFragment(c: Client, a: string, b: string)
    requires '&' !in c.key && '&' !in a && '#' !in c.key && '#' !in a
    ensures QueryParams(VanityUrl(c, a + "#" + b)) == ["key=" + c.key, "vanityurl" + "=" + a]
  {
    var k, p := "key=" + c.key, "vanityurl" + "=" + a;
    var extra := "&" + ("vanityurl" + "=" + (a + "#" + b));
    VanitySegments();
    ParamNames();
    MethodUrlFields(c, "ISteamUser", "ResolveVanityURL", "v0001", extra);
    assert "key=" + c.key + extra == (k + "&" + p) + ['#'] + b;
    assert '#' !in k + "&" + p;
    SplitHead(k + "&" + p, b, '#');
    assert '&' !in k && '&' !in p;
    assert k + "&" + p == k + ['&'] + p;
    SplitPair(k, p, '&');
  }

  /** The summaries request: the template for
      `ISteamUser/GetPlayerSummaries/v0002` and the joined id list. */
  function SummariesUrl(c: Client, ids: string): (url: string)
    ensures Host <= url && Endpoint(url) == ["ISteamUser", "GetPlayerSummaries", "v0002", ""]
    ensures '&' !in c.key && '&' !in ids && '#' !in c.key && '#' !in ids ==>
      QueryParams(url) == ["key=" + c.key, "steamids" + "=" + ids]
  {
    SummariesSegments();
    ParamNames();
    MethodUrlFields(c, "ISteamUser", "GetPlayerSummaries", "v0002", "&" + ("steamids" + "=" + ids));
    if '&' in c.key || '&' in ids || '#' in c.key || '#' in ids then
      WithParam(MethodUrl(c, "ISteamUser", "GetPlayerSummaries", "v0002"), "steamids", ids)
    else
      ParamQuery(c, "ISteamUser", "GetPlayerSummaries", "v0002", "steamids", ids);
      WithParam(MethodUrl(c, "ISteamUser", "GetPlayerSummaries", "v0002"), "steamids", ids)
  }

  /** The base-10 renderings of the ids, in input order. */
  function IdStrings(ids: seq<uint64>): (parts: seq<string>)
    ensures |parts| == |ids| && FreeOf(parts, ',')
    ensures forall k :: 0 <= k < |ids| ==> Canonical(parts[k]) && ParseUint(parts[k]) == Some(ids[k])
  {
    var parts := seq(|ids|, i requires 0 <= i < |ids| => FormatUint(ids[i]));
    forall k | 0 <= k < |ids|
      ensures Canonical(parts[k]) && ParseUint(parts[k]) == Some(ids[k])
    {
      ParseFormatUint(ids[k]);
    }
    parts
  }

  /** The `steamids` value: the renderings joined by commas. */
  function IdList(ids: seq<uint64>): (s: string)
    ensures s == [] <==> ids == []
    ensures '&' !in s && '#' !in s
  {
    var parts := IdStrings(ids);
    assert FreeOf(parts, '&') && FreeOf(parts, '#');
    JoinFree(parts, ',', '&');
    JoinFree(parts, ',', '#');
    Join(parts, ',')
  }

  /** Splitting a non-empty id list on commas and parsing each piece gives back
      the ids, in order. */
  lemma IdListRoundTrip(ids: seq<uint64>)
    requires ids != []
    ensures var parts := Split(IdList(ids), ',');
      |parts| == |ids| && forall k :: 0 <= k < |ids| ==> ParseUint(parts[k]) == Some(ids[k])
  {
    SplitJoin(IdStrings(ids), ',');
  }

  /** A non-empty id list has one comma fewer than it has ids; the empty list
      is the empty string. */
  lemma IdListCommas(ids: seq<uint64>)
    ensures ids != [] ==> Count(IdList(ids), ',') == |ids| - 1
    ensures ids == [] ==> IdList(ids) == ""
  {
    if ids != [] {
      CountJoin(IdStrings(ids), ',');
    }
  }

  /** The message of the over-the-cap error is the fixed text followed by the
      number of ids in decimal. */
  lemma CapMessage(n: int)
    ensures IntVerbsOnly(CapFormat) && Sprintf(CapFormat, [n]) == CapText + FormatInt(n)
  {
    assert '%' !in CapText;
    SprintfOneInt(CapText, "", n);
    assert CapFormat == CapText + ("%d" + "");
    assert FormatInt(n) + "" == FormatInt(n);
  }

  lemma FriendListMessages()
    ensures '%' !in FriendListFailed && '%' !in FriendListUndecodable
  {
    assert forall i | 0 <= i < |FriendListFailed| :: FriendListFailed[i] != '%';
    assert forall i | 0 <= i < |FriendListUndecodable| :: FriendListUndecodable[i] != '%';
  }

  lemma VanityMessages()
    ensures '%' !in VanityFailed && '%' !in VanityUndecodable && '%' !in VanityNotResolved
  {
    assert forall i | 0 <= i < |VanityFailed| :: VanityFailed[i] != '%';
    assert forall i | 0 <= i < |VanityUndecodable| :: VanityUndecodable[i] != '%';
    assert forall i | 0 <= i < |VanityNotResolved| :: VanityNotResolved[i] != '%';
  }

  lemma SummariesMessages()
    ensures '%' !in SummariesFailed && '%' !in SummariesUndecodable
  {
    assert forall i | 0 <= i < |SummariesFailed| :: SummariesFailed[i] != '%';
    assert forall i | 0 <= i < |SummariesUndecodable| :: SummariesUndecodable[i] != '%';
  }

  /** `GetFriendList`: requests the friend-list URL; on success returns the
      decoded friends, on failure no friends and an error whose parent is the
      transport or decoding error. */
  function GetFriendList(c: Client, userid: uint64, reply: Reply<seq<PlayerFriend>>): (r: Call<seq<PlayerFriend>>)
    ensures r.request == Some(FriendListUrl(c, userid))
    ensures r.err.None? <==> reply.Decoded?
    ensures r.err.None? ==> r.value == reply.value
    ensures r.err.Some? ==> r.value == [] && r.err.value.ClientError? && r.err.value.parent == Some(reply.cause)
    ensures reply.TransportError? ==>
      Error(r.err.value) == Prefix + FriendListFailed + ": " + Error(reply.cause)
    ensures reply.BodyUndecodable? ==>
      Error(r.err.value) == Prefix + FriendListUndecodable + ": " + Error(reply.cause)
  {
    var url := FriendListUrl(c, userid);
    FriendListMessages();
    match reply
    case TransportError(cause) =>
      Call(Some(url), [], Some(ErrorfVerbatim(Some(cause), FriendListFailed)))
    case BodyUndecodable(cause) =>
      Call(Some(url), [], Some(ErrorfVerbatim(Some(cause), FriendListUndecodable)))
    case Decoded(friends) =>
      Call(Some(url), friends, None)
  }

  /** `ResolveVanityUrl`: requests the vanity URL; returns the decoded id only
      when the reply decoded and reports success 1, and otherwise id 0 and an
      error. A status other than 1 yields an error with no parent, whose text
      carries no cause. */
  function ResolveVanityUrl(c: Client, vanity: string, reply: Reply<VanityResponse>): (r: Call<uint64>)
    ensures r.request == Some(VanityUrl(c, vanity))
    ensures r.err.None? <==> reply.Decoded? && reply.value.success == 1
    ensures r.err.None? ==> r.value == reply.value.steamId
    ensures r.err.Some? ==> r.value == 0 && r.err.value.ClientError?
    ensures !reply.Decoded? ==> r.err.Some? && r.err.value.parent == Some(reply.cause)
    ensures reply.TransportError? ==>
      Error(r.err.value) == Prefix + VanityFailed + ": " + Error(reply.cause)
    ensures reply.BodyUndecodable? ==>
      Error(r.err.value) == Prefix + VanityUndecodable + ": " + Error(reply.cause)
    ensures reply.Decoded? && reply.value.success != 1 ==>
      r.err.Some? && r.err.value.parent.None?
      && Error(r.err.value) == Prefix + VanityNotResolved
  {
    var url := VanityUrl(c, vanity);
    VanityMessages();
    match reply
    case TransportError(cause) =>
      Call(Some(url), 0, Some(ErrorfVerbatim(Some(cause), VanityFailed)))
    case BodyUndecodable(cause) =>
      Call(Some(url), 0, Some(ErrorfVerbatim(Some(cause), VanityUndecodable)))
    case Decoded(v) =>
      if v.success != 1 then
        Call(Some(url), 0, Some(ErrorfVerbatim(None, VanityNotResolved)))
      else
        Call(Some(url), v.steamId, None)
  }

  /** `GetPlayerSummaries`: more than `MaxIds` ids fail before any request,
      with an error naming the count; otherwise the ids are rendered one by
      one, joined by commas into the summaries URL, and the decoded players or
      the wrapped transport or decoding error are returned. */
  method GetPlayerSummaries(c: Client, ids: seq<uint64>, reply: Reply<seq<PlayerSummary>>)
    returns (r: Call<seq<PlayerSummary>>)
    ensures r.request.None? <==> |ids| > MaxIds
    ensures |ids| <= MaxIds ==> r.request == Some(SummariesUrl(c, IdList(ids)))
    ensures r.err.None? <==> |ids| <= MaxIds && reply.Decoded?
    ensures r.err.None? ==> r.value == reply.value
    ensures r.err.Some? ==> r.value == [] && r.err.value.ClientError?
    ensures |ids| > MaxIds ==>
      r.err.Some? && r.err.value.parent.None? && Error(r.err.value) == Prefix + CapText + FormatInt(|ids|)
    ensures |ids| <= MaxIds && reply.TransportError? ==>
      r.err.Some? && r.err.value.parent == Some(reply.cause)
      && Error(r.err.value) == Prefix + SummariesFailed + ": " + Error(reply.cause)
    ensures |ids| <= MaxIds && reply.BodyUndecodable? ==>
      r.err.Some? && r.err.value.parent == Some(reply.cause)
      && Error(r.err.value) == Prefix + SummariesUndecodable + ": " + Error(reply.cause)
  {
    if |ids| > MaxIds {
      CapMessage(|ids|);
      return Call(None, [], Some(Errorf(None, CapFormat, [|ids|])));
    }
    var parts := new string[|ids|];
    for i := 0 to |ids|
      invariant forall k :: 0 <= k < i ==> parts[k] == FormatUint(ids[k])
    {
      parts[i] := FormatUint(ids[i]);
    }
    assert parts[..] == IdStrings(ids);
    var url := SummariesUrl(c, Join(parts[..], ','));
    SummariesMessages();
    match reply
    case TransportError(cause) =>
      r := Call(Some(url), [], Some(ErrorfVerbatim(Some(cause), SummariesFailed)));
    case BodyUndecodable(cause) =>
      r := Call(Some(url), [], Some(ErrorfVerbatim(Some(cause), SummariesUndecodable)));
    case Decoded(players) =>
      r := Call(Some(url), players, None);
  }
}
