/**
 * The session-server request URL the handler builds by string concatenation,
 * and a query parser that reads it back, so that the URL can be shown to carry
 * exactly the parameters `username`, `serverId` and, optionally, `ip`.
 */
module AuthUrl {
  import opened Wrappers

  const BaseUrl: string := "https://sessionserver.mojang.com/session/minecraft/hasJoined"

  /**
   * The URL as the handler concatenates it: base, `?username=`, the name,
   * `&serverId=`, the hash, then `&ip=` and the already form-encoded address
   * when one is supplied. That concatenation is the base URL, `?`, and the
   * `&`-joined parameters `username`, `serverId` and (when given) `ip`.
   */
  function RequestUrl(username: string, serverId: string, encodedIp: Option<string>): (url: string)
    ensures url == BaseUrl + "?" + JoinQuery(AuthParams(username, serverId, encodedIp))
  {
    var user := QueryParam("username", username);
    var server := QueryParam("serverId", serverId);
    var url := BaseUrl + "?username=" + username + "&serverId=" + serverId;
    match encodedIp
    case Some(ip) =>
      ThreeParamsAsQuery(BaseUrl, username, serverId, ip);
      assert AuthParams(username, serverId, encodedIp) == [user, server, QueryParam("ip", ip)];
      url + "&ip=" + ip
    case None =>
      TwoParamsAsQuery(BaseUrl, username, serverId);
      JoinTwo(user, server);
      assert AuthParams(username, serverId, encodedIp) == [user, server];
      url
  }

  datatype QueryParam = QueryParam(key: string, value: string)

  /** The parameters the request is meant to carry, in order. */
  function AuthParams(username: string, serverId: string, encodedIp: Option<string>): (ps: seq<QueryParam>)
  {
    [QueryParam("username", username), QueryParam("serverId", serverId)]
    + match encodedIp
      case Some(ip) => [QueryParam("ip", ip)]
      case None => []
  }

  function EncodeParam(p: QueryParam): (field: string) {
    p.key + "=" + p.value
  }

  function JoinQuery(ps: seq<QueryParam>): (q: string)
    requires |ps| > 0
    decreases |ps|
  {
    if |ps| == 1 then EncodeParam(ps[0]) else EncodeParam(ps[0]) + "&" + JoinQuery(ps[1..])
  }

  /** A parameter that survives the round trip: its key has no `=` or `&`, its value no `&`. */
  predicate Unambiguous(p: QueryParam) {
    '=' !in p.key && '&' !in p.key && '&' !in p.value
  }

  /** The first position of `c` in `s`. */
  function IndexOf(s: string, c: char): (i: nat)
    requires c in s
    ensures i < |s| && s[i] == c && c !in s[..i]
  {
    if s[0] == c then 0
    else
      var j := IndexOf(s[1..], c);
      assert s[..j + 1] == [s[0]] + s[1..][..j];
      j + 1
  }

  function SplitFields(s: string, sep: char): (fields: seq<string>)
    ensures |fields| > 0
    decreases |s|
  {
    if sep in s then
      var i := IndexOf(s, sep);
      [s[..i]] + SplitFields(s[i + 1..], sep)
    else [s]
  }

  function DecodeParam(field: string): (p: QueryParam) {
    if '=' in field then
      var i := IndexOf(field, '=');
      QueryParam(field[..i], field[i + 1..])
    else QueryParam(field, "")
  }

  function DecodeParams(fields: seq<string>): (ps: seq<QueryParam>)
    ensures |ps| == |fields|
  {
    if |fields| == 0 then [] else [DecodeParam(fields[0])] + DecodeParams(fields[1..])
  }

  lemma {:induction false} IndexOfPrefix(a: string, c: char, b: string)
    requires c !in a
    ensures c in a + [c] + b && IndexOf(a + [c] + b, c) == |a|
  {
    var s := a + [c] + b;
    assert s[|a|] == c;
    if a != [] {
      assert s[1..] == a[1..] + [c] + b;
      IndexOfPrefix(a[1..], c, b);
    }
  }

  lemma DecodeEncodeParam(p: QueryParam)
    requires Unambiguous(p)
    ensures DecodeParam(EncodeParam(p)) == p
    ensures '&' !in EncodeParam(p)
  {
    IndexOfPrefix(p.key, '=', p.value);
    var f := EncodeParam(p);
    assert f == p.key + ['='] + p.value;
    assert f[..|p.key|] == p.key;
    assert f[|p.key| + 1..] == p.value;
  }

  lemma SplitFieldsCons(field: string, rest: string)
    requires '&' !in field
    ensures SplitFields(field + "&" + rest, '&') == [field] + SplitFields(rest, '&')
  {
    var q := field + "&" + rest;
    assert q == field + ['&'] + rest;
    IndexOfPrefix(field, '&', rest);
    assert q[..|field|] == field;
    assert q[|field| + 1..] == rest;
  }

  lemma HeadAndTail<T>(s: seq<T>)
    requires |s| > 0
    ensures s == [s[0]] + s[1..]
  {
  }

  lemma DecodeParamsCons(field: string, fields: seq<string>)
    ensures DecodeParams([field] + fields) == [DecodeParam(field)] + DecodeParams(fields)
  {
    assert ([field] + fields)[1..] == fields;
  }

  /** Splitting and decoding a joined query gives back its parameters. */
  lemma {:induction false} QueryRoundTrip(ps: seq<QueryParam>)
    requires |ps| > 0
    requires forall i | 0 <= i < |ps| :: Unambiguous(ps[i])
    ensures DecodeParams(SplitFields(JoinQuery(ps), '&')) == ps
    decreases |ps|
  {
    var field := EncodeParam(ps[0]);
    DecodeEncodeParam(ps[0]);
    if |ps| == 1 {
      assert SplitFields(field, '&') == [field];
      DecodeParamsCons(field, []);
    } else {
      var rest := ps[1..];
      assert forall i | 0 <= i < |rest| :: rest[i] == ps[i + 1];
      QueryRoundTrip(rest);
      var tail := SplitFields(JoinQuery(rest), '&');
      assert JoinQuery(ps) == field + "&" + JoinQuery(rest);
      SplitFieldsCons(field, JoinQuery(rest));
      assert SplitFields(JoinQuery(ps), '&') == [field] + tail;
      DecodeParamsCons(field, tail);
      assert DecodeParams([field] + tail) == [ps[0]] + rest;
      HeadAndTail(ps);
    }
  }

  lemma SplitAtMark(base: string, query: string)
    ensures |base + "?" + query| > |base|
    ensures (base + "?" + query)[..|base| + 1] == base + "?"
    ensures (base + "?" + query)[|base| + 1..] == query
  {
  }

  lemma JoinTwo(a: QueryParam, b: QueryParam)
    ensures JoinQuery([a, b]) == EncodeParam(a) + "&" + EncodeParam(b)
  {
    assert [a, b][1..] == [b];
  }

  lemma JoinThree(a: QueryParam, b: QueryParam, c: QueryParam)
    ensures JoinQuery([a, b, c]) == EncodeParam(a) + "&" + (EncodeParam(b) + "&" + EncodeParam(c))
  {
    assert [a, b, c][1..] == [b, c];
    JoinTwo(b, c);
  }

  lemma UserPart(base: string, username: string)
    ensures base + "?username=" + username == base + "?" + EncodeParam(QueryParam("username", username))
  {
    assert "?" + ("username" + "=") == "?username=";
  }

  lemma PairPart(prefix: string, sep: string, key: string, value: string)
    ensures prefix + (sep + key + "=") + value == prefix + sep + EncodeParam(QueryParam(key, value))
  {
  }

  lemma TwoParamsAsQuery(base: string, username: string, serverId: string)
    ensures base + "?username=" + username + "&serverId=" + serverId
         == base + "?" + EncodeParam(QueryParam("username", username)) + "&" + EncodeParam(QueryParam("serverId", serverId))
  {
    UserPart(base, username);
    assert "&serverId=" == "&" + "serverId" + "=";
    PairPart(base + "?username=" + username, "&", "serverId", serverId);
  }

  lemma Regroup(head: string, x: string, sep: string, y: string, z: string)
    ensures head + x + sep + y + sep + z == head + (x + sep + (y + sep + z))
  {
  }

  lemma ThirdParam(two: string, head: string, user: string, server: string, ip: string)
    requires two == head + user + "&" + server
    ensures two + "&ip=" + ip == head + (user + "&" + (server + "&" + EncodeParam(QueryParam("ip", ip))))
  {
    assert "&ip=" == "&" + "ip" + "=";
    PairPart(two, "&", "ip", ip);
    Regroup(head, user, "&", server, EncodeParam(QueryParam("ip", ip)));
  }

  lemma ThreeParamsAsQuery(base: string, username: string, serverId: string, ip: string)
    ensures base + "?username=" + username + "&serverId=" + serverId + "&ip=" + ip
         == base + "?" + JoinQuery([QueryParam("username", username), QueryParam("serverId", serverId), QueryParam("ip", ip)])
  {
    var user := EncodeParam(QueryParam("username", username));
    var server := EncodeParam(QueryParam("serverId", serverId));
    TwoParamsAsQuery(base, username, serverId);
    ThirdParam(base + "?username=" + username + "&serverId=" + serverId, base + "?", user, server, ip);
    JoinThree(QueryParam("username", username), QueryParam("serverId", serverId), QueryParam("ip", ip));
  }

  lemma AuthParamsUnambiguous(username: string, serverId: string, encodedIp: Option<string>)
    requires '&' !in username && '&' !in serverId
    requires encodedIp.Some? ==> '&' !in encodedIp.value
    ensures forall i | 0 <= i < |AuthParams(username, serverId, encodedIp)| :: Unambiguous(AuthParams(username, serverId, encodedIp)[i])
  {
    var ps := AuthParams(username, serverId, encodedIp);
    assert Unambiguous(ps[0]) && Unambiguous(ps[1]);
    assert |ps| == 3 ==> Unambiguous(ps[2]);
  }

  /**
   * When the name, hash and encoded address contain no `&`, the request URL is
   * the base URL and `?` followed by a query that splits and decodes back to
   * exactly the intended parameters, in order.
   */
  lemma RequestUrlRoundTrip(username: string, serverId: string, encodedIp: Option<string>)
    requires '&' !in username && '&' !in serverId
    requires encodedIp.Some? ==> '&' !in encodedIp.value
    ensures var url := RequestUrl(username, serverId, encodedIp);
            && |url| > |BaseUrl|
            && url[..|BaseUrl| + 1] == BaseUrl + "?"
            && DecodeParams(SplitFields(url[|BaseUrl| + 1..], '&')) == AuthParams(username, serverId, encodedIp)
  {
    var ps := AuthParams(username, serverId, encodedIp);
    SplitAtMark(BaseUrl, JoinQuery(ps));
    AuthParamsUnambiguous(username, serverId, encodedIp);
    QueryRoundTrip(ps);
  }
}
