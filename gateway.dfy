/**
 * The gateway client `TechnicolorCGA`: URI construction, the challenge cipher, the
 * two-round challenge-response login, and the category queries. HTTP is abstract: every
 * request the client issues is appended to `log`, and the gateway's answer to it is a
 * `Reply` value passed in by the caller. PBKDF2-HMAC is a parameter of type `Pbkdf2`.
 */
module Gateway {
  import opened Wrappers
  import opened Values
  import opened Strings
  import opened Encoding

  const DefaultRouter: string := "192.168.0.1"
  const UserAgent: string :=
    "Mozilla/5.0 (X11; Linux x86_64) AppleWebKit/537.36 (KHTML, like Gecko) Chrome/105.0.0.0 Safari/537.36"
  /** The headers the constructor installs on the session. */
  const InitialHeaders: map<string, string> :=
    map["User-Agent" := UserAgent, "X-Requested-With" := "XMLHttpRequest"]

  const SeekSaltHash: string := "seeksalthash"
  /** The fixed identity under which the challenge answer is posted. */
  const ChallengeUser: string := "user"
  const PbkdfHash: string := "sha256"
  const PbkdfIterations: nat := 1000
  const RebootTargets: string := "Router,Wifi,VoIP,Dect,MoCA"

  const SystemOptions: seq<string> := [
    "HardwareVersion", "FirmwareName", "CMMACAddress", "MACAddressRT", "UpTime", "LocalTime",
    "LanMode", "ModelName", "CMStatus", "ModelName", "Manufacturer", "SerialNumber",
    "SoftwareVersion", "BootloaderVersion", "CoreVersion", "FirmwareBuildTime",
    "ProcessorSpeed", "CMMACAddress", "Hardware", "MemTotal", "MemFree"]
  const LevelsOptions: seq<string> := ["exUSTbl", "exDSTbl", "USTbl", "DSTbl", "ErrTbl"]
  const DhcpOptions: seq<string> :=
    ["IPAddressRT", "SubnetMaskRT", "IPAddressGW", "DNSTblRT", "PoolEnable", "WanAddressMode"]
  const HostOptions: seq<string> := ["hostTbl", "LanMode", "MixedMode", "LanPortMode"]

  datatype Verb = Get | Post

  /** One request as issued: method, URI, form body, and the session headers it carried. */
  datatype Request = Request(verb: Verb, uri: string, form: map<string, string>, headers: map<string, string>)

  /**
   * The gateway's answer to one request: unreachable (requests raises), or a reply with a
   * body that `.json()` decodes (None when it does not) and the cookies it sets.
   */
  datatype Reply = Unreachable | Reply(body: Option<Value>, setCookies: map<string, string>)

  /** The part of the client that requests change: headers, cookie jar, request log, login flag. */
  datatype SessionState = SessionState(
    headers: map<string, string>, cookies: map<string, string>, log: seq<Request>, logged: bool)

  type DerivedKey = k: seq<byte> | |k| == 32 witness seq(32, _ => 0)

  /** `hashlib.pbkdf2_hmac(hash_name, password, salt, iterations)` with its default key length. */
  type Pbkdf2 = (string, seq<byte>, seq<byte>, nat) -> DerivedKey

  /** `endpoint(target, options)` for the client whose base URL is `server`. */
  function EndpointUri(server: string, target: string, options: seq<string>, now: nat): string {
    if options == [] then server + "/api/v1/" + target + "?_=" + Decimal(now)
    else server + "/api/v1/" + target + "/" + Join(options, ',') + "?_=" + Decimal(now)
  }

  /**
   * The URI is the category path, then (when there are options) one path segment that
   * splits on ',' back into the options in order, duplicates included, then the timestamp,
   * which reads back as `now`.
   */
  lemma EndpointRoundTrip(server: string, target: string, options: seq<string>, now: nat)
    requires forall i :: 0 <= i < |options| ==> ',' !in options[i]
    ensures options == [] ==> EndpointUri(server, target, options, now) == server + "/api/v1/" + target + "?_=" + Decimal(now)
    ensures options != [] ==>
      var segment := Join(options, ',');
      && EndpointUri(server, target, options, now) == server + "/api/v1/" + target + "/" + segment + "?_=" + Decimal(now)
      && Split(segment, ',') == options
    ensures IsDigits(Decimal(now)) && DigitsValue(Decimal(now)) == now
  {
    if options != [] {
      SplitJoin(options, ',');
    }
    DecimalRoundTrip(now);
  }

  /** `challenge(password, salt)`: the first 32 hex digits of the PBKDF2-HMAC-SHA256 key. */
  function Challenge(pbkdf2: Pbkdf2, password: string, salt: string): (c: string)
    ensures |c| == 32 && IsLowerHex(c)
    ensures Unhex(c) == Some(pbkdf2(PbkdfHash, Utf8(password), Utf8(salt), PbkdfIterations)[..16])
  {
    var key := pbkdf2(PbkdfHash, Utf8(password), Utf8(salt), PbkdfIterations);
    HexPrefix(key, 16);
    HexRoundTrip(key[..16]);
    Hex(key)[..32]
  }

  /** `request.json()`: the decoded body. */
  function Decode(reply: Reply): (r: Result<Value, Error>)
    ensures r.Success? <==> reply.Reply? && reply.body.Some?
    ensures r.Success? ==> r.value == reply.body.value
    ensures reply.Unreachable? ==> r == Failure(ConnectionError)
  {
    match reply
    case Unreachable => Failure(ConnectionError)
    case Reply(body, _) => if body.Some? then Success(body.value) else Failure(JsonDecodeError)
  }

  /** `response[key]` used as a `str` (it is `.encode`d next). */
  function TextAt(v: Value, key: string): (r: Result<string, Error>)
    ensures r.Success? <==> v.JObject? && key in v.fields && v.fields[key].JStr?
    ensures r.Success? ==> r.value == v.fields[key].s
  {
    var x :- Index(v, key);
    if x.JStr? then Success(x.s) else Failure(TypeError)
  }

  /** The first login reply, read as `response['salt']` and `response['saltwebui']`. */
  function Salts(reply: Reply): Result<(string, string), Error> {
    var v :- Decode(reply);
    var salt :- TextAt(v, "salt");
    var webui :- TextAt(v, "saltwebui");
    Success((salt, webui))
  }

  /** `response['error'] == 'ok'`, as both the second login reply and the reboot reply are read. */
  function ErrorIsOk(reply: Reply): (r: Result<bool, Error>)
    ensures r.Success? <==> reply.Reply? && reply.body.Some? && reply.body.value.JObject?
                            && "error" in reply.body.value.fields
    ensures r == Success(true) <==> reply.Reply? && reply.body.Some? && reply.body.value.JObject?
                                    && "error" in reply.body.value.fields && reply.body.value.fields["error"] == JStr("ok")
  {
    var v :- Decode(reply);
    var e :- Index(v, "error");
    Success(e == JStr("ok"))
  }

  /** `call`: the `data` entry of the decoded reply. */
  function DataOf(reply: Reply): (r: Result<Value, Error>)
    ensures r.Success? <==> reply.Reply? && reply.body.Some? && reply.body.value.JObject?
                            && "data" in reply.body.value.fields
    ensures r.Success? ==> r.value == reply.body.value.fields["data"]
    ensures reply.Reply? && reply.body.Some? && reply.body.value.JObject? && "data" !in reply.body.value.fields
            ==> r == Failure(KeyError("data"))
  {
    var v :- Decode(reply);
    Index(v, "data")
  }

  /** Issuing one request: it is logged with the current headers and its cookies land in the jar. */
  function Transmit(s: SessionState, verb: Verb, uri: string, form: map<string, string>, reply: Reply): (t: SessionState)
    ensures t.log == s.log + [Request(verb, uri, form, s.headers)]
    ensures t.headers == s.headers && t.logged == s.logged
    ensures t.cookies == if reply.Reply? then s.cookies + reply.setCookies else s.cookies
  {
    var sent := s.(log := s.log + [Request(verb, uri, form, s.headers)]);
    if reply.Reply? then sent.(cookies := s.cookies + reply.setCookies) else sent
  }

  function Credentials(username: string, password: string): map<string, string> {
    map["username" := username, "password" := password]
  }

  /**
   * `login()` as a function of the session before it, the three replies (the salt request,
   * the challenge answer, and the session-menu request) and the three clock readings that
   * `endpoint` takes for those requests.
   */
  function LoginSpec(s: SessionState, server: string, username: string, password: string,
                     pbkdf2: Pbkdf2, now1: nat, now2: nat, now3: nat, r1: Reply, r2: Reply, r3: Reply)
    : (SessionState, Result<bool, Error>)
  {
    var s1 := Transmit(s, Post, EndpointUri(server, "session", ["login"], now1), Credentials(username, SeekSaltHash), r1);
    match Salts(r1)
    case Failure(e) => (s1, Failure(e))
    case Success((salt, webui)) =>
      var answer := Challenge(pbkdf2, Challenge(pbkdf2, password, salt), webui);
      var s2 := Transmit(s1, Post, EndpointUri(server, "session", ["login"], now2), Credentials(ChallengeUser, answer), r2);
      Authorize(s2, server, now3, ErrorIsOk(r2), r3)
  }

  /**
   * The end of `login()` once the answer has been posted: the verdict read from the second
   * reply, the `auth` cookie installed as `X-CSRF-TOKEN`, and the session-menu request.
   */
  function Authorize(s: SessionState, server: string, now: nat, verdict: Result<bool, Error>, r3: Reply)
    : (SessionState, Result<bool, Error>)
  {
    match verdict
    case Failure(e) => (s, Failure(e))
    case Success(ok) =>
      if !ok then (s, Failure(InvalidCredentials))
      else if "auth" !in s.cookies then (s, Failure(KeyError("auth")))
      else
        var s3 := s.(headers := s.headers["X-CSRF-TOKEN" := s.cookies["auth"]]);
        var s4 := Transmit(s3, Get, EndpointUri(server, "session", ["menu"], now), map[], r3);
        if r3.Unreachable? then (s4, Failure(ConnectionError)) else (s4.(logged := true), Success(true))
  }

  /** The cookie jar after the two login replies have been received. */
  function JarAfterLogin(s: SessionState, r1: Reply, r2: Reply): map<string, string>
    requires r1.Reply? && r2.Reply?
  {
    s.cookies + r1.setCookies + r2.setCookies
  }

  /** Login only appends to the log, and its first request asks for the salts under the configured name. */
  lemma LoginStartsWithSaltRequest(s: SessionState, server: string, username: string, password: string,
                                   pbkdf2: Pbkdf2, now1: nat, now2: nat, now3: nat, r1: Reply, r2: Reply, r3: Reply)
    ensures var t := LoginSpec(s, server, username, password, pbkdf2, now1, now2, now3, r1, r2, r3).0;
      && |s.log| < |t.log| <= |s.log| + 3
      && t.log[..|s.log|] == s.log
      && t.log[|s.log|] == Request(Post, EndpointUri(server, "session", ["login"], now1),
                                   Credentials(username, SeekSaltHash), s.headers)
  {
    var s1 := Transmit(s, Post, EndpointUri(server, "session", ["login"], now1), Credentials(username, SeekSaltHash), r1);
    var t := LoginSpec(s, server, username, password, pbkdf2, now1, now2, now3, r1, r2, r3).0;
    if Salts(r1).Success? {
      var (salt, webui) := Salts(r1).value;
      var answer := Challenge(pbkdf2, Challenge(pbkdf2, password, salt), webui);
      var s2 := Transmit(s1, Post, EndpointUri(server, "session", ["login"], now2), Credentials(ChallengeUser, answer), r2);
      AuthorizeAppends(s2, server, now3, ErrorIsOk(r2), r3);
      assert t.log[..|s2.log|] == s2.log;
      assert t.log[..|s.log|] == s2.log[..|s.log|] == s.log;
      assert t.log[|s.log|] == s2.log[|s.log|] == s1.log[|s.log|];
    }
  }

  /** The end of login appends at most the session-menu request to the log. */
  lemma AuthorizeAppends(s: SessionState, server: string, now: nat, verdict: Result<bool, Error>, r3: Reply)
    ensures var t := Authorize(s, server, now, verdict, r3).0;
      |s.log| <= |t.log| <= |s.log| + 1 && t.log[..|s.log|] == s.log
  {
  }

  /**
   * When the first reply carries both salts, the second request posts, as the fixed user,
   * the password hashed with `salt` and that result hashed again with `saltwebui`.
   */
  lemma LoginAnswersChallenge(s: SessionState, server: string, username: string, password: string,
                              pbkdf2: Pbkdf2, now1: nat, now2: nat, now3: nat, r1: Reply, r2: Reply, r3: Reply, salt: string, webui: string)
    requires Salts(r1) == Success((salt, webui))
    ensures var t := LoginSpec(s, server, username, password, pbkdf2, now1, now2, now3, r1, r2, r3).0;
      && |t.log| >= |s.log| + 2
      && t.log[|s.log| + 1] == Request(Post, EndpointUri(server, "session", ["login"], now2),
                                       Credentials(ChallengeUser, Challenge(pbkdf2, Challenge(pbkdf2, password, salt), webui)),
                                       s.headers)
  {
  }

  /**
   * Login succeeds exactly when the salts arrive, the gateway answers `error == "ok"`, an
   * `auth` cookie has been set and the session menu is reachable. It then has installed the
   * cookie as `X-CSRF-TOKEN`, opened the menu with that header, and set the flag; it never
   * returns False.
   */
  lemma LoginSucceedsIff(s: SessionState, server: string, username: string, password: string,
                         pbkdf2: Pbkdf2, now1: nat, now2: nat, now3: nat, r1: Reply, r2: Reply, r3: Reply)
    ensures var (t, r) := LoginSpec(s, server, username, password, pbkdf2, now1, now2, now3, r1, r2, r3);
      && (r.Success? <==> Salts(r1).Success? && ErrorIsOk(r2) == Success(true)
                          && "auth" in JarAfterLogin(s, r1, r2) && r3.Reply?)
      && (r.Success? ==>
            && r.value && t.logged
            && t.headers == s.headers["X-CSRF-TOKEN" := JarAfterLogin(s, r1, r2)["auth"]]
            && |t.log| == |s.log| + 3
            && t.log[|s.log| + 2] == Request(Get, EndpointUri(server, "session", ["menu"], now3), map[], t.headers))
  {
    var (t, r) := LoginSpec(s, server, username, password, pbkdf2, now1, now2, now3, r1, r2, r3);
    if r.Success? {
      var v :| Decode(r1) == Success(v);
      assert r1.Reply?;
    }
  }

  /**
   * Any failed login leaves the flag as it was; the only failure after which the CSRF header
   * has been installed is the unreachable session menu.
   */
  lemma LoginFailureKeepsFlag(s: SessionState, server: string, username: string, password: string,
                              pbkdf2: Pbkdf2, now1: nat, now2: nat, now3: nat, r1: Reply, r2: Reply, r3: Reply)
    ensures var (t, r) := LoginSpec(s, server, username, password, pbkdf2, now1, now2, now3, r1, r2, r3);
      r.Failure? ==>
        && t.logged == s.logged
        && (t.headers == s.headers || (r.error == ConnectionError && r3.Unreachable? && |t.log| == |s.log| + 3))
  {
  }

  /** A rejected answer raises "invalid credentials" after exactly the two login POSTs. */
  lemma LoginRejected(s: SessionState, server: string, username: string, password: string,
                      pbkdf2: Pbkdf2, now1: nat, now2: nat, now3: nat, r1: Reply, r2: Reply, r3: Reply)
    requires Salts(r1).Success? && ErrorIsOk(r2) == Success(false)
    ensures var (t, r) := LoginSpec(s, server, username, password, pbkdf2, now1, now2, now3, r1, r2, r3);
      && r == Failure(InvalidCredentials)
      && t.headers == s.headers && t.logged == s.logged
      && |t.log| == |s.log| + 2
  {
  }

  /** With salts "a" and "b" the answer posted is `challenge(challenge(password, "a"), "b")`. */
  lemma LoginScriptedSalts(s: SessionState, server: string, username: string, password: string,
                           pbkdf2: Pbkdf2, now1: nat, now2: nat, now3: nat, r1: Reply, r2: Reply, r3: Reply)
    requires r1.Reply? && r1.body == Some(JObject(map["salt" := JStr("a"), "saltwebui" := JStr("b")]))
    ensures var t := LoginSpec(s, server, username, password, pbkdf2, now1, now2, now3, r1, r2, r3).0;
      && |t.log| >= |s.log| + 2
      && t.log[|s.log| + 1].form == Credentials(ChallengeUser, Challenge(pbkdf2, Challenge(pbkdf2, password, "a"), "b"))
  {
    assert Salts(r1) == Success(("a", "b"));
    LoginAnswersChallenge(s, server, username, password, pbkdf2, now1, now2, now3, r1, r2, r3, "a", "b");
  }

  class TechnicolorCga {
    const server: string
    const username: string
    const password: string
    var logged: bool
    var headers: map<string, string>
    var cookies: map<string, string>
    var log: seq<Request>

    constructor (username: string, password: string, router: string := DefaultRouter)
      ensures this.server == "http://" + router
      ensures this.username == username && this.password == password
      ensures !logged && headers == InitialHeaders && cookies == map[] && log == []
    {
      this.server := "http://" + router;
      this.username := username;
      this.password := password;
      logged := false;
      headers := InitialHeaders;
      cookies := map[];
      log := [];
    }

    function State(): SessionState
      reads this
    {
      SessionState(headers, cookies, log, logged)
    }

    function Endpoint(target: string, options: seq<string>, now: nat): string {
      EndpointUri(server, target, options, now)
    }

    /** `session.get` / `session.post` of one request. */
    method Send(verb: Verb, uri: string, form: map<string, string>, reply: Reply)
      modifies this
      ensures State() == Transmit(old(State()), verb, uri, form, reply)
    {
      log := log + [Request(verb, uri, form, headers)];
      if reply.Reply? {
        cookies := cookies + reply.setCookies;
      }
    }

    method Call(uri: string, reply: Reply) returns (r: Result<Value, Error>)
      modifies this
      ensures State() == Transmit(old(State()), Get, uri, map[], reply)
      ensures r == DataOf(reply)
    {
      Send(Get, uri, map[], reply);
      r := DataOf(reply);
    }

    /** `login()`; `now1`, `now2` and `now3` are the clock readings of its three `endpoint` calls. */
    method Login(pbkdf2: Pbkdf2, now1: nat, now2: nat, now3: nat, r1: Reply, r2: Reply, r3: Reply) returns (r: Result<bool, Error>)
      modifies this
      ensures (State(), r) == LoginSpec(old(State()), server, username, password, pbkdf2, now1, now2, now3, r1, r2, r3)
    {
      Send(Post, Endpoint("session", ["login"], now1), Credentials(username, SeekSaltHash), r1);
      var salts := Salts(r1);
      if salts.Failure? {
        return Failure(salts.error);
      }
      var (salt, webui) := salts.value;
      var answer := Challenge(pbkdf2, password, salt);
      answer := Challenge(pbkdf2, answer, webui);
      Send(Post, Endpoint("session", ["login"], now2), Credentials(ChallengeUser, answer), r2);
      r := OpenSession(now3, ErrorIsOk(r2), r3);
    }

    /** The end of `login()`: checks the verdict, installs the CSRF header and opens the menu. */
    method OpenSession(now: nat, verdict: Result<bool, Error>, r3: Reply) returns (r: Result<bool, Error>)
      modifies this
      ensures (State(), r) == Authorize(old(State()), server, now, verdict, r3)
    {
      if verdict.Failure? {
        return Failure(verdict.error);
      }
      if verdict.value {
        if "auth" !in cookies {
          return Failure(KeyError("auth"));
        }
        headers := headers["X-CSRF-TOKEN" := cookies["auth"]];
        Send(Get, Endpoint("session", ["menu"], now), map[], r3);
        if r3.Unreachable? {
          return Failure(ConnectionError);
        }
        logged := true;
        return Success(true);
      }
      return Failure(InvalidCredentials);
    }

    method System(now: nat, reply: Reply) returns (r: Result<Value, Error>)
      modifies this
      ensures State() == Transmit(old(State()), Get, Endpoint("system", SystemOptions, now), map[], reply)
      ensures r == DataOf(reply)
    {
      r := Call(Endpoint("system", SystemOptions, now), reply);
    }

    method Levels(now: nat, reply: Reply) returns (r: Result<Value, Error>)
      modifies this
      ensures State() == Transmit(old(State()), Get, Endpoint("modem", LevelsOptions, now), map[], reply)
      ensures r == DataOf(reply)
    {
      r := Call(Endpoint("modem", LevelsOptions, now), reply);
    }

    method Dhcp(now: nat, reply: Reply) returns (r: Result<Value, Error>)
      modifies this
      ensures State() == Transmit(old(State()), Get, Endpoint("dhcp/v4/1", DhcpOptions, now), map[], reply)
      ensures r == DataOf(reply)
    {
      r := Call(Endpoint("dhcp/v4/1", DhcpOptions, now), reply);
    }

    /** `aDev`: the host table query. */
    method HostTable(now: nat, reply: Reply) returns (r: Result<Value, Error>)
      modifies this
      ensures State() == Transmit(old(State()), Get, Endpoint("host", HostOptions, now), map[], reply)
      ensures r == DataOf(reply)
    {
      r := Call(Endpoint("host", HostOptions, now), reply);
    }

    method Reboot(now: nat, reply: Reply) returns (r: Result<bool, Error>)
      modifies this
      ensures State() == Transmit(old(State()), Post, Endpoint("reset", [], now), map["reboot" := RebootTargets], reply)
      ensures r == ErrorIsOk(reply)
    {
      Send(Post, Endpoint("reset", [], now), map["reboot" := RebootTargets], reply);
      r := ErrorIsOk(reply);
    }
  }
}
