/** The HTTP backend (src/com/_17od/upm/transport/HTTPTransport.java): a
    small bespoke protocol over HTTP POST and GET, spoken through a pooled
    HttpClient to a server that is modelled as a script of replies. */
module Http {
  import opened Wrappers
  import opened Text
  import opened Transport
  import opened Urls

  const SC_OK: nat := 200

  /** The server-side scripts the backend posts to. */
  const UploadScript: string := "upload.php"
  const DeleteScript: string := "deletefile.php"

  /** The response bodies of the bespoke protocol. */
  const Accepted: string := "OK"
  const FileWasntMoved: string := "FILE_WASNT_MOVED"

  /** Reason phrases of `HttpStatus.getStatusText` for the common codes. */
  const ReasonPhrases: map<nat, string> := map[
    200 := "OK", 201 := "Created", 204 := "No Content",
    301 := "Moved Permanently", 302 := "Moved Temporarily", 304 := "Not Modified",
    400 := "Bad Request", 401 := "Unauthorized", 403 := "Forbidden", 404 := "Not Found",
    405 := "Method Not Allowed", 407 := "Proxy Authentication Required", 408 := "Request Timeout",
    500 := "Internal Server Error", 501 := "Not Implemented", 502 := "Bad Gateway",
    503 := "Service Unavailable", 504 := "Gateway Timeout"]

  /** `HttpStatus.getStatusText(status)` as it reads after string
      concatenation: an unknown code gives null, which prints as "null". */
  function StatusText(status: nat): string {
    if status in ReasonPhrases then ReasonPhrases[status] else "null"
  }

  /** What `executeMethod` gives: a status and a body, or the
      HttpException or IOException it throws. */
  datatype Reply = Answer(status: nat, body: seq<byte>) | Broken(reason: string)

  /** The body of a request: one multipart file field, or form
      parameters. */
  datatype Entity =
    | FilePart(field: string, fileName: string, content: seq<byte>)
    | Form(parameters: seq<(string, string)>)

  /** A request as the server receives it. */
  datatype HttpRequest = PostMethod(url: string, entity: Entity) | GetMethod(url: string)

  /** The reply the server gives next; once its script is used up the
      connection fails. */
  function NextReply(script: seq<Reply>): Reply {
    if script == [] then Broken("Connection refused") else script[0]
  }

  function Later(script: seq<Reply>): seq<Reply> {
    if script == [] then [] else script[1..]
  }

  /** The remote server: the replies it will give, in order, and the
      requests it has received. */
  class HttpServer {
    var script: seq<Reply>
    var log: seq<HttpRequest>

    constructor (script: seq<Reply>)
      ensures this.script == script && log == []
    {
      this.script := script;
      log := [];
    }

    method Serve(request: HttpRequest) returns (reply: Reply)
      modifies this
      ensures log == old(log) + [request]
      ensures reply == NextReply(old(script)) && script == Later(old(script))
    {
      reply := NextReply(script);
      script := Later(script);
      log := log + [request];
    }
  }

  /** `MultiThreadedHttpConnectionManager`, reduced to the number of pooled
      connections that are leased out. */
  class ConnectionManager {
    var leased: nat

    constructor ()
      ensures leased == 0
    {
      leased := 0;
    }
  }

  datatype ProxyHost = ProxyHost(host: string, port: int)

  /** `HttpClient` and the parts of its host configuration, state and
      parameters that the backend sets. */
  class HttpClient {
    const manager: ConnectionManager
    var proxy: Option<ProxyHost>
    /** Proxy credentials, for any authentication scope. */
    var proxyCredentials: Option<Credentials>
    var credentials: map<AuthScope, Credentials>
    var preemptive: bool

    constructor (manager: ConnectionManager)
      ensures this.manager == manager
      ensures proxy == None && proxyCredentials == None && credentials == map[] && !preemptive
    {
      this.manager := manager;
      proxy := None;
      proxyCredentials := None;
      credentials := map[];
      preemptive := false;
    }

    /** `executeMethod`: leases a connection for the request unless it
        holds one already, and sends it to the server. */
    method ExecuteMethod(m: HttpMethod, server: HttpServer) returns (reply: Reply)
      requires m.lease == null || m.lease == manager
      modifies m, manager, server
      ensures m.request == old(m.request) && m.lease == manager && m.response == Some(reply)
      ensures manager.leased == old(manager.leased) + (if old(m.lease) == null then 1 else 0)
      ensures server.log == old(server.log) + [m.request]
      ensures reply == NextReply(old(server.script)) && server.script == Later(old(server.script))
    {
      if m.lease == null {
        manager.leased := manager.leased + 1;
        m.lease := manager;
      }
      reply := server.Serve(m.request);
      m.response := Some(reply);
    }
  }

  /** `PostMethod` and `GetMethod`: a request, its last response, and the
      pooled connection it holds, if any. */
  class HttpMethod {
    var request: HttpRequest
    var response: Option<Reply>
    var lease: ConnectionManager?

    constructor (request: HttpRequest)
      ensures this.request == request && response == None && lease == null
    {
      this.request := request;
      response := None;
      lease := null;
    }

    method SetRequestEntity(entity: Entity)
      requires request.PostMethod?
      modifies this
      ensures request == PostMethod(old(request).url, entity)
      ensures response == old(response) && lease == old(lease)
    {
      request := PostMethod(request.url, entity);
    }

    method AddParameter(name: string, value: string)
      requires request.PostMethod? && request.entity.Form?
      modifies this
      ensures request == PostMethod(old(request).url, Form(old(request).entity.parameters + [(name, value)]))
      ensures response == old(response) && lease == old(lease)
    {
      request := PostMethod(request.url, Form(request.entity.parameters + [(name, value)]));
    }

    /** `releaseConnection`: gives the connection back to its pool. */
    method ReleaseConnection()
      requires lease != null ==> lease.leased > 0
      modifies this, lease
      ensures lease == null && request == old(request) && response == old(response)
      ensures old(lease) != null ==> old(lease).leased == old(lease.leased) - 1
    {
      if lease != null {
        lease.leased := lease.leased - 1;
        lease := null;
      }
    }
  }

  // ---------------------------------------------------------------------
  // Construction: the proxy settings

  /** The proxy preferences as read; `None` for a preference that is not
      set. The stored password is Base64-encoded. */
  datatype ProxySettings = ProxySettings(
    enabled: bool, host: Option<string>, port: Option<string>,
    username: Option<string>, password: Option<string>)

  /** What the constructor configures on its client. */
  datatype ProxySetup = ProxySetup(proxy: Option<ProxyHost>, credentials: Option<Credentials>)

  /** The unchecked exceptions the constructor can throw: a
      NullPointerException from decoding an unset password, and a
      NumberFormatException from `Integer.parseInt` on the port. */
  datatype ConstructionError = NullProxyPassword | BadProxyPort(port: string)

  /** The constructor's proxy decision. `decode` is the Base64 decoding of
      the stored password. */
  function ProxyDecision(settings: ProxySettings, decode: string -> string): (r: Result<ProxySetup, ConstructionError>)
    ensures !settings.enabled ==> r == Ok(ProxySetup(None, None))
    ensures r.Err? <==>
      && settings.enabled
      && (settings.password.None?
          || (IsNotEmpty(settings.host) && IsNotEmpty(settings.port) && ParseInt(settings.port.value).None?))
    ensures r.Ok? ==> (r.value.proxy.Some? <==> settings.enabled && IsNotEmpty(settings.host) && IsNotEmpty(settings.port))
    ensures r.Ok? && r.value.proxy.Some? ==>
      r.value.proxy.value == ProxyHost(settings.host.value, ParseInt(settings.port.value).value)
    ensures r.Ok? ==> (r.value.credentials.Some? <==>
      r.value.proxy.Some? && IsNotEmpty(settings.username) && IsNotEmpty(settings.password))
    ensures r.Ok? && r.value.credentials.Some? ==>
      r.value.credentials.value == Credentials(settings.username.value, Some(decode(settings.password.value)))
  {
    if !settings.enabled then Ok(ProxySetup(None, None))
    else if settings.password.None? then Err(NullProxyPassword)
    else
      var decodedPassword := decode(settings.password.value);
      if !IsNotEmpty(settings.host) || !IsNotEmpty(settings.port) then Ok(ProxySetup(None, None))
      else match ParseInt(settings.port.value)
        case None => Err(BadProxyPort(settings.port.value))
        case Some(port) =>
          var proxy := Some(ProxyHost(settings.host.value, port));
          if IsNotEmpty(settings.username) && IsNotEmpty(settings.password) then
            Ok(ProxySetup(proxy, Some(Credentials(settings.username.value, Some(decodedPassword)))))
          else Ok(ProxySetup(proxy, None))
  }

  /** The proxy part of the constructor, step by step on the client. */
  method ConfigureProxy(client: HttpClient, settings: ProxySettings, decode: string -> string)
    requires ProxyDecision(settings, decode).Ok?
    modifies client
    ensures var setup := ProxyDecision(settings, decode).value;
      && client.proxy == (if setup.proxy.Some? then setup.proxy else old(client.proxy))
      && client.proxyCredentials == (if setup.credentials.Some? then setup.credentials else old(client.proxyCredentials))
    ensures client.credentials == old(client.credentials) && client.preemptive == old(client.preemptive)
  {
    if settings.enabled {
      var proxyHost := settings.host;
      var proxyPortStr := settings.port;
      var proxyUserName := settings.username;
      var proxyPassword := settings.password;
      var decodedPassword := decode(proxyPassword.value);
      if IsNotEmpty(proxyHost) {
        if IsNotEmpty(proxyPortStr) {
          var proxyPort := ParseInt(proxyPortStr.value).value;
          client.proxy := Some(ProxyHost(proxyHost.value, proxyPort));
          if IsNotEmpty(proxyUserName) && IsNotEmpty(proxyPassword) {
            client.proxyCredentials := Some(Credentials(proxyUserName.value, Some(decodedPassword)));
          }
        }
      }
    }
  }

  // ---------------------------------------------------------------------
  // The bespoke protocol, as functions of the server's script

  /** The reply that makes `put` send its request a second time. */
  predicate AsksForRetry(reply: Reply) {
    reply.Answer? && reply.status == SC_OK && Latin1(reply.body) == FileWasntMoved
  }

  /** How many times `put` executes its request against a server that will
      answer with `script`. */
  function UploadExecutions(script: seq<Reply>): nat {
    if AsksForRetry(NextReply(script)) then 2 else 1
  }

  /** The reply `put` judges: the second one if it retried. */
  function UploadReply(script: seq<Reply>): Reply {
    if AsksForRetry(NextReply(script)) then NextReply(Later(script)) else NextReply(script)
  }

  /** The replies left after `put`. */
  function UploadRemaining(script: seq<Reply>): seq<Reply> {
    if AsksForRetry(NextReply(script)) then Later(Later(script)) else Later(script)
  }

  /** The wording of the two failures a POST reports. */
  datatype PostMessages = PostMessages(statusPrefix: string, bodyPrefix: string)

  const UploadMessages := PostMessages(
    "There's been some kind of problem uploading a file to the HTTP server.\n\nThe HTTP error message is [",
    "There's been some kind of problem uploading a file to the HTTP server.\n\nThe error message is [")

  const DeleteMessages := PostMessages(
    "There's been some kind of problem deleting a file on the HTTP server.\n\nThe HTTP error message is [",
    "There's been some kind of problem deleting a file to the HTTP server.\n\nThe error message is [")

  /** How `put` and `delete` judge the reply: success is status 200 with
      body exactly "OK"; any other status fails naming the status, any
      other body fails naming the body. */
  function PostVerdict(reply: Reply, messages: PostMessages): (o: Outcome<TransportException>)
    ensures o.Pass? <==> reply.Answer? && reply.status == SC_OK && Latin1(reply.body) == Accepted
    ensures reply.Broken? ==> o == Fail(Wrapped(Io(reply.reason)))
    ensures reply.Answer? && reply.status != SC_OK ==>
      o.Fail? && o.error.Failure? && Contains(o.error.message, StatusText(reply.status))
    ensures reply.Answer? && reply.status == SC_OK && Latin1(reply.body) != Accepted ==>
      o.Fail? && o.error.Failure? && Contains(o.error.message, Latin1(reply.body))
  {
    match reply
    case Broken(reason) => Fail(Wrapped(Io(reason)))
    case Answer(status, body) =>
      if status != SC_OK then
        ContainsMiddle(messages.statusPrefix, StatusText(status), "]");
        Fail(Failure(messages.statusPrefix + StatusText(status) + "]"))
      else if Latin1(body) != Accepted then
        ContainsMiddle(messages.bodyPrefix, Latin1(body), "]");
        Fail(Failure(messages.bodyPrefix + Latin1(body) + "]"))
      else Pass
  }

  const GetHead: string := "There's been some kind of problem getting the URL ["
  const GetMiddle: string := "].\n\nThe HTTP error message is ["

  /** The message `get` fails with on a status other than 200. */
  function GetStatusMessage(url: string, status: nat): string {
    GetHead + url + GetMiddle + StatusText(status) + "]"
  }

  /** That message names both the URL and the status text. */
  lemma GetStatusMessageMentions(url: string, status: nat)
    ensures Contains(GetStatusMessage(url, status), url)
    ensures Contains(GetStatusMessage(url, status), StatusText(status))
  {
    var text := StatusText(status);
    var m := GetStatusMessage(url, status);
    assert m == GetHead + url + (GetMiddle + text + "]");
    ContainsMiddle(GetHead, url, GetMiddle + text + "]");
    assert m == (GetHead + url + GetMiddle) + text + "]";
    ContainsMiddle(GetHead + url + GetMiddle, text, "]");
  }

  /** How `get` judges the reply: the body verbatim on status 200, a
      failure naming the URL and the status otherwise. */
  function FetchVerdict(url: string, reply: Reply): (r: Result<seq<byte>, TransportException>)
    ensures r.Ok? <==> reply.Answer? && reply.status == SC_OK
    ensures r.Ok? ==> r.value == reply.body
    ensures reply.Broken? ==> r == Err(Wrapped(Io(reply.reason)))
    ensures reply.Answer? && reply.status != SC_OK ==>
      r.Err? && r.error.Failure? && Contains(r.error.message, StatusText(reply.status))
      && Contains(r.error.message, url)
  {
    match reply
    case Broken(reason) => Err(Wrapped(Io(reason)))
    case Answer(status, body) =>
      if status != SC_OK then
        GetStatusMessageMentions(url, status);
        Err(Failure(GetStatusMessage(url, status)))
      else Ok(body)
  }

  /** The credentials the client holds after a request to `url`: when a
      user name is given they are stored for the URL's host and port. */
  function CredentialsAfter(held: map<AuthScope, Credentials>, url: string, username: Option<string>,
                            password: Option<string>): map<AuthScope, Credentials>
  {
    if username.Some? && ScopeOf(url).Some? then held[ScopeOf(url).value := Credentials(username.value, password)]
    else held
  }

  /** Whether a request with these credentials gets past `new URL(url)`:
      the URL is parsed only when a user name is given. */
  predicate CanAuthenticate(url: string, username: Option<string>) {
    username.None? || ScopeOf(url).Some?
  }

  /** Whether authentication is preemptive after a request to `url`: it is
      turned on, for good, by any request that stores credentials. */
  function PreemptiveAfter(preemptive: bool, url: string, username: Option<string>): (p: bool)
    ensures p <==> preemptive || (username.Some? && CanAuthenticate(url, username))
  {
    preemptive || (username.Some? && ScopeOf(url).Some?)
  }

  function UploadUrl(targetLocation: string): (url: string)
    requires targetLocation != ""
    ensures JoinedWithOneSlash(targetLocation, UploadScript, url)
  {
    AddTrailingSlash(targetLocation) + UploadScript
  }

  function DeleteUrl(targetLocation: string): (url: string)
    requires targetLocation != ""
    ensures JoinedWithOneSlash(targetLocation, DeleteScript, url)
  {
    AddTrailingSlash(targetLocation) + DeleteScript
  }

  /** The request `put` sends: the file as the multipart field
      "userfile". */
  function UploadPost(url: string, name: string, content: seq<byte>): (r: HttpRequest)
    ensures r.PostMethod? && r.url == url && r.entity.FilePart?
    ensures r.entity.field == "userfile" && r.entity.fileName == name && r.entity.content == content
  {
    PostMethod(url, FilePart("userfile", name, content))
  }

  /** The request `delete` sends: the name as the form parameter
      "fileToDelete". */
  function DeletePost(url: string, name: string): (r: HttpRequest)
    ensures r.PostMethod? && r.url == url && r.entity.Form?
    ensures r.entity.parameters == [("fileToDelete", name)]
  {
    PostMethod(url, Form([("fileToDelete", name)]))
  }

  /** `put` executes once, a second time only after a 200
      "FILE_WASNT_MOVED", and never a third time. */
  lemma RetryIsOneShot(script: seq<Reply>)
    ensures 1 <= UploadExecutions(script) <= 2
    ensures UploadExecutions(script) == 2 <==> AsksForRetry(NextReply(script))
    ensures UploadExecutions(script) == 1 ==> UploadReply(script) == NextReply(script)
  {
  }

  /** A server that asks for the retry once and then accepts: `put`
      succeeds after two executions. */
  lemma RetryThenAccept(script: seq<Reply>)
    requires |script| >= 2 && AsksForRetry(script[0])
    requires script[1].Answer? && script[1].status == SC_OK && Latin1(script[1].body) == Accepted
    ensures UploadExecutions(script) == 2 && PostVerdict(UploadReply(script), UploadMessages) == Pass
  {
  }

  /** A server that asks for the retry every time: `put` fails after
      exactly two executions, naming the sentinel body. */
  lemma PersistentQuirkFails(script: seq<Reply>)
    requires |script| >= 2 && AsksForRetry(script[0]) && AsksForRetry(script[1])
    ensures UploadExecutions(script) == 2
    ensures var o := PostVerdict(UploadReply(script), UploadMessages);
      o.Fail? && o.error.Failure? && Contains(o.error.message, FileWasntMoved)
  {
  }

  /** A status other than 200 on the first reply: no retry, and a failure
      naming the status. */
  lemma StatusFailureIsNotRetried(script: seq<Reply>)
    requires script != [] && script[0].Answer? && script[0].status != SC_OK
    ensures UploadExecutions(script) == 1
    ensures var o := PostVerdict(UploadReply(script), UploadMessages);
      o.Fail? && Contains(o.error.message, StatusText(script[0].status))
  {
  }

  // ---------------------------------------------------------------------
  // The backend

  class HTTPTransport {
    const client: HttpClient

    /** The constructor: a fresh pooled client with the proxy settings
        applied. Settings under which Java throws are excluded; the errors
        themselves are stated by ProxyDecision. */
    constructor (settings: ProxySettings, decode: string -> string)
      requires ProxyDecision(settings, decode).Ok?
      ensures fresh(client) && fresh(client.manager) && client.manager.leased == 0
      ensures client.proxy == ProxyDecision(settings, decode).value.proxy
      ensures client.proxyCredentials == ProxyDecision(settings, decode).value.credentials
      ensures client.credentials == map[] && !client.preemptive
    {
      var manager := new ConnectionManager();
      var c := new HttpClient(manager);
      ConfigureProxy(c, settings, decode);
      client := c;
    }

    /** The authentication step shared by the three requests: with a user
        name, store the credentials for the URL's host and port and turn
        on preemptive authentication; fails where Java's `new URL` throws. */
    method SetAuthentication(url: string, username: Option<string>, password: Option<string>) returns (ok: bool)
      modifies client
      ensures ok <==> CanAuthenticate(url, username)
      ensures client.credentials == CredentialsAfter(old(client.credentials), url, username, password)
      ensures client.preemptive == PreemptiveAfter(old(client.preemptive), url, username)
      ensures client.proxy == old(client.proxy) && client.proxyCredentials == old(client.proxyCredentials)
    {
      ok := true;
      if username.Some? {
        var scope := ScopeOf(url);
        if scope.None? {
          ok := false;
        } else {
          client.credentials := client.credentials[scope.value := Credentials(username.value, password)];
          client.preemptive := true;
        }
      }
    }

    /** `put`: POST the file to upload.php at the location, once more after
        a 200 "FILE_WASNT_MOVED", and release the connection whatever
        happens. */
    method Put(targetLocation: string, file: LocalFile, username: Option<string>, password: Option<string>,
               server: HttpServer) returns (outcome: Outcome<TransportException>)
      requires targetLocation != ""
      modifies client, client.manager, server
      ensures client.manager.leased == old(client.manager.leased)
      ensures client.proxy == old(client.proxy) && client.proxyCredentials == old(client.proxyCredentials)
      ensures var url := UploadUrl(targetLocation);
        file.content.Some? ==> client.credentials == CredentialsAfter(old(client.credentials), url, username, password)
      ensures var url := UploadUrl(targetLocation);
        file.content.Some? ==> client.preemptive == PreemptiveAfter(old(client.preemptive), url, username)
      ensures file.content.None? ==> client.credentials == old(client.credentials) && client.preemptive == old(client.preemptive)
      ensures file.content.None? ==> outcome == Fail(Wrapped(FileNotFound(file.path)))
      ensures var url := UploadUrl(targetLocation);
        file.content.Some? && !CanAuthenticate(url, username) ==> outcome == Fail(Wrapped(MalformedUrl(url)))
      ensures var url := UploadUrl(targetLocation);
        !(file.content.Some? && CanAuthenticate(url, username)) ==>
          server.log == old(server.log) && server.script == old(server.script)
      ensures var url := UploadUrl(targetLocation);
        file.content.Some? && CanAuthenticate(url, username) ==>
          var request := UploadPost(url, file.name, file.content.value);
          && server.log == old(server.log) + (if UploadExecutions(old(server.script)) == 2 then [request, request] else [request])
          && server.script == UploadRemaining(old(server.script))
          && outcome == PostVerdict(UploadReply(old(server.script)), UploadMessages)
    {
      var url := AddTrailingSlash(targetLocation) + UploadScript;
      var post := new HttpMethod(PostMethod(url, Form([])));
      if file.content.None? {
        outcome := Fail(Wrapped(FileNotFound(file.path)));
      } else {
        post.SetRequestEntity(FilePart("userfile", file.name, file.content.value));
        var authenticated := SetAuthentication(url, username, password);
        if !authenticated {
          outcome := Fail(Wrapped(MalformedUrl(url)));
        } else {
          var reply := client.ExecuteMethod(post, server);
          if reply.Answer? && reply.status == SC_OK && Latin1(reply.body) == FileWasntMoved {
            reply := client.ExecuteMethod(post, server);
          }
          if reply.Broken? {
            outcome := Fail(Wrapped(Io(reply.reason)));
          } else if reply.status != SC_OK {
            outcome := Fail(Failure(UploadMessages.statusPrefix + StatusText(reply.status) + "]"));
          } else if Latin1(reply.body) != Accepted {
            outcome := Fail(Failure(UploadMessages.bodyPrefix + Latin1(reply.body) + "]"));
          } else {
            outcome := Pass;
          }
        }
      }
      post.ReleaseConnection();
    }

    /** `get`: GET the URL once; the body verbatim on 200; the connection
        is released whatever happens. */
    method Get(url: string, username: Option<string>, password: Option<string>, server: HttpServer)
      returns (result: Result<seq<byte>, TransportException>)
      modifies client, client.manager, server
      ensures client.manager.leased == old(client.manager.leased)
      ensures client.proxy == old(client.proxy) && client.proxyCredentials == old(client.proxyCredentials)
      ensures client.credentials == CredentialsAfter(old(client.credentials), url, username, password)
      ensures client.preemptive == PreemptiveAfter(old(client.preemptive), url, username)
      ensures !CanAuthenticate(url, username) ==>
        result == Err(Wrapped(MalformedUrl(url)))
        && server.log == old(server.log) && server.script == old(server.script)
      ensures CanAuthenticate(url, username) ==>
        && server.log == old(server.log) + [GetMethod(url)]
        && server.script == Later(old(server.script))
        && result == FetchVerdict(url, NextReply(old(server.script)))
    {
      var getMethod := new HttpMethod(GetMethod(url));
      var authenticated := SetAuthentication(url, username, password);
      if !authenticated {
        result := Err(Wrapped(MalformedUrl(url)));
      } else {
        var reply := client.ExecuteMethod(getMethod, server);
        if reply.Broken? {
          result := Err(Wrapped(Io(reply.reason)));
        } else if reply.status != SC_OK {
          result := Err(Failure(GetStatusMessage(url, reply.status)));
        } else {
          result := Ok(reply.body);
        }
      }
      getMethod.ReleaseConnection();
    }

    /** `delete`: POST the name to deletefile.php at the location, once;
        the connection is released whatever happens. */
    method Delete(targetLocation: string, name: string, username: Option<string>, password: Option<string>,
                  server: HttpServer) returns (outcome: Outcome<TransportException>)
      requires targetLocation != ""
      modifies client, client.manager, server
      ensures client.manager.leased == old(client.manager.leased)
      ensures client.proxy == old(client.proxy) && client.proxyCredentials == old(client.proxyCredentials)
      ensures client.credentials == CredentialsAfter(old(client.credentials), DeleteUrl(targetLocation), username, password)
      ensures client.preemptive == PreemptiveAfter(old(client.preemptive), DeleteUrl(targetLocation), username)
      ensures var url := DeleteUrl(targetLocation);
        !CanAuthenticate(url, username) ==>
          outcome == Fail(Wrapped(MalformedUrl(url)))
          && server.log == old(server.log) && server.script == old(server.script)
      ensures var url := DeleteUrl(targetLocation);
        CanAuthenticate(url, username) ==>
          && server.log == old(server.log) + [DeletePost(url, name)]
          && server.script == Later(old(server.script))
          && outcome == PostVerdict(NextReply(old(server.script)), DeleteMessages)
    {
      var url := AddTrailingSlash(targetLocation) + DeleteScript;
      var post := new HttpMethod(PostMethod(url, Form([])));
      post.AddParameter("fileToDelete", name);
      assert [] + [("fileToDelete", name)] == [("fileToDelete", name)];
      assert post.request == DeletePost(url, name);
      var authenticated := SetAuthentication(url, username, password);
      if !authenticated {
        outcome := Fail(Wrapped(MalformedUrl(url)));
      } else {
        var reply := client.ExecuteMethod(post, server);
        if reply.Broken? {
          outcome := Fail(Wrapped(Io(reply.reason)));
        } else if reply.status != SC_OK {
          outcome := Fail(Failure(DeleteMessages.statusPrefix + StatusText(reply.status) + "]"));
        } else if Latin1(reply.body) != Accepted {
          outcome := Fail(Failure(DeleteMessages.bodyPrefix + Latin1(reply.body) + "]"));
        } else {
          outcome := Pass;
        }
      }
      post.ReleaseConnection();
    }
  }
}
