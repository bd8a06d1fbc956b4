/** The WebDAV backend (src/com/_17od/upm/transport/WebdavTransport.java):
    `webdav` and `webdavs` URLs are rewritten to `http` and `https` and
    served by a WebDAV resource; downloads arrive through a chunked read
    loop; delete does nothing. */
module Webdav {
  import opened Wrappers
  import opened Text
  import opened Transport
  import opened Http
  import opened Urls

  // ---------------------------------------------------------------------
  // Scheme rewriting (MyDavResource.setHttpURL)

  /** The URL a DAV resource is pointed at, and whether it is an
      `HttpsURL` rather than an `HttpURL`. */
  datatype Target = Target(secure: bool, text: string)

  /** The rewriting of `setHttpURL`: both tests are case-sensitive, and the
      `webdavs` test comes first. */
  function RewriteUrl(url: string): (t: Target)
    ensures StartsWith(url, "webdavs") ==> t.secure && t.text == "https" + url[7..]
    ensures StartsWith(url, "webdav") && !StartsWith(url, "webdavs") ==> !t.secure && t.text == "http" + url[6..]
    ensures StartsWith(url, "webdav") ==> |t.text| == |url| - 2
    ensures !StartsWith(url, "webdav") ==> t.text == url && (t.secure <==> StartsWith(url, "https"))
  {
    if StartsWith(url, "webdavs") then
      assert url[6..] == "s" + url[7..];
      Target(true, "http" + url[6..])
    else if StartsWith(url, "webdav") then Target(false, "http" + url[6..])
    else if StartsWith(url, "https") then Target(true, url)
    else Target(false, url)
  }

  /** Rewriting a rewritten URL changes nothing: the result never starts
      with `webdav`, and its kind agrees with its `https` prefix. */
  lemma RewriteIdempotent(url: string)
    ensures RewriteUrl(RewriteUrl(url).text) == RewriteUrl(url)
  {
    var t := RewriteUrl(url);
    if StartsWith(url, "webdavs") {
      assert t.text[..5] == "https" && t.text[0] == 'h';
    } else if StartsWith(url, "webdav") {
      assert t.text[0] == 'h';
      if |url| > 6 {
        assert url[..7] == url[..6] + [url[6]];
        assert t.text[4] == url[6];
      }
    }
  }

  /** A `webdavs:` URL chosen by the dispatch is served over `https:` with
      everything after the scheme kept. */
  lemma WebdavsIsServedOverHttps(rest: string)
    ensures GetTransportForURL("webdavs:" + rest) == Some(WebdavBackend)
    ensures RewriteUrl("webdavs:" + rest) == Target(true, "https:" + rest)
  {
    var url := "webdavs:" + rest;
    assert ToLowerAscii(url)[..8] == "webdavs:";
    assert ToLowerAscii(url)[0] == 'w';
    assert ToLowerAscii(url)[..5][0] != "http:"[0] && ToLowerAscii(url)[..6][0] != "https:"[0];
    assert url[..7] == "webdavs";
    assert url[7..] == ":" + rest;
  }

  /** A `webdav:` URL is served over `http:` in the same way. */
  lemma WebdavIsServedOverHttp(rest: string)
    ensures GetTransportForURL("webdav:" + rest) == Some(WebdavBackend)
    ensures RewriteUrl("webdav:" + rest) == Target(false, "http:" + rest)
  {
    var url := "webdav:" + rest;
    assert ToLowerAscii(url)[..7] == "webdav:";
    assert ToLowerAscii(url)[0] == 'w';
    assert ToLowerAscii(url)[..5][0] != "http:"[0] && ToLowerAscii(url)[..6][0] != "https:"[0];
    assert url[..6] == "webdav" && url[..7] != "webdavs";
    assert url[6..] == ":" + rest;
  }

  /** The dispatch ignores letter case, the rewriting does not: an
      upper-case `WEBDAV:` URL reaches this backend and is left as it is. */
  lemma UpperCaseSchemeIsNotRewritten(rest: string)
    ensures GetTransportForURL("WEBDAV:" + rest) == Some(WebdavBackend)
    ensures RewriteUrl("WEBDAV:" + rest) == Target(false, "WEBDAV:" + rest)
  {
    var url := "WEBDAV:" + rest;
    assert ToLowerAscii(url)[..7] == "webdav:";
    assert ToLowerAscii(url)[0] == 'w';
    assert ToLowerAscii(url)[..5][0] != "http:"[0] && ToLowerAscii(url)[..6][0] != "https:"[0];
    assert url[..6] != "webdav" && url[..5] != "https";
  }

  /** What a request with null credentials does to either backend: the
      WebDAV resource gets no credentials, and the HTTP client stores none,
      can always proceed, and keeps its preemptive flag. */
  predicate SendsNoCredentials(r: Request, url: string, held: map<AuthScope, Credentials>, preemptive: bool) {
    && CredentialsFor(r.username, r.password) == None
    && CanAuthenticate(url, r.username)
    && CredentialsAfter(held, url, r.username, r.password) == held
    && PreemptiveAfter(preemptive, url, r.username) == preemptive
  }

  /** The overloads of `Transport` without credentials authenticate
      nowhere: whatever URL the request goes to, no credentials are attached
      or stored and preemptive authentication is not turned on. The lemma
      is stated here rather than beside the overloads because what "sends
      no credentials" means involves both backends (`CredentialsFor` of
      this module, `CredentialsAfter` and `PreemptiveAfter` of `Http`), and
      the `Transport` module is imported by both. */
  lemma ShortOverloadsSendNoCredentials(location: string, name: string, file: LocalFile, url: string,
                                        held: map<AuthScope, Credentials>, preemptive: bool)
    ensures SendsNoCredentials(Transport.Put(location, file), url, held, preemptive)
    ensures SendsNoCredentials(Transport.Delete(location, name), url, held, preemptive)
    ensures SendsNoCredentials(GetRemoteFile(location), url, held, preemptive)
    ensures SendsNoCredentials(Download(GetRemoteFile(location)), url, held, preemptive)
    ensures location != "" ==> SendsNoCredentials(GetFileWithoutCredentials(location, name), url, held, preemptive)
    ensures location != "" ==>
      SendsNoCredentials(GetRemoteFileNamedWithoutCredentials(location, name), url, held, preemptive)
  {
  }

  /** The `HttpURL` the resource is set to: the rewritten URL, carrying the
      resource's credentials as user info when it has any. */
  datatype HttpUrl = HttpUrl(secure: bool, text: string, userinfo: Option<Credentials>)

  function DavUrl(url: string, credentials: Option<Credentials>): HttpUrl {
    HttpUrl(RewriteUrl(url).secure, RewriteUrl(url).text, credentials)
  }

  /** The credentials a request carries: a user name given means
      credentials, none means none. */
  function CredentialsFor(username: Option<string>, password: Option<string>): (c: Option<Credentials>)
    ensures c.Some? <==> username.Some?
    ensures c.Some? ==> c.value.username == username.value && c.value.password == password
  {
    if username.Some? then Some(Credentials(username.value, password)) else None
  }

  // ---------------------------------------------------------------------
  // The byte stream of a download

  const ReadBufferSize: nat := 1024

  /** What one `read(buf)` delivers into a 1024-byte buffer. */
  type Chunk = b: seq<byte> | |b| <= ReadBufferSize

  /** One `read`: some bytes (possibly none), the end of the stream (-1),
      or an IOException. */
  datatype ReadResult = Data(bytes: Chunk) | Eof | ReadFailure(reason: string)

  /** The bytes of a stream that delivers `script` in order, up to its end;
      the reason of the first failure if it fails first. */
  function Drain(script: seq<ReadResult>): Result<seq<byte>, string> {
    if script == [] then Ok([])
    else match script[0]
      case Eof => Ok([])
      case ReadFailure(reason) => Err(reason)
      case Data(bytes) => Prepend(bytes, Drain(script[1..]))
  }

  function Prepend(prefix: seq<byte>, r: Result<seq<byte>, string>): Result<seq<byte>, string> {
    match r
    case Ok(rest) => Ok(prefix + rest)
    case Err(reason) => Err(reason)
  }

  lemma PrependNothing(r: Result<seq<byte>, string>)
    ensures Prepend([], r) == r
  {
    match r
    case Ok(v) => assert [] + v == v;
    case Err(_) =>
  }

  lemma PrependTwice(a: seq<byte>, b: seq<byte>, r: Result<seq<byte>, string>)
    ensures Prepend(a + b, r) == Prepend(a, Prepend(b, r))
  {
    match r
    case Ok(v) => assert (a + b) + v == a + (b + v);
    case Err(_) =>
  }

  /** Reads that deliver data only. */
  predicate AllData(script: seq<ReadResult>) {
    forall i :: 0 <= i < |script| ==> script[i].Data?
  }

  /** The concatenation of the chunks of data-only reads. */
  function Concat(script: seq<ReadResult>): seq<byte>
    requires AllData(script)
  {
    if script == [] then [] else script[0].bytes + Concat(script[1..])
  }

  /** Reads of data contribute their chunks, in order, ahead of whatever
      the rest of the stream gives. */
  lemma {:induction false} DrainAppend(front: seq<ReadResult>, back: seq<ReadResult>)
    requires AllData(front)
    ensures Drain(front + back) == Prepend(Concat(front), Drain(back))
  {
    if front == [] {
      assert front + back == back;
      match Drain(back)
      case Ok(v) => assert [] + v == v;
      case Err(_) =>
    } else {
      assert (front + back)[1..] == front[1..] + back;
      assert AllData(front[1..]);
      DrainAppend(front[1..], back);
      match Drain(back)
      case Ok(v) => assert front[0].bytes + (Concat(front[1..]) + v) == (front[0].bytes + Concat(front[1..])) + v;
      case Err(_) =>
    }
  }

  /** A stream of data that then ends yields exactly the concatenation of
      its chunks. */
  lemma DrainIsConcat(script: seq<ReadResult>)
    requires AllData(script)
    ensures Drain(script) == Ok(Concat(script))
    ensures Drain(script + [Eof]) == Ok(Concat(script))
  {
    DrainAppend(script, []);
    assert script + [] == script;
    DrainAppend(script, [Eof]);
  }

  /** A read of zero bytes adds nothing. */
  lemma {:induction false} EmptyReadAddsNothing(front: seq<ReadResult>, back: seq<ReadResult>)
    ensures Drain(front + [Data([])] + back) == Drain(front + back)
  {
    if front == [] {
      assert front + [Data([])] + back == [Data([])] + back;
      assert ([Data([])] + back)[1..] == back;
      assert front + back == back;
      match Drain(back)
      case Ok(v) => assert [] + v == v;
      case Err(_) =>
    } else {
      assert (front + [Data([])] + back)[1..] == front[1..] + [Data([])] + back;
      assert (front + back)[1..] == front[1..] + back;
      assert (front + [Data([])] + back)[0] == front[0] == (front + back)[0];
      EmptyReadAddsNothing(front[1..], back);
    }
  }

  /** Nothing after the end of the stream is read. */
  lemma {:induction false} NothingAfterEof(front: seq<ReadResult>, back: seq<ReadResult>)
    ensures Drain(front + [Eof] + back) == Drain(front + [Eof])
  {
    if front == [] {
      assert (front + [Eof] + back)[0] == Eof;
      assert (front + [Eof])[0] == Eof;
    } else {
      assert (front + [Eof] + back)[1..] == front[1..] + [Eof] + back;
      assert (front + [Eof])[1..] == front[1..] + [Eof];
      assert (front + [Eof] + back)[0] == front[0] == (front + [Eof])[0];
      NothingAfterEof(front[1..], back);
    }
  }

  /** Handles a WebDAV operation opens: resources and their input
      streams. */
  class OpenHandles {
    var resources: nat
    var streams: nat

    constructor ()
      ensures resources == 0 && streams == 0
    {
      resources := 0;
      streams := 0;
    }
  }

  /** The InputStream of `getMethodData`: the reads it will deliver. After
      its end every read gives -1 again. */
  class InputStream {
    const handles: OpenHandles
    var pending: seq<ReadResult>
    var open: bool

    constructor (handles: OpenHandles, script: seq<ReadResult>)
      modifies handles`streams
      ensures this.handles == handles && pending == script && open
      ensures handles.streams == old(handles.streams) + 1 && handles.resources == old(handles.resources)
    {
      this.handles := handles;
      pending := script;
      open := true;
      handles.streams := handles.streams + 1;
    }

    /** `read(buf)`: the number of bytes placed at the start of `buf`, or
        -1 at the end of the stream. */
    method Read(buf: array<byte>) returns (c: int, failure: Option<string>)
      requires buf.Length == ReadBufferSize
      modifies this`pending, buf
      ensures old(pending) == [] || old(pending)[0].Eof? ==>
        c == -1 && failure == None && pending == old(pending)
      ensures old(pending) != [] && old(pending)[0].ReadFailure? ==>
        failure == Some(old(pending)[0].reason) && pending == old(pending)
      ensures old(pending) != [] && old(pending)[0].Data? ==>
        && failure == None && c == |old(pending)[0].bytes| && buf[..c] == old(pending)[0].bytes
        && pending == old(pending)[1..]
    {
      if pending == [] || pending[0].Eof? {
        c, failure := -1, None;
      } else if pending[0].ReadFailure? {
        c, failure := 0, Some(pending[0].reason);
      } else {
        var bytes := pending[0].bytes;
        forall i | 0 <= i < |bytes| {
          buf[i] := bytes[i];
        }
        c, failure := |bytes|, None;
        pending := pending[1..];
      }
    }

    method Close()
      requires open ==> handles.streams > 0
      modifies this`open, handles`streams
      ensures !open
      ensures handles.streams == old(handles.streams) - (if old(open) then 1 else 0)
    {
      if open {
        handles.streams := handles.streams - 1;
        open := false;
      }
    }
  }

  /** `ByteArrayOutputStream`. */
  class ByteArrayOutputStream {
    var bytes: seq<byte>

    constructor ()
      ensures bytes == []
    {
      bytes := [];
    }

    method Write(buf: array<byte>, off: nat, len: nat)
      requires off + len <= buf.Length
      modifies this
      ensures bytes == old(bytes) + buf[off..off + len]
    {
      bytes := bytes + buf[off..off + len];
    }

    function ToByteArray(): seq<byte>
      reads this
    {
      bytes
    }
  }

  /** The WebDAV server: unreachable with a reason, or its collections,
      whether it accepts an upload, what it stores, how each download
      arrives, and the URLs resources were pointed at. Keys are rewritten
      URLs. */
  class DavServer {
    var down: Option<string>
    var collections: set<string>
    var acceptsPut: bool
    var stored: map<string, seq<byte>>
    var downloads: map<string, seq<ReadResult>>
    var visited: seq<HttpUrl>

    constructor (down: Option<string>, collections: set<string>, acceptsPut: bool,
                 stored: map<string, seq<byte>>, downloads: map<string, seq<ReadResult>>)
      ensures this.down == down && this.collections == collections && this.acceptsPut == acceptsPut
      ensures this.stored == stored && this.downloads == downloads && visited == []
    {
      this.down := down;
      this.collections := collections;
      this.acceptsPut := acceptsPut;
      this.stored := stored;
      this.downloads := downloads;
      visited := [];
    }
  }

  const NotFound: string := "Couldn't get file"

  /** `MyDavResource`: credentials, the URL it is set to, and whether it is
      still open. */
  class DavResource {
    const server: DavServer
    const handles: OpenHandles
    var hostCredentials: Option<Credentials>
    var httpUrl: Option<HttpUrl>
    var open: bool

    constructor (server: DavServer, handles: OpenHandles)
      modifies handles`resources
      ensures this.server == server && this.handles == handles
      ensures hostCredentials == None && httpUrl == None && open
      ensures handles.resources == old(handles.resources) + 1 && handles.streams == old(handles.streams)
    {
      this.server := server;
      this.handles := handles;
      hostCredentials := None;
      httpUrl := None;
      open := true;
      handles.resources := handles.resources + 1;
    }

    method SetCredentials(credentials: Credentials)
      modifies this`hostCredentials
      ensures hostCredentials == Some(credentials)
    {
      hostCredentials := Some(credentials);
    }

    /** `setHttpURL`: rewrite the scheme, attach the credentials, and look
        the resource up on the server. */
    method SetHttpURL(url: string) returns (failure: Option<string>)
      modifies this`httpUrl, server`visited
      ensures server.down.Some? ==>
        failure == server.down && httpUrl == old(httpUrl) && server.visited == old(server.visited)
      ensures server.down.None? ==>
        && failure == None && httpUrl == Some(DavUrl(url, hostCredentials))
        && server.visited == old(server.visited) + [DavUrl(url, hostCredentials)]
    {
      if server.down.Some? {
        failure := server.down;
      } else {
        var target := RewriteUrl(url);
        var httpURL := HttpUrl(target.secure, target.text, hostCredentials);
        failure := None;
        httpUrl := Some(httpURL);
        server.visited := server.visited + [httpURL];
      }
    }

    method IsCollection() returns (collection: bool)
      requires httpUrl.Some?
      ensures collection <==> httpUrl.value.text in server.collections
    {
      collection := httpUrl.value.text in server.collections;
    }

    /** `putMethod(file)`: false when the server refuses the upload. */
    method PutMethod(file: LocalFile) returns (accepted: bool, failure: Option<Cause>)
      requires httpUrl.Some?
      modifies server`stored
      ensures file.content.None? ==>
        failure == Some(FileNotFound(file.path)) && server.stored == old(server.stored)
      ensures file.content.Some? ==>
        && failure == None && accepted == server.acceptsPut
        && server.stored == (if accepted then old(server.stored)[httpUrl.value.text := file.content.value]
                             else old(server.stored))
    {
      if file.content.None? {
        accepted, failure := false, Some(FileNotFound(file.path));
      } else {
        accepted, failure := server.acceptsPut, None;
        if accepted {
          server.stored := server.stored[httpUrl.value.text := file.content.value];
        }
      }
    }

    /** `getMethodData()`: the stream of the resource's body. */
    method GetMethodData() returns (stream: InputStream?, failure: Option<string>)
      requires httpUrl.Some?
      modifies handles`streams
      ensures httpUrl.value.text in server.downloads ==>
        && failure == None && stream != null && fresh(stream) && stream.open
        && stream.handles == handles && stream.pending == server.downloads[httpUrl.value.text]
        && handles.streams == old(handles.streams) + 1
      ensures httpUrl.value.text !in server.downloads ==>
        failure == Some(NotFound) && stream == null && handles.streams == old(handles.streams)
    {
      if httpUrl.value.text in server.downloads {
        stream := new InputStream(handles, server.downloads[httpUrl.value.text]);
        failure := None;
      } else {
        stream, failure := null, Some(NotFound);
      }
    }

    /** `close()`; a failure to close is ignored by every caller. */
    method Close()
      requires open ==> handles.resources > 0
      modifies this`open, handles`resources
      ensures !open
      ensures handles.resources == old(handles.resources) - (if old(open) then 1 else 0)
    {
      if open {
        handles.resources := handles.resources - 1;
        open := false;
      }
    }
  }

  const PutRefused: string := "There's been some kind of problem uploading a file to the WebDAV server."
  const IsACollection: string := "URL is a collection!"

  /** What `get` yields from a reachable server for the rewritten URL
      `key`: a collection fails before anything is read; otherwise the
      bytes of the whole stream. */
  function DownloadVerdict(key: string, collections: set<string>, downloads: map<string, seq<ReadResult>>)
    : (r: Result<seq<byte>, TransportException>)
    ensures key in collections ==> r == Err(Failure(IsACollection))
    ensures key !in collections && key in downloads ==>
      (r.Ok? <==> Drain(downloads[key]).Ok?) && (r.Ok? ==> r.value == Drain(downloads[key]).value)
    ensures key !in collections && key !in downloads ==> r == Err(Wrapped(Io(NotFound)))
    ensures key !in collections && key in downloads && Drain(downloads[key]).Err? ==>
      r == Err(Wrapped(Io(Drain(downloads[key]).error)))
  {
    if key in collections then Err(Failure(IsACollection))
    else if key !in downloads then Err(Wrapped(Io(NotFound)))
    else match Drain(downloads[key])
      case Ok(bytes) => Ok(bytes)
      case Err(reason) => Err(Wrapped(Io(reason)))
  }

  /** The read loop of `get`: `read` into a 1024-byte buffer, append what
      each read delivers, and stop at the end of the stream (-1) or at the
      first failure. */
  method ReadFully(stream: InputStream, buffer: ByteArrayOutputStream) returns (readFailure: Option<string>)
    modifies stream`pending, buffer
    ensures Drain(old(stream.pending)).Err? ==> readFailure == Some(Drain(old(stream.pending)).error)
    ensures Drain(old(stream.pending)).Ok? ==>
      readFailure == None && buffer.bytes == old(buffer.bytes) + Drain(old(stream.pending)).value
  {
    var buf := new byte[ReadBufferSize];
    readFailure := None;
    while true
      invariant Prepend(buffer.bytes, Drain(stream.pending)) == Prepend(old(buffer.bytes), Drain(old(stream.pending)))
      decreases |stream.pending|
    {
      ghost var before := buffer.bytes;
      var c, err := stream.Read(buf);
      if err.Some? {
        readFailure := err;
        break;
      }
      if c > 0 {
        buffer.Write(buf, 0, c);
      }
      if c < 0 {
        break;
      }
      PrependTwice(before, buf[..c], Drain(stream.pending));
      if c == 0 {
        assert before + buf[..c] == before;
      }
    }
    if readFailure.None? {
      PrependNothing(Drain(stream.pending));
    }
  }

  class WebdavTransport {
    const client: HttpClient
    const handles: OpenHandles

    /** The constructor of HTTPTransport, which this backend extends. */
    constructor (settings: ProxySettings, decode: string -> string)
      requires ProxyDecision(settings, decode).Ok?
      ensures fresh(client) && fresh(client.manager) && client.manager.leased == 0
      ensures client.proxy == ProxyDecision(settings, decode).value.proxy
      ensures client.proxyCredentials == ProxyDecision(settings, decode).value.credentials
      ensures client.credentials == map[] && !client.preemptive
      ensures fresh(handles) && handles.resources == 0 && handles.streams == 0
    {
      var manager := new ConnectionManager();
      var c := new HttpClient(manager);
      ConfigureProxy(c, settings, decode);
      client := c;
      handles := new OpenHandles();
    }

    /** `open()`: a fresh resource on the transport's client. */
    method Open(server: DavServer) returns (davRes: DavResource)
      modifies handles
      ensures fresh(davRes) && davRes.server == server && davRes.handles == handles
      ensures davRes.open && davRes.hostCredentials == None && davRes.httpUrl == None
      ensures handles.resources == old(handles.resources) + 1 && handles.streams == old(handles.streams)
    {
      davRes := new DavResource(server, handles);
    }

    /** `put`: upload the file to the location plus the file's name; the
        resource is closed whatever happens. */
    method Put(targetLocation: string, file: LocalFile, username: Option<string>, password: Option<string>,
               server: DavServer) returns (outcome: Outcome<TransportException>)
      requires targetLocation != ""
      modifies handles, server`visited, server`stored
      ensures handles.resources == old(handles.resources) && handles.streams == old(handles.streams)
      ensures server.down.Some? ==>
        && outcome == Fail(Wrapped(Io(server.down.value)))
        && server.visited == old(server.visited) && server.stored == old(server.stored)
      ensures var target := DavUrl(AddTrailingSlash(targetLocation) + file.name, CredentialsFor(username, password));
        server.down.None? ==>
          && server.visited == old(server.visited) + [target]
          && (file.content.None? ==>
                outcome == Fail(Wrapped(FileNotFound(file.path))) && server.stored == old(server.stored))
          && (file.content.Some? ==>
                && outcome == (if server.acceptsPut then Pass else Fail(Failure(PutRefused)))
                && server.stored == (if server.acceptsPut then old(server.stored)[target.text := file.content.value]
                                     else old(server.stored)))
    {
      var davRes := Open(server);
      if username.Some? {
        davRes.SetCredentials(Credentials(username.value, password));
      }
      var failure := davRes.SetHttpURL(AddTrailingSlash(targetLocation) + file.name);
      if failure.Some? {
        outcome := Fail(Wrapped(Io(failure.value)));
      } else {
        var accepted, cause := davRes.PutMethod(file);
        if cause.Some? {
          outcome := Fail(Wrapped(cause.value));
        } else if !accepted {
          outcome := Fail(Failure(PutRefused));
        } else {
          outcome := Pass;
        }
      }
      davRes.Close();
    }

    /** `get`: download the URL through the read loop; the stream and the
        resource are closed whatever happens. */
    method Get(url: string, username: Option<string>, password: Option<string>, server: DavServer)
      returns (result: Result<seq<byte>, TransportException>)
      modifies handles, server`visited
      ensures handles.resources == old(handles.resources) && handles.streams == old(handles.streams)
      ensures server.down.Some? ==>
        result == Err(Wrapped(Io(server.down.value))) && server.visited == old(server.visited)
      ensures server.down.None? ==>
        && server.visited == old(server.visited) + [DavUrl(url, CredentialsFor(username, password))]
        && result == DownloadVerdict(RewriteUrl(url).text, server.collections, server.downloads)
    {
      var buffer := new ByteArrayOutputStream();
      var davRes := Open(server);
      if username.Some? {
        davRes.SetCredentials(Credentials(username.value, password));
      }
      var failure := davRes.SetHttpURL(url);
      if failure.Some? {
        result := Err(Wrapped(Io(failure.value)));
      } else {
        var collection := davRes.IsCollection();
        if collection {
          result := Err(Failure(IsACollection));
        } else {
          var stream, missing := davRes.GetMethodData();
          if missing.Some? {
            result := Err(Wrapped(Io(missing.value)));
          } else {
            ghost var script := stream.pending;
            assert script == server.downloads[RewriteUrl(url).text];
            var readFailure := ReadFully(stream, buffer);
            if Drain(script).Ok? {
              assert buffer.bytes == [] + Drain(script).value == Drain(script).value;
            }
            stream.Close();
            if readFailure.Some? {
              result := Err(Wrapped(Io(readFailure.value)));
            } else {
              result := Ok(buffer.ToByteArray());
            }
          }
        }
      }
      davRes.Close();
    }

    /** `delete`: deliberately nothing, since the synchronisation always
        uploads to the same name right after deleting. */
    method Delete(targetLocation: string, name: string, username: Option<string>, password: Option<string>)
      returns (outcome: Outcome<TransportException>)
      ensures outcome == Pass
    {
      outcome := Pass;
    }
  }
}
