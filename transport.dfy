/** The protocol-independent part of the remote transport layer
    (src/com/_17od/upm/transport/Transport.java): the shared URL helpers,
    the choice of a backend from a URL, and the convenience operations that
    forward to the four-argument primitives every backend implements. */
module Transport {
  import opened Wrappers
  import opened Text

  /** `UsernamePasswordCredentials(username, password)`; Java allows a null
      password. */
  datatype Credentials = Credentials(username: string, password: Option<string>)

  /** A local file as a backend sees it: its path, its last path component
      (`getName()`) and its bytes, absent when it cannot be opened. */
  datatype LocalFile = LocalFile(path: string, name: string, content: Option<seq<byte>>)

  /** The lower-level failure that a TransportException wraps. */
  datatype Cause =
    | FileNotFound(path: string)
    | MalformedUrl(url: string)
    | Io(reason: string)

  /** `TransportException`: either a message of the transport's own, or a
      wrapped lower-level cause. */
  datatype TransportException =
    | Failure(message: string)
    | Wrapped(cause: Cause)

  /** The backend `getTransportForURL` constructs. */
  datatype Backend = HttpBackend | WebdavBackend

  /** `addTrailingSlash`: appends one '/' unless the location already ends
      with one. Java's `charAt(length() - 1)` throws on the empty string. */
  function AddTrailingSlash(url: string): (r: string)
    requires url != ""
    ensures r != "" && r[|r| - 1] == '/'
    ensures url[|url| - 1] == '/' ==> r == url
    ensures url[|url| - 1] != '/' ==> r == url + "/"
  {
    if url[|url| - 1] != '/' then url + "/" else url
  }

  /** Normalising a location twice is normalising it once. */
  lemma AddTrailingSlashIdempotent(url: string)
    requires url != ""
    ensures AddTrailingSlash(AddTrailingSlash(url)) == AddTrailingSlash(url)
  {
  }

  /** `isNotEmpty`: not null and not blank after `trim()`. */
  function IsNotEmpty(s: Option<string>): (r: bool)
    ensures r <==> s.Some? && exists i :: 0 <= i < |s.value| && !IsTrimmed(s.value[i])
  {
    if s.None? then false
    else
      TrimEmpty(s.value);
      Trim(s.value) != ""
  }

  const SupportedProtocols: set<string> := {"http", "https", "file", "webdav", "webdavs"}

  /** `isASupportedProtocol`: an exact, case-sensitive comparison against
      the five scheme names. */
  function IsASupportedProtocol(protocol: string): (supported: bool)
    ensures supported <==> protocol in SupportedProtocols
  {
    if protocol == "http" then true
    else if protocol == "https" then true
    else if protocol == "file" then true
    else if protocol == "webdav" || protocol == "webdavs" then true
    else false
  }

  lemma SupportedProtocolExamples()
    ensures !IsASupportedProtocol("HTTP") && !IsASupportedProtocol("ftp")
    ensures IsASupportedProtocol("webdavs") && IsASupportedProtocol("file")
  {
  }

  /** Index of the first ':' in `s`, if there is one. */
  function ColonIndex(s: string): (r: Option<nat>)
    ensures r.Some? ==> r.value < |s| && s[r.value] == ':' && forall j :: 0 <= j < r.value ==> s[j] != ':'
    ensures r.None? ==> forall j :: 0 <= j < |s| ==> s[j] != ':'
  {
    if s == [] then None
    else if s[0] == ':' then Some(0)
    else match ColonIndex(s[1..])
      case None => None
      case Some(k) => Some(k + 1)
  }

  /** The scheme of a URL: what precedes its first ':', lower-cased. This is
      the reference against which the prefix tests of `GetTransportForURL`
      are checked. */
  function SchemeOf(url: string): Option<string> {
    match ColonIndex(url)
    case None => None
    case Some(k) => Some(ToLowerAscii(url[..k]))
  }

  /** A lower-cased string starts with `word + ":"`, for a word of lower-case
      letters, exactly when the URL's scheme is that word. */
  lemma PrefixIsScheme(url: string, word: string)
    requires forall j :: 0 <= j < |word| ==> 'a' <= word[j] <= 'z'
    ensures StartsWith(ToLowerAscii(url), word + ":") <==> SchemeOf(url) == Some(word)
  {
    var lower := ToLowerAscii(url);
    var n := |word|;
    if StartsWith(lower, word + ":") {
      assert lower[n] == ':';
      assert url[n] == ':';
      forall j | 0 <= j < n ensures url[j] != ':' {
        assert lower[j] == word[j];
      }
      assert ColonIndex(url) == Some(n);
      assert ToLowerAscii(url[..n]) == lower[..n];
      assert lower[..n] == (word + ":")[..n] == word;
    }
    if SchemeOf(url) == Some(word) {
      var k := ColonIndex(url).value;
      assert |ToLowerAscii(url[..k])| == k == n;
      assert lower[..n] == ToLowerAscii(url[..n]);
      assert lower[n] == ':';
      assert lower[..n + 1] == word + ":";
    }
  }

  /** `getTransportForURL`: the URL is lower-cased first; `http:` and
      `https:` select the HTTP backend, `webdav:` and `webdavs:` the WebDAV
      backend, and everything else (`file:` included) none. So the choice
      depends on the scheme alone, in any letter case. */
  function GetTransportForURL(url: string): (r: Option<Backend>)
    ensures r == Some(HttpBackend) <==> SchemeOf(url) == Some("http") || SchemeOf(url) == Some("https")
    ensures r == Some(WebdavBackend) <==> SchemeOf(url) == Some("webdav") || SchemeOf(url) == Some("webdavs")
    ensures r == None <==> SchemeOf(url) !in {Some("http"), Some("https"), Some("webdav"), Some("webdavs")}
  {
    PrefixIsScheme(url, "http");
    PrefixIsScheme(url, "https");
    PrefixIsScheme(url, "webdav");
    PrefixIsScheme(url, "webdavs");
    var lowerUrl := ToLowerAscii(url);
    if StartsWith(lowerUrl, "http:") || StartsWith(lowerUrl, "https:") then Some(HttpBackend)
    else if StartsWith(lowerUrl, "webdav:") || StartsWith(lowerUrl, "webdavs:") then Some(WebdavBackend)
    else None
  }

  /** Whatever gets a backend has a scheme the protocol check accepts; the
      converse fails only for `file`, which has no backend. */
  lemma DispatchedSchemesAreSupported(url: string)
    ensures GetTransportForURL(url).Some? ==> SchemeOf(url).Some? && IsASupportedProtocol(SchemeOf(url).value)
    ensures SchemeOf(url).Some? && IsASupportedProtocol(SchemeOf(url).value) && SchemeOf(url) != Some("file")
        ==> GetTransportForURL(url).Some?
  {
  }

  /** Letter case does not change the choice of backend. */
  lemma DispatchIgnoresCase(url: string)
    ensures GetTransportForURL(ToLowerAscii(url)) == GetTransportForURL(url)
  {
    assert ToLowerAscii(ToLowerAscii(url)) == ToLowerAscii(url);
  }

  /** A call of one of the primitives every backend implements: `put`,
      `get`, `delete` with credentials, and the three-argument
      `getRemoteFile` that downloads into a temporary file. */
  datatype Request =
    | PutRequest(location: string, file: LocalFile, username: Option<string>, password: Option<string>)
    | GetRequest(url: string, username: Option<string>, password: Option<string>)
    | DeleteRequest(location: string, name: string, username: Option<string>, password: Option<string>)
    | RemoteFileRequest(url: string, username: Option<string>, password: Option<string>)

  /** `put(targetLocation, file)`. */
  function Put(targetLocation: string, file: LocalFile): (r: Request)
    ensures r.PutRequest? && r.location == targetLocation && r.file == file
    ensures r.username == None && r.password == None
  {
    PutRequest(targetLocation, file, None, None)
  }

  /** `get(url, fileName, username, password)`. */
  function GetFile(url: string, fileName: string, username: Option<string>, password: Option<string>): (r: Request)
    requires url != ""
    ensures r.GetRequest? && JoinedWithOneSlash(url, fileName, r.url)
    ensures r.username == username && r.password == password
  {
    GetRequest(AddTrailingSlash(url) + fileName, username, password)
  }

  /** `get(url, fileName)`. */
  function GetFileWithoutCredentials(url: string, fileName: string): (r: Request)
    requires url != ""
    ensures r.GetRequest? && JoinedWithOneSlash(url, fileName, r.url)
    ensures r.username == None && r.password == None
  {
    GetFile(url, fileName, None, None)
  }

  /** `delete(targetLocation, name)`. */
  function Delete(targetLocation: string, name: string): (r: Request)
    ensures r.DeleteRequest? && r.location == targetLocation && r.name == name
    ensures r.username == None && r.password == None
  {
    DeleteRequest(targetLocation, name, None, None)
  }

  /** `getRemoteFile(remoteLocation, fileName, username, password)`. */
  function GetRemoteFileNamed(remoteLocation: string, fileName: string, username: Option<string>, password: Option<string>)
    : (r: Request)
    requires remoteLocation != ""
    ensures r.RemoteFileRequest? && JoinedWithOneSlash(remoteLocation, fileName, r.url)
    ensures r.username == username && r.password == password
  {
    RemoteFileRequest(AddTrailingSlash(remoteLocation) + fileName, username, password)
  }

  /** `getRemoteFile(remoteLocation, fileName)`. */
  function GetRemoteFileNamedWithoutCredentials(remoteLocation: string, fileName: string): (r: Request)
    requires remoteLocation != ""
    ensures r.RemoteFileRequest? && JoinedWithOneSlash(remoteLocation, fileName, r.url)
    ensures r.username == None && r.password == None
  {
    GetRemoteFileNamed(remoteLocation, fileName, None, None)
  }

  /** `getRemoteFile(remoteLocation)`. */
  function GetRemoteFile(remoteLocation: string): (r: Request)
    ensures r.RemoteFileRequest? && r.url == remoteLocation
    ensures r.username == None && r.password == None
  {
    RemoteFileRequest(remoteLocation, None, None)
  }

  /** The three-argument `getRemoteFile`: it downloads with `get` on the
      same URL and credentials before writing the bytes to a temporary
      file. */
  function Download(request: Request): (r: Request)
    requires request.RemoteFileRequest?
    ensures r.GetRequest? && r.url == request.url
    ensures r.username == request.username && r.password == request.password
  {
    GetRequest(request.url, request.username, request.password)
  }

  /** The URL a file name is fetched from: the location, exactly one '/' at
      the junction, then the file name. */
  predicate JoinedWithOneSlash(location: string, fileName: string, target: string)
    requires location != ""
  {
    if location[|location| - 1] == '/' then target == location + fileName
    else target == location + "/" + fileName
  }

  /** Normalising the location before calling an overload that takes a
      file name makes no difference: the overload adds the separator only
      when it is missing. */
  lemma FileNameOverloadsJoin(location: string, fileName: string, username: Option<string>, password: Option<string>)
    requires location != ""
    ensures GetFile(AddTrailingSlash(location), fileName, username, password) == GetFile(location, fileName, username, password)
    ensures GetRemoteFileNamed(AddTrailingSlash(location), fileName, username, password)
         == GetRemoteFileNamed(location, fileName, username, password)
  {
  }

  /** Every `getRemoteFile` overload ends in a `get` of the URL it was
      given, with its credentials. */
  lemma RemoteFileDownloadsWithGet(location: string, fileName: string, username: Option<string>, password: Option<string>)
    requires location != ""
    ensures Download(GetRemoteFileNamed(location, fileName, username, password)) == GetFile(location, fileName, username, password)
    ensures Download(GetRemoteFile(location)) == GetRequest(location, None, None)
  {
  }
}
