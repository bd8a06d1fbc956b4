# UPM remote transport and sorted account list, in Dafny

Universal Password Manager keeps its password database in a file that it can
synchronise with a remote location. This project models the layer that does
that, and the sorted list model behind the account list:

- `Transport` (`transport.dfy`) is the backend-neutral part. It covers the
  URL-to-backend dispatch, the supported protocol names, `addTrailingSlash`,
  `isNotEmpty`, and the convenience overloads. Each overload is a function
  that yields the request it forwards.
- `Http` (`http_transport.dfy`) is the HTTP backend. A scripted `HttpServer`
  answers each executed request in turn with a status and body or with a
  broken connection, and keeps a log of what it was sent. Put, get and delete
  are methods on an `HTTPTransport` object whose client holds credentials, a
  preemptive flag, the proxy setup and a count of leased connections. Their
  contracts cover:
  - the one-shot `FILE_WASNT_MOVED` retry of `put`;
  - each error message and wrapped cause;
  - the connection being released on every path.
- `Webdav` (`webdav_transport.dfy`) is the WebDAV backend. It covers:
  - the `webdav`/`webdavs` scheme rewriting;
  - a WebDAV server with collections, uploads and downloads;
  - the `put` and `get` methods;
  - the 1024-byte read loop, proved against `Drain`, what a stream delivers up
    to its end;
  - the closing of every resource and stream it opens;
  - the deliberately empty `delete`.
- `SortedList` (`sorted_list_model.dfy`) is the `SortedListModel`. Its
  `TreeSet` is a strictly ascending sequence under a comparator on the
  elements' strings. The comparator is any comparison that keeps the
  comparator contract.
- `Text`, `Urls` and `Wrappers` hold helpers that others in the project call:
  - Java's `trim`, `Integer.parseInt` on ASCII digits, and Latin-1 decoding of a body;
  - the host and port of a `java.net.URL`;
  - `Option`, `Result` and `Outcome`.

Two things follow from the code:

- The HTTP backend accepts 200 and nothing else. Other 2xx statuses fail
  like any other status (`Http.PostVerdict`).
- Backend dispatch ignores letter case, but the WebDAV scheme rewriting does
  not. A `WEBDAV:` URL reaches the WebDAV backend and is left unrewritten
  (`Webdav.UpperCaseSchemeIsNotRewritten`). What the WebDAV library then
  does with it is not modelled (see "Left out").

What is outside the program became a parameter or a scripted object:

- The preferences are a `ProxySettings` value.
- Base64 decoding is a function parameter.
- The collator is the `cmp` of an `Order`.
- The HTTP and WebDAV servers are `HttpServer` and `DavServer`.

## Model

| member | source | states |
|---|---|---|
| `Transport.AddTrailingSlash` | src/com/_17od/upm/transport/Transport.java:112-117 | For a non-empty URL, the result always ends in `/`. It is the URL itself when the URL already ends in `/`, and the URL plus exactly one `/` otherwise. |
| `Transport.AddTrailingSlashIdempotent` | src/com/_17od/upm/transport/Transport.java:112-117 | Adding the slash twice gives the same as adding it once. |
| `Transport.IsNotEmpty` | src/com/_17od/upm/transport/Transport.java:119-121 | True exactly when the string is present and has a character above U+0020, i.e. `trim()` leaves something. |
| `Transport.IsASupportedProtocol` | src/com/_17od/upm/transport/Transport.java:98-110 | True exactly for `http`, `https`, `file`, `webdav` and `webdavs`, compared case-sensitively. |
| `Transport.SupportedProtocolExamples` | src/com/_17od/upm/transport/Transport.java:98-110 | `HTTP` and `ftp` are not supported; `webdavs` and `file` are. |
| `Transport.GetTransportForURL` | src/com/_17od/upm/transport/Transport.java:87-96 | The backend depends on the scheme alone. The HTTP backend is chosen exactly when the scheme before the first `:` is `http` or `https`, in any letter case. The WebDAV backend is chosen exactly for `webdav` or `webdavs`. Any other URL, or one with no scheme, gets none. |
| `Transport.DispatchedSchemesAreSupported` | src/com/_17od/upm/transport/Transport.java:87-110 | A URL that gets a backend has a supported protocol as its scheme. Every supported scheme except `file` gets a backend. |
| `Transport.DispatchIgnoresCase` | src/com/_17od/upm/transport/Transport.java:87-89 | Lower-casing a URL first does not change which backend it gets. |
| `Transport.FileNameOverloadsJoin` | src/com/_17od/upm/transport/Transport.java:46-72 | Adding the trailing slash to the location before calling `get` or `getRemoteFile` with a file name changes nothing: the overload inserts a `/` only when one is missing. |
| `Transport.Put` | src/com/_17od/upm/transport/Transport.java:38-40 | `put(targetLocation, file)` forwards the location and the file with null credentials. |
| `Transport.GetFileWithoutCredentials` | src/com/_17od/upm/transport/Transport.java:42-44 | `get(url, fileName)` fetches the location and the name joined by exactly one `/`, with null credentials. |
| `Transport.GetFile` | src/com/_17od/upm/transport/Transport.java:46-49 | `get(url, fileName, username, password)` fetches the location and the name joined by exactly one `/`, with the credentials unchanged. |
| `Transport.Delete` | src/com/_17od/upm/transport/Transport.java:55-57 | `delete(targetLocation, name)` forwards the location and the name with null credentials. |
| `Transport.GetRemoteFileNamedWithoutCredentials` | src/com/_17od/upm/transport/Transport.java:59-61 | `getRemoteFile(remoteLocation, fileName)` downloads the location and the name joined by exactly one `/`, with null credentials. |
| `Transport.GetRemoteFile` | src/com/_17od/upm/transport/Transport.java:64-66 | `getRemoteFile(remoteLocation)` downloads the location itself with null credentials. |
| `Transport.GetRemoteFileNamed` | src/com/_17od/upm/transport/Transport.java:69-72 | `getRemoteFile(remoteLocation, fileName, username, password)` downloads the location and the name joined by exactly one `/`, with the credentials unchanged. |
| `Transport.Download` | src/com/_17od/upm/transport/Transport.java:74-76 | The three-argument `getRemoteFile` gets the same URL with the same credentials. |
| `Webdav.ShortOverloadsSendNoCredentials` | src/com/_17od/upm/transport/Transport.java:38-66 | A request from an overload without credentials never fails on its URL. It attaches no credentials to a WebDAV resource, and stores none in the HTTP client. It leaves the client's preemptive flag as it was. |
| `Transport.RemoteFileDownloadsWithGet` | src/com/_17od/upm/transport/Transport.java:69-76 | `getRemoteFile` downloads with the same request that `get` with the same arguments sends. |
| `Http.HttpClient.ExecuteMethod` | src/com/_17od/upm/transport/HTTPTransport.java:121 | It sends the method's request to the server and takes the server's next reply, or a refused connection when the script has run out. It leases a connection unless the method already holds one. |
| `Http.HttpMethod.SetRequestEntity` | src/com/_17od/upm/transport/HTTPTransport.java:104-109 | The POST carries the given entity. Nothing else about the method changes. |
| `Http.HttpMethod.AddParameter` | src/com/_17od/upm/transport/HTTPTransport.java:199 | The form parameter is appended to the request's form. |
| `Http.HttpMethod.ReleaseConnection` | src/com/_17od/upm/transport/HTTPTransport.java:146 | It gives back a leased connection, if any, so the count drops by one, and leaves the method with none. |
| `Http.ProxyDecision` | src/com/_17od/upm/transport/HTTPTransport.java:70-90 | The constructor's proxy setup. There is none unless the proxy is enabled and both host and port are non-empty; then the port comes from `parseInt`. Credentials are set only if the user name and password are also non-empty, with the decoded password. Construction fails exactly when the proxy is enabled and either the password is unset or the port does not parse. |
| `Http.ConfigureProxy` | src/com/_17od/upm/transport/HTTPTransport.java:70-90 | Step by step, the client ends up with the proxy and proxy credentials of `ProxyDecision`. Its user credentials and preemptive flag are untouched. |
| `Http.PostVerdict` | src/com/_17od/upm/transport/HTTPTransport.java:129-135 | A POST succeeds exactly on status 200 with body `OK`. A broken connection fails with its cause wrapped. Another status fails with a message holding the status text. A 200 with another body fails with a message holding that body. |
| `Http.FetchVerdict` | src/com/_17od/upm/transport/HTTPTransport.java:171-177 | A GET succeeds exactly on status 200 and then yields the body bytes unchanged. Another status fails with a message holding the URL and the status text; a broken connection fails with its cause. |
| `Http.GetStatusMessageMentions` | src/com/_17od/upm/transport/HTTPTransport.java:174 | The failure message of `get` names both the URL and the status text. |
| `Http.RetryIsOneShot` | src/com/_17od/upm/transport/HTTPTransport.java:121-127 | `put` executes its POST once, or twice exactly when the first reply is 200 `FILE_WASNT_MOVED`; never more. |
| `Http.RetryThenAccept` | src/com/_17od/upm/transport/HTTPTransport.java:123-135 | When the retry draws 200 `OK`, the upload succeeds. |
| `Http.PersistentQuirkFails` | src/com/_17od/upm/transport/HTTPTransport.java:125-135 | When the retry also draws `FILE_WASNT_MOVED`, the upload fails with that body in its message. |
| `Http.StatusFailureIsNotRetried` | src/com/_17od/upm/transport/HTTPTransport.java:125-131 | A first reply with a status other than 200 is not retried. Its status text is in the failure. |
| `Http.HTTPTransport.constructor` | src/com/_17od/upm/transport/HTTPTransport.java:54-92 | A fresh client on a fresh connection manager with no leased connection, no user credentials and no preemptive authentication, holding the proxy setup of `ProxyDecision`. |
| `Http.PreemptiveAfter` | src/com/_17od/upm/transport/HTTPTransport.java:111-118 | Preemptive authentication is on after a request exactly when it was on before, or a user name was given and the URL parsed. |
| `Http.UploadUrl` | src/com/_17od/upm/transport/HTTPTransport.java:96 | The upload URL is the location and `upload.php` joined by exactly one `/`. |
| `Http.DeleteUrl` | src/com/_17od/upm/transport/HTTPTransport.java:196 | The delete URL is the location and `deletefile.php` joined by exactly one `/`. |
| `Http.UploadPost` | src/com/_17od/upm/transport/HTTPTransport.java:98-109 | The upload is a POST to the URL whose entity is the file as the multipart field `userfile`. |
| `Http.DeletePost` | src/com/_17od/upm/transport/HTTPTransport.java:198-199 | The delete is a POST to the URL whose form is the single parameter `fileToDelete` with the name. |
| `Http.HTTPTransport.SetAuthentication` | src/com/_17od/upm/transport/HTTPTransport.java:111-118 | With a user name, the credentials are stored for the URL's host and port and made preemptive. A URL that does not parse fails before anything is stored. Without a user name nothing changes. |
| `Http.HTTPTransport.Put` | src/com/_17od/upm/transport/HTTPTransport.java:94-149 | A missing file fails with file-not-found before any credentials are stored or anything is sent. A malformed URL fails before anything is sent. Otherwise it posts the file as `userfile` to `upload.php` under the location, once or twice as the protocol says. Once the file is found, the credentials and the preemptive flag are as `SetAuthentication` leaves them. The outcome is the verdict on the last reply. The connection count is back where it was on every path. |
| `Http.HTTPTransport.Get` | src/com/_17od/upm/transport/HTTPTransport.java:152-191 | It sends exactly one GET for the URL unless the URL is malformed with credentials given. The credentials and the preemptive flag are as `SetAuthentication` leaves them. The result is the verdict on the reply, and the connection is released on every path. |
| `Http.HTTPTransport.Delete` | src/com/_17od/upm/transport/HTTPTransport.java:194-233 | It posts `fileToDelete` with the name to `deletefile.php` under the location exactly once, never retried. The credentials and the preemptive flag are as `SetAuthentication` leaves them. The outcome is the verdict on the reply with the delete messages, and the connection is released on every path. |
| `Webdav.RewriteUrl` | src/com/_17od/upm/transport/WebdavTransport.java:55-65 | A `webdavs` prefix becomes `https`, with the rest kept. A `webdav` prefix becomes `http` (a plain URL). Any other URL is kept, and it is secure exactly when it starts with `https`. |
| `Webdav.RewriteIdempotent` | src/com/_17od/upm/transport/WebdavTransport.java:55-65 | Rewriting a rewritten URL changes neither its text nor its kind. |
| `Webdav.WebdavsIsServedOverHttps` | src/com/_17od/upm/transport/WebdavTransport.java:57-58 | A `webdavs:` URL goes to the WebDAV backend and is served as `https:` with everything after the scheme kept. |
| `Webdav.WebdavIsServedOverHttp` | src/com/_17od/upm/transport/WebdavTransport.java:59-60 | A `webdav:` URL goes to the WebDAV backend and is served as `http:` with everything after the scheme kept. |
| `Webdav.UpperCaseSchemeIsNotRewritten` | src/com/_17od/upm/transport/WebdavTransport.java:55-65 | `WEBDAV:` goes to the WebDAV backend, but its URL is left as it is, because the rewriting is case-sensitive. |
| `Webdav.CredentialsFor` | src/com/_17od/upm/transport/WebdavTransport.java:90-92 | Credentials are attached exactly when a user name is given, carrying that name and the password. |
| `Webdav.DrainAppend` | src/com/_17od/upm/transport/WebdavTransport.java:131-136 | Reads that deliver data add their bytes, in order, in front of whatever the rest of the stream yields. |
| `Webdav.DrainIsConcat` | src/com/_17od/upm/transport/WebdavTransport.java:131-136 | A stream of chunks that then ends yields exactly the concatenation of its chunks. |
| `Webdav.EmptyReadAddsNothing` | src/com/_17od/upm/transport/WebdavTransport.java:133-135 | A read of zero bytes adds nothing and does not end the loop. |
| `Webdav.NothingAfterEof` | src/com/_17od/upm/transport/WebdavTransport.java:136 | Nothing after the end of the stream is read. |
| `Webdav.InputStream.Read` | src/com/_17od/upm/transport/WebdavTransport.java:132 | A read places the next chunk at the start of the buffer and returns its length. At the end of the stream it returns -1 and stays there. A failure is reported without consuming anything. |
| `Webdav.ByteArrayOutputStream.Write` | src/com/_17od/upm/transport/WebdavTransport.java:134 | It appends `len` bytes of the buffer starting at `off`. |
| `Webdav.DavResource.SetHttpURL` | src/com/_17od/upm/transport/WebdavTransport.java:55-74 | The resource is set to the rewritten URL, with its credentials as user info, and the server records the lookup. An unreachable server fails and nothing changes. |
| `Webdav.DavResource.PutMethod` | src/com/_17od/upm/transport/WebdavTransport.java:94 | A missing file fails with file-not-found. Otherwise the result is whether the server accepts the upload, and the content is stored under the URL exactly when it does. |
| `Webdav.DavResource.GetMethodData` | src/com/_17od/upm/transport/WebdavTransport.java:129 | It opens a fresh stream of the URL's download, counted as open, or fails when the server has none. |
| `Webdav.DavResource.Close` | src/com/_17od/upm/transport/WebdavTransport.java:105-109 | The resource is closed, and the open count drops by one if it was open. |
| `Webdav.DownloadVerdict` | src/com/_17od/upm/transport/WebdavTransport.java:124-153 | A collection fails with `URL is a collection!` before anything is read. Otherwise a missing download fails with the library's not-found error, wrapped. If there is a download, it succeeds exactly when its stream does and returns the stream's bytes. A failed read is wrapped with its cause. |
| `Webdav.ReadFully` | src/com/_17od/upm/transport/WebdavTransport.java:127-139 | The do-while loop appends exactly what the stream delivers up to its end, i.e. `Drain` of its reads, or stops with the first read failure. |
| `Webdav.WebdavTransport.constructor` | src/com/_17od/upm/transport/HTTPTransport.java:54-92 | The same client setup as the HTTP backend it extends, with nothing open. |
| `Webdav.WebdavTransport.Open` | src/com/_17od/upm/transport/WebdavTransport.java:79-81 | A fresh resource without credentials or a URL, counted as open. |
| `Webdav.WebdavTransport.Put` | src/com/_17od/upm/transport/WebdavTransport.java:83-110 | It uploads the file to the slash-joined location and name, rewritten, with the credentials exactly when a user name is given. A refused upload fails with the WebDAV upload message and a missing file with file-not-found. The resource is closed on every path. |
| `Webdav.WebdavTransport.Get` | src/com/_17od/upm/transport/WebdavTransport.java:112-154 | It looks the rewritten URL up and yields `DownloadVerdict` for it. The stream and the resource are closed on every path. |
| `Webdav.WebdavTransport.Delete` | src/com/_17od/upm/transport/WebdavTransport.java:156-183 | It always succeeds and touches nothing. |
| `SortedList.HasUsesComparator` | src/com/_17od/upm/gui/SortedListModel.java:71-73 | Two elements that compare equal are either both contained or both absent: membership is by comparator, not identity. |
| `SortedList.OnlyOneEqual` | src/com/_17od/upm/gui/SortedListModel.java:32-41 | In the strictly ascending model, at most one stored element compares equal to any given element. |
| `SortedList.RankIsIndex` | src/com/_17od/upm/gui/SortedListModel.java:50-55 | The element at index `i` has exactly `i` stored elements below it. |
| `SortedList.InsertElements` | src/com/_17od/upm/gui/SortedListModel.java:58-62 | Adding brings in the new element and nothing else. |
| `SortedList.InsertSorted` | src/com/_17od/upm/gui/SortedListModel.java:58-62 | Adding keeps the model strictly ascending. |
| `SortedList.InsertHas` | src/com/_17od/upm/gui/SortedListModel.java:58-62 | After adding, the element is contained. |
| `SortedList.InsertPresent` | src/com/_17od/upm/gui/SortedListModel.java:58-62 | Adding an element that compares equal to a stored one changes nothing. |
| `SortedList.InsertAbsent` | src/com/_17od/upm/gui/SortedListModel.java:58-62 | Adding an absent element grows the model by one, and its contents by exactly that element. |
| `SortedList.RemoveAbsent` | src/com/_17od/upm/gui/SortedListModel.java:76-82 | Removing an absent element changes nothing. |
| `SortedList.RemovePresent` | src/com/_17od/upm/gui/SortedListModel.java:76-82 | Removing a present element deletes the one element that compares equal to it and keeps the rest in order. |
| `SortedList.RemoveSorted` | src/com/_17od/upm/gui/SortedListModel.java:76-82 | Afterwards the model is still strictly ascending and contains nothing equal to the removed element. |
| `SortedList.RemoveInsert` | src/com/_17od/upm/gui/SortedListModel.java:58-82 | Removing an element just added gives back the original model. |
| `SortedList.SortedListModel.constructor` | src/com/_17od/upm/gui/SortedListModel.java:35-42 | An empty model ordered by the given comparator. |
| `SortedList.SortedListModel.GetSize` | src/com/_17od/upm/gui/SortedListModel.java:45-47 | The number of stored elements. |
| `SortedList.SortedListModel.GetElementAt` | src/com/_17od/upm/gui/SortedListModel.java:50-55 | It fails exactly when the index is negative or at least the size, reporting both. Otherwise it returns the element with exactly that many stored elements below it. |
| `SortedList.SortedListModel.AddElement` | src/com/_17od/upm/gui/SortedListModel.java:58-62 | It inserts only when nothing equal is stored: one more element, and one change notification over the new size. Otherwise nothing changes and nothing is notified. The model stays strictly ascending. |
| `SortedList.SortedListModel.Clear` | src/com/_17od/upm/gui/SortedListModel.java:65-68 | The model is empty, and a change notification is fired with size 0. |
| `SortedList.SortedListModel.Contains` | src/com/_17od/upm/gui/SortedListModel.java:71-73 | True exactly when a stored element compares equal. |
| `SortedList.SortedListModel.RemoveElement` | src/com/_17od/upm/gui/SortedListModel.java:76-82 | True exactly when an equal element was stored. Then that one element is gone, the size drops by one, nothing equal remains, and a notification is fired; otherwise nothing changes. |

## Left out

- `Http.HTTPTransport.constructor`: it requires a proxy configuration that does not fail. The two unchecked exceptions the Java constructor can throw are stated by `Http.ProxyDecision` instead: a null password to decode, and a port `Integer.parseInt` rejects.
- `Webdav.WebdavTransport.constructor`: it requires the same non-failing proxy configuration as the HTTP constructor it inherits. The settings on which Java throws are stated by `Http.ProxyDecision` instead.
- Acceptance of self-signed certificates (HTTPTransport.java:58-68) registers a process-wide protocol handler in the HTTP library. It is global library state and is not modelled.
- Preferences are not read. The constructor takes the settings as a `ProxySettings` value, and Base64 decoding is the parameter `decode`.
- Pooling and concurrency in `MultiThreadedHttpConnectionManager` are not modelled. Only the number of leased connections is kept.
- The HTTP client library and the WebDAV library are scripted objects (`HttpServer`, `DavServer`). Their wire format, the multipart encoding, redirects and authentication challenges are not modelled.
- Reason phrases cover the common status codes (`Http.StatusText`). Any other code reads as `null`, as `HttpStatus.getStatusText` gives for codes it does not know.
- `java.net.URL` and `AuthScope` are modelled only as far as host and port go (`Urls.ScopeOf`), and simplified:
  - There is a fixed list of protocols and no IPv6 literals, and the port is -1 when absent.
  - The host keeps its letter case; `AuthScope` lower-cases it, so `Host` and `host` share one credentials entry in Java but not here.
  - With two `@` in the authority, the host here is the text after the last one; Java gives an empty host.
  - A port with a leading `+` is malformed here; Java accepts it.
- `Text.ParseInt` accepts only the ASCII digits `0`-`9`. Java's `Integer.parseInt` also accepts the decimal digits of other scripts, so for such a proxy port `Http.ProxyDecision` reports `BadProxyPort` where Java sets the proxy.
- `Text.Latin1` decodes every response body as ISO-8859-1. `getResponseBodyAsString` uses the charset the response declares and falls back to ISO-8859-1 only when none is declared. So the `OK` and `FILE_WASNT_MOVED` tests follow Java only for bodies in a charset that agrees with Latin-1 on those bytes (not, say, UTF-16).
- Lower-casing and collation depend on the locale in the source. Here lower-casing is ASCII, and the collator is any comparator that keeps the comparator contract.
- `getTransportForURL` yields which backend to use rather than a new instance of it.
- Writing the downloaded bytes to a temporary file in `getRemoteFile` (Transport.java:74-85) is file I/O. Only the request it forwards to `get` is modelled.
- The log messages of the WebDAV backend are not modelled.
- `hostConfig.setHost` in `setHttpURL` (WebdavTransport.java:70-72) is not modelled. It changes the client's host configuration only for the library's own use.
- Each WebDAV download is a finite list of reads. A stream that returns zero bytes forever, which would keep the Java loop running, cannot be expressed.
- Closing a WebDAV resource or stream never fails here. The source ignores a failing `davRes.close()` (WebdavTransport.java:148-152). A failing `is.close()` is not modelled: in Java it would make the download fail, replacing any earlier read failure (WebdavTransport.java:137-147).
- The WebDAV library's own failures are reduced to two: an unreachable server at `setHttpURL`, and a missing download at `getMethodData`.
- Webdav.UpperCaseSchemeIsNotRewritten: the model does not capture what the WebDAV library does with a mixed-case scheme such as `WEBDAV://` that reaches it unrewritten. In the model it is served like any other URL. The library's `HttpURL` may instead reject the scheme, which would make the operation fail.
- The Swing event `fireContentsChanged` is kept only as a record of its index range.
- src/com/_17od/upm/platformspecific/mac/AppleExtensionsCode.java (menu hooks) and the CSV marshaller test are not part of this model.
