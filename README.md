# toastate-sdk-go core, modelled in Dafny

This project models the client side of the Toastate Go SDK: how a request is
prepared and sent, how the answer is classified, and how the SDK's public
operations check their inputs and the replies they get.

- **`internal/apiclient` (files `base.dfy`, `multipart.dfy`, `producers.dfy`, `client.dfy`, `requests.dfy`, `methods.dfy`).**
  - The `Client` with its settings, `prepareURL`, `NewClient`'s argument checks and the headers `setupRequest` adds.
  - The four request functions. The plain JSON request and the raw stream each classify a response into exactly one of three results: a local error, an API `Error` or a decoded value.
  - The two multipart uploads, run sequentially:
    - The goroutine that walks a folder, or drains a channel of readers, becomes a method over an abstract sequence of walk entries or channel values.
    - It writes into a `Body` (the form writer plus the writing end of the pipe).
    - Each source is copied in 5 MiB chunks.
    - Each opened file or received reader is closed once.
    - The first error is kept in a `Latch` (`writeErr` with its `sync.Once`).
    - The `request` field is written only when the loop left `err` nil.
    - After the transport call, the transport error comes first, then the latched error, then the status classification.
  - The seventeen public wrapper methods, as a table of the `(function, authed, verb)` each forwards.
- **`toastcloud` (files `models.dfy`, `responses.dfy`, `toaster.dfy`, `custom_domains.dfy`, `user.dfy`, `session.dfy`).**
  - Every operation checks its input first, with the ID checks and `GetToasterFile`'s path rewrite.
  - It then makes exactly one client call, described as a `Call` value (wrapper, URL, body, upload).
  - The reply goes through the fixed chain: local error, `APIERROR` text, `success == false`, then, for some operations, a missing payload.
  - `CreateToaster` and `UpdateToaster` choose the code source in priority order and fill the request step by step.
  - `Session` gates `SetAuth` on the `sess_` prefix.

The network, JSON, the filesystem walk and base32 are parameters, not modelled:
- `Env.transport` maps the outgoing request to a response or a transport error.
- `Decoders` are the two `json.Unmarshal` calls.
- `Env.encode` is the JSON encoder.
- `Env.newRequest` is `http.NewRequest`'s validation.
- `Form.walk` gives the entries `filepath.Walk` visits.
- `Form.encodeName` is the base32 file-name encoding.
- In the `toastcloud` operations, `send` stands for the client call.

The pipe appears only as a budget of units (`room`):
- a part header, each byte and the closing boundary take one unit each;
- `None` means the server reads everything;
- writing beyond the budget returns `io.ErrClosedPipe`, as a write does after the server stops reading.

A quirk of the code as written is modelled and proved (`Producers.QueueSkipsRequestField`):
- In the reader upload, every item that is copied to the end leaves the loop's `err` at `io.EOF`.
- So the JSON `request` field is written only when the nil sentinel is the very first value received.
- With at least one streamed file, a `CreateToaster` or `UpdateToaster` that uses `CodeStream` uploads its code without its settings.

## Model

| member | source | states |
|---|---|---|
| Base.NatToStringRoundTrip | toastcloud/toaster.go:38 | reading the decimal digits `%v` prints for a status gives the number back |
| Multipart.CreatePart | internal/apiclient/requests.go:173-176 | creating a form file part succeeds exactly when its header fits in the pipe, and then appends an empty part with that field and file name; otherwise it fails with io.ErrClosedPipe and changes nothing |
| Multipart.WriteData | internal/apiclient/requests.go:188 | a write into the current part succeeds exactly when the data fits; then all of it is appended to that part; otherwise the part receives the prefix that fits and the error is io.ErrClosedPipe |
| Multipart.AddFieldWrites | internal/apiclient/requests.go:205-210 | WriteField succeeds exactly when header and value fit, and then adds one part without a file name holding the value |
| Multipart.Finish | internal/apiclient/requests.go:212 | closing the form writer keeps the parts and succeeds exactly when the closing boundary fits, marking the body finished |
| Multipart.Copy | internal/apiclient/requests.go:187-198 | copying a whole source always ends with an error: its end (io.EOF or its fault) if everything fits, io.ErrClosedPipe otherwise |
| Multipart.FirstErrorAppend | internal/apiclient/requests.go:152-157 | offering one more error changes the latched error only when none was latched, and a nil offer changes nothing |
| Multipart.FirstErrorKept | internal/apiclient/requests.go:203-213 | once an error is latched no later offer (request field, form close, pipe close) changes it |
| Multipart.FirstErrorIsFirst | internal/apiclient/requests.go:149-157 | the latched error is nil iff every offer was nil, and otherwise it is the first non-nil offer |
| Multipart.Latch.constructor | internal/apiclient/requests.go:149-152 | `writeErr` and its `sync.Once` start unset: nothing is latched and no offer has been made |
| Multipart.Latch.Set | internal/apiclient/requests.go:152-157 | setErr records the offer and keeps the old error if there was one, else takes the new one |
| Multipart.Body.constructor | internal/apiclient/requests.go:145-146 | a new body over the pipe holds no parts, is not finished and the pipe is open |
| Multipart.Body.CreateFormFile | internal/apiclient/requests.go:173 | CreateFormFile updates the body exactly as CreatePart describes, the pipe staying open |
| Multipart.Body.Write | internal/apiclient/requests.go:188 | a write reports `n` bytes written, those bytes being exactly the prefix appended; with no error every byte was written |
| Multipart.Body.WriteField | internal/apiclient/requests.go:206 | WriteField updates the body exactly as AddField describes |
| Multipart.Body.Close | internal/apiclient/requests.go:212 | formWriter.Close updates the body exactly as Finish describes |
| Multipart.Body.ClosePipe | internal/apiclient/requests.go:213 | bodyWriter.Close closes the pipe, leaves the body as it is and returns nil |
| Multipart.CopyN | internal/apiclient/requests.go:188 | io.CopyN writes min(n, remaining) bytes in order; a short copy ends with the source's end error, a full one with nil |
| Multipart.ChunkStep | internal/apiclient/requests.go:187-198 | one 5 MiB chunk written in full moves the copy forward by that chunk; a short write fails with io.ErrClosedPipe |
| Multipart.CopyComplete | internal/apiclient/requests.go:187-198 | once every byte was copied the loop's result is the source's end error |
| Multipart.CopyChunks | internal/apiclient/requests.go:187-198 | the chunked copy loop leaves the body and error exactly as Copy describes: the whole source in order if it fits |
| Producers.WalkStopsAtError | internal/apiclient/requests.go:159-201 | after the first error of the walk no later entry is visited or changes anything |
| Producers.Walk | internal/apiclient/requests.go:159-201 | filepath.Walk with the callback produces the body, the error and the closed files that WalkSpec describes, pipe still open |
| Producers.VisitEntry | internal/apiclient/requests.go:160-200 | the callback returns a walk error as is, skips directories, then fails on Rel, CreateFormFile, open or copy in that order, closing the file it opened |
| Producers.VisitClean | internal/apiclient/requests.go:160-200 | the callback returns nil exactly for a directory or a readable file whose part fits, and then adds exactly that file's part |
| Producers.WalkSucceeds | internal/apiclient/requests.go:159-201 | the walk returns nil iff every entry is clean and all parts fit; then the body gains one `file` part per regular file in walk order, named by the encoded relative path, and the regular files are the ones closed |
| Producers.WalkClosesOnce | internal/apiclient/requests.go:178-185 | every closed index is a regular file, each closed once, in increasing walk order |
| Producers.ReceiveClean | internal/apiclient/requests.go:300-323 | a received item is closed once and leaves `err` non-nil; the loop continues iff its reader ends in io.EOF and its part fits, and then the part holds the reader's whole data |
| Producers.DrainStopsAtStop | internal/apiclient/requests.go:294-324 | once the F1 loop has ended, later channel values are never received |
| Producers.DrainShape | internal/apiclient/requests.go:294-324 | readers 0,1,2,... are closed in order, each once, and only items; `err` is nil only if no item was received; a failure ends the loop; a loop that ended without failure stopped at the sentinel right after the last item |
| Producers.DrainSucceeds | internal/apiclient/requests.go:294-324 | over items, the loop continues iff every reader ends in io.EOF and everything fits, and then the body holds every item's part in order |
| Producers.EpilogueClean | internal/apiclient/requests.go:205-213 | after the loop, the request field (only when the loop's err is nil and the body non-empty) and the close succeed iff they fit, and the body is then finished with the field last |
| Producers.LatchedNone | internal/apiclient/requests.go:203-213 | the goroutine latches nothing iff the loop error and both later offers are nil; a loop error is what stays latched |
| Producers.Finalize | internal/apiclient/requests.go:205-213 | the tail writes the guarded request field, closes the form and the pipe, offering each error to the latch in that order |
| Producers.ProduceFolder | internal/apiclient/requests.go:158-214 | the folder goroutine leaves the body, the latched error and the closed files that FolderSpec describes, with the pipe closed |
| Producers.ProduceQueue | internal/apiclient/requests.go:293-335 | the reader goroutine drains the channel with the F1 loop until the first nil or the first failing item and leaves what QueueSpec describes, with the pipe closed |
| Producers.FolderUploadsAll | internal/apiclient/requests.go:158-214 | a folder upload latches nothing iff every entry is clean and everything fits, and the server then gets one part per regular file in walk order, the request field, and the closing boundary |
| Producers.FolderLatchesWalkError | internal/apiclient/requests.go:203-210 | a failed walk is the latched error and no request field is written after it |
| Producers.QueueSkipsRequestField | internal/apiclient/requests.go:309-331 | when the first value received is an item, no request field is ever written, whatever the marshalled body |
| Producers.QueueSentinelFirst | internal/apiclient/requests.go:296-331 | a nil first value: no part, no close, and the request field is written when it fits |
| Producers.QueueLatchesFailure | internal/apiclient/requests.go:301-334 | a failed part creation or copy is the latched error and nothing but the closing boundary follows it |
| Producers.QueueUploadsAll | internal/apiclient/requests.go:294-334 | with items up to the sentinel at k, the upload latches nothing iff every reader ends in io.EOF and everything fits; the server then gets the items' parts in order, and the request field only when k is 0 |
| Client.NewClientPanic | internal/apiclient/client.go:19-24 | NewClient panics iff the version or the domain is empty, the version being checked first, with the source's messages |
| Client.PrepareURL | internal/apiclient/client.go:49-58 | an empty URL panics; otherwise the result starts with "https://" + domain + "/" and its path is the input with one '/' added only when it had none |
| Client.PrepareURLStable | internal/apiclient/client.go:53-57 | preparing the path part of a prepared URL again gives the same URL: slashes are never collapsed or doubled |
| Client.CanonicalKey | internal/apiclient/client.go:36-40 | the key Header.Add stores: same length, and only the case of letters changes; a key with a non-token character is kept as written |
| Client.CanonicalKeyIgnoresCase | internal/apiclient/client.go:36-40 | two token keys that differ only in letter case are stored under the same key |
| Client.CanonicalKeyIdempotent | internal/apiclient/client.go:36-40 | canonicalising a stored key again changes nothing |
| Client.StoredApiVersionKey | internal/apiclient/client.go:36 | "X-TOASTATE-APIVERSION" is stored as "X-Toastate-Apiversion" |
| Client.StoredAuthKey | internal/apiclient/client.go:40 | "X-TOASTATE-AUTH" is stored as "X-Toastate-Auth" |
| Client.StoredContentTypeKey | internal/apiclient/client.go:37 | "Content-Type" is already canonical and is stored as written |
| Client.AddHeader | internal/apiclient/client.go:36-40 | Header.Add appends a value to the list of the key's canonical form and leaves other keys alone |
| Client.SetHeader | internal/apiclient/requests.go:221 | Header.Set replaces the list of the key's canonical form by the one value and leaves other keys alone |
| Client.PreparedFresh | internal/apiclient/client.go:35-42 | on a new request setupRequest sets exactly "X-Toastate-Apiversion" and "Content-Type" (JSON), plus "X-Toastate-Auth" with the token iff authed |
| Client.HttpRequest.constructor | internal/apiclient/requests.go:216 | http.NewRequest: the verb, URL and body given, no headers |
| Client.HttpRequest.Set | internal/apiclient/requests.go:221 | req.Header.Set on the request's headers |
| Client.ApiClient.constructor | internal/apiclient/client.go:18-33 | a client built from a non-panicking domain and version, with no token |
| Client.ApiClient.SetAuthToken | internal/apiclient/client.go:44-47 | only the token changes, and the same client is returned |
| Client.ApiClient.SetupRequest | internal/apiclient/client.go:35-42 | adds the version, the JSON content type and (iff authed) the token to the request's headers |
| Requests.ApiErrorOf | internal/apiclient/requests.go:53-71 | a non-200 error keeps the HTTP status unless the JSON body carries a "status", which then replaces it; an empty body gives code "unhandled" with the fixed message; invalid JSON gives "unhandled" with the fixed prefix followed by the raw body |
| Requests.Classify | internal/apiclient/requests.go:53-78 | an API error iff the status is not 200; a decoded value iff 200 and the body decodes; otherwise the decode error, so never both an API error and a local error |
| Requests.ClassifyStream | internal/apiclient/requests.go:110-133 | the raw stream: an API error iff not 200, otherwise the body itself, never a local error |
| Requests.Reconcile | internal/apiclient/requests.go:226-265 | after an upload the transport error wins, then the latched write error, then the status classification |
| Requests.UploadHeaderContentType | internal/apiclient/requests.go:220-221 | an upload's Content-Type is the one multipart value, the JSON one having been replaced |
| Requests.Request | internal/apiclient/requests.go:21-79 | `request` prepares the URL, encodes the body, builds the request with setupRequest's headers, sends it and classifies the response, each failure returned as a local error |
| Requests.RequestStreamRawResponse | internal/apiclient/requests.go:81-134 | as `request`, but a 200 hands over the raw body |
| Requests.RequestMultipartFolder | internal/apiclient/requests.go:136-266 | the folder upload: marshal, produce the body, build the request with the multipart type, send, then reconcile |
| Requests.RequestMultipartReaders | internal/apiclient/requests.go:268-388 | the reader upload: the same with the channel drain as producer |
| Requests.FolderReportsWalkError | internal/apiclient/requests.go:203-235 | once the transport returns, a failed walk is what a folder upload reports, whatever the response |
| Requests.FolderUploadDelivers | internal/apiclient/requests.go:158-265 | with clean entries that fit, the server is sent each file's part in walk order and the request field, and the reply is the classified response |
| Requests.ReadersReportFailure | internal/apiclient/requests.go:301-357 | once the transport returns, a failed reader is what a reader upload reports |
| Methods.TwinsDifferOnlyInAuth | internal/apiclient/methods.go:9-75 | every Authed method passes authed true and its twin the same arguments with false; AuthedStreamedGet alone has no twin |
| Methods.Invoke | internal/apiclient/methods.go:9-75 | a wrapper call forwards the URL, body and upload unchanged with its fixed function, authed flag and verb |
| Methods.DispatchInvoke | internal/apiclient/methods.go:9-75 | every method runs the request function of its kind with its own authed flag and verb and the caller's URL and body: AuthedStreamedGet alone answers with the raw body, the others run request, requestMultipartFolder or requestMultipartReaders by their upload |
| Methods.Verbs | internal/apiclient/methods.go:9-75 | GET methods take no body and go to request or requestStreamRawResponse; uploads use POST or PUT; AuthedStreamedGet is the only streamed one |
| Responses.ApiErrorText | toastcloud/toaster.go:37-38 | the APIERROR text starts with the prefix and the printed status followed by "; code: " |
| Responses.IntToStringInjective | toastcloud/toaster.go:38 | different statuses print differently |
| Responses.ApiErrorTextKeepsStatus | toastcloud/toaster.go:37-38 | two API errors with the same text have the same status |
| Responses.Relayed | toastcloud/toaster.go:154-159 | a local error is returned as is, an API error becomes its APIERROR text, a value passes |
| Responses.Check | toastcloud/toaster.go:33-45 | the result is a value iff the reply decoded with success true, and that value is the payload; a failure carries the relayed error or the 200-failure message |
| Responses.Require | toastcloud/toaster.go:80-82 | the payload check fails with its message exactly on a successful reply whose payload is missing, and passes everything else through |
| Responses.Output | toastcloud/toaster.go:43-45 | the output is built from the checked payload and a failure is passed through |
| Toaster.ToasterCount | toastcloud/toaster.go:24-46 | an empty ID is rejected before any call; otherwise one AuthedGet of /toaster/count/ID whose checked reply gives the running count |
| Toaster.ToasterStatsOf | toastcloud/toaster.go:61-87 | an empty ID is rejected; otherwise an AuthedGet of /toaster/stats/ID; success needs success true and non-nil stats |
| Toaster.GetToaster | toastcloud/toaster.go:102-128 | an empty ID is rejected with the "to get" message; a reply without a Toaster is an empty body |
| Toaster.GetToasterFile | toastcloud/toaster.go:139-171 | the method checks the ID, then the path, strips one leading '/' and writes it back, and then fetches the stream |
| Toaster.GetToasterFileOutcomes | toastcloud/toaster.go:139-171 | the ID is checked first; a path "" or "/" is rejected; otherwise the URL is /toaster/file/ID followed by the path with one '/' put before it only if it had none; the stream's bytes are the output and success is not checked |
| Toaster.GetToasterFileTwice | toastcloud/toaster.go:148-154 | reusing the rewritten input asks for the same file again unless the path began with "//" |
| Toaster.ListToasterFiles | toastcloud/toaster.go:186-208 | an empty ID is rejected; the file list is returned as it is, even empty |
| Toaster.GetToasterLogs | toastcloud/toaster.go:224-246 | an empty ID is rejected; the URL is /toaster/logs/ID/ExeID; the logs are returned as they are |
| Toaster.ListToasters | toastcloud/toaster.go:260-278 | no input check; AuthedGet of /toaster/list; the list is returned as it is |
| Toaster.DeleteToaster | toastcloud/toaster.go:291-307 | the input is the body of an AuthedDelete of /toaster, unchecked |
| Toaster.EmptyPayloads | toastcloud/toaster.go:61-278 | for every client reply: a successful one without a Toaster or stats is an empty-body failure, while any file list, logs or Toaster list a successful reply holds, empty or not, is returned as is |
| Toaster.SourceOf | toastcloud/toaster.go:394-412 | the code source is the first given among CodePaths, GitURL, CodeFolder and CodeStream, else none |
| Toaster.BuildCreateRequest | toastcloud/toaster.go:379-405 | the request copies the common fields, codes and paths only for inline code, Git fields only for Git |
| Toaster.CreateRequestUnique | toastcloud/toaster.go:379-405 | the request an input determines is unique |
| Toaster.CreateRequestOneSource | toastcloud/toaster.go:394-405 | the request never carries both inline code and Git fields, and a folder or stream upload carries neither |
| Toaster.ToasterReply | toastcloud/toaster.go:417-427 | the reply succeeds iff it decoded with success true and holds a Toaster; otherwise the relayed error, the 200 message or the empty-body message |
| Toaster.CreateToaster | toastcloud/toaster.go:377-434 | CreateToaster sends its built request through the method its source selects and returns the Toaster, domain and logs of a checked reply |
| Toaster.BuildUpdateRequest | toastcloud/toaster.go:509-535 | the update request copies the common fields and GitRefresh, the code only inline, and sets every Git pointer (even to "") only for Git |
| Toaster.UpdateToaster | toastcloud/toaster.go:503-564 | an empty ID is rejected before any call; otherwise as CreateToaster with PUT on /toaster/ID |
| Toaster.CreateAndUpdateUploadAlike | toastcloud/toaster.go:394-542 | the same code fields make create and update use the same request function and upload; a folder or stream means a multipart upload, else JSON |
| CustomDomains.CreateCustomDomain | toastcloud/customDomains.go:31-52 | the input is POSTed unchanged to /customdomain; on success the details are copied and Verified is false |
| CustomDomains.VerifyCustomDomain | toastcloud/customDomains.go:67-89 | an empty ID is rejected with the "to update" message; otherwise a POST with no body to /customdomain/verify/ID |
| CustomDomains.UpdateRequest | toastcloud/customDomains.go:124-127 | the update request carries only Domains and LinkedToaster |
| CustomDomains.UpdateCustomDomain | toastcloud/customDomains.go:118-147 | an empty ID is rejected; the ID appears only in the PUT's path; the checked details are returned as they are |
| CustomDomains.ListCustomDomains | toastcloud/customDomains.go:161-179 | AuthedGet of /customdomain/list with the list returned as it is |
| CustomDomains.GetCustomDomain | toastcloud/customDomains.go:200-225 | an empty ID is rejected with the "to get" message; the checked details are returned |
| CustomDomains.DeleteCustomDomain | toastcloud/customDomains.go:238-258 | an empty ID is rejected with the "to delete" message; a DELETE with no body |
| CustomDomains.DomainURLs | toastcloud/customDomains.go:118-245 | get, update and delete address the same URL with GET, PUT and DELETE; the ID "list" makes get ask for the list URL |
| CustomDomains.NoPayloadCheck | toastcloud/customDomains.go:31-236 | for every client reply: whatever details a successful get, verify or create reply holds, a missing domain included, are returned as a success |
| CustomDomains.MissingIdMessages | toastcloud/customDomains.go:68-70 | verify and update report a missing ID with the same message |
| User.Signup | toastcloud/user.go:23-47 | an unauthenticated POST of the input to /signup; success needs a user |
| User.SigninRequestOf | toastcloud/user.go:73-79 | the signin request forwards email, password and extended session, with no cookie and a token asked for |
| User.Signin | toastcloud/user.go:70-101 | an unauthenticated POST to /signin; success needs a non-empty token, else the token message |
| User.SetupBilling | toastcloud/user.go:113-135 | an authenticated POST with no body; success needs a non-empty URL |
| User.EmptyAnswers | toastcloud/user.go:92-130 | for every input and client: a successful reply with an empty token, URL or no user fails, each with its own message |
| Session.Session.constructor | toastcloud/session.go:14-18 | NewSession: a fresh client for api.cloud.toastate.com, version v1, without a token |
| Session.Session.SetAuth | toastcloud/session.go:20-30 | a string starting with "sess_" becomes the client's token unchanged; anything else is a fatal "invalid authentication" with the token unchanged; the same session is returned |

## Left out

- Concurrency: the producer goroutine, the io.Pipe hand-off and its backpressure are run sequentially. What the server reads is modelled only as a budget of pipe units; how much it reads before stopping is an input.
- The unsynchronised read of `writeErr` after the transport returns: the model reads the latch after the producer finished.
- The transport, its 30 second and 3600 hour timeouts, and the debug print on a failed reader upload (internal/apiclient/requests.go:351).
- `filepath.Walk` order, `os.OpenFile`, `bufio` and `filepath.Rel` are the given sequence of walk entries, each one already readable or failing.
- base32 file names and the multipart boundary framing: an opaque name encoder and a list of parts.
- JSON encoding and decoding, including `marshalBody` (internal/apiclient/utils.go): function parameters returning a value or an error.
- `ToasterStats`' floating-point fields.
- `fmt.Errorf` formatting beyond the fixed message shapes: non-status values are printed as they are.
- `log.Fatal` in `SetAuth`: returned as an outcome instead of ending the process.
- Requests.RequestMultipartFolder: `http.NewRequest` is checked before the producer runs. When it fails, the Go goroutine is left blocked on the pipe; that leak is not modelled.
- Requests.RequestMultipartReaders: requires the F1 loop to end, by the nil sentinel or by a failing item. A channel that does neither blocks the Go goroutine forever, which the model does not represent.
- Client.ApiClient.constructor: a panicking `NewClient` is a precondition rather than an outcome; `NewClientPanic` states when it panics.
- Methods.Invoke: the response pointer every wrapper forwards is not an argument; the reply type stands for it.
- The input structs of CreateToaster and UpdateToaster share one `CodeFields` value for the code alternatives, which Go declares as separate fields in each struct.
- A reply that decodes into the response struct is a whole payload; partial decoding of a 200 body is not modelled.
