/** The four request functions of internal/apiclient/requests.go: build the
    request, send it, and turn the response into exactly one of a local
    error, an API error or a decoded result.

    The JSON codec, http.NewRequest's validation and the HTTP transport are
    parameters (`Env`); so are the filesystem walk, the file-name encoder
    and the pipe's room for the uploads. */
module Requests {
  import opened Base
  import opened Multipart
  import opened Producers
  import opened Client

  /** apiclient.Error */
  datatype ApiError = ApiError(code: string, message: string, status: int)

  /** The keys a JSON error body sets. `status` is there because Error.Status
      has no JSON tag, so json.Unmarshal matches a "status" key to it. */
  datatype ErrorJson = ErrorJson(code: Option<string>, message: Option<string>, status: Option<int>)

  /** json.Unmarshal into an Error: the fields it managed to set, and whether
      it returned nil. A body that is not JSON at all sets nothing. */
  datatype ErrorDecoding = ErrorDecoding(fields: ErrorJson, valid: bool)

  datatype Response = Response(status: int, body: seq<byte>)

  /** The `(*Error, error)` result pair, at most one of them non-nil, and
      the decoded result when both are nil. */
  datatype Reply<R> = LocalErr(err: Error) | ApiErr(apiErr: ApiError) | Decoded(value: R)

  /** What the transport is handed. */
  datatype Outgoing = Outgoing(verb: string, url: string, header: Header, body: Payload)

  /** json.Unmarshal, into *Error and into the caller's `resp`. */
  datatype Decoders<R> = Decoders(
    decodeError: seq<byte> -> ErrorDecoding,
    decodeResult: seq<byte> -> Result<R>)

  /** The code this model does not see, as total functions. */
  datatype Env<-P, R> = Env(
    encode: P -> Result<seq<byte>>,                // json.Encoder.Encode of a request body
    newRequest: (string, string) -> Option<Error>, // http.NewRequest's error for (method, url)
    transport: Outgoing -> Result<Response>,       // http.Client.Do, the response body read in full
    decoders: Decoders<R>)

  const Unhandled: string := "unhandled"
  const NoMessage: string := "The remote API did not provide any error message"
  const InvalidJson: string := "The remote API provided the following invalid JSON error: "
  const MultipartType: string := "multipart/form-data; boundary="

  /** Overwrites the fields of `e` that the JSON body set. */
  function Fill(e: ApiError, j: ErrorJson): ApiError {
    ApiError(j.code.GetOr(e.code), j.message.GetOr(e.message), j.status.GetOr(e.status))
  }

  /** The Error built for a non-200 response: the HTTP status unless the
      body sets a "status" key (Status has no json tag, so json.Unmarshal
      fills it), with the "unhandled" code when the body is empty or not a
      valid error object. */
  function ApiErrorOf(status: int, b: seq<byte>, decodeError: seq<byte> -> ErrorDecoding): (e: ApiError)
    ensures |b| == 0 ==> e == ApiError(Unhandled, NoMessage, status)
    ensures |b| > 0 && !decodeError(b).valid ==>
      e.code == Unhandled && e.message == InvalidJson + BytesToString(b)
    ensures |b| > 0 && decodeError(b).valid ==>
      e.code == decodeError(b).fields.code.GetOr("") && e.message == decodeError(b).fields.message.GetOr("")
    ensures |b| == 0 || decodeError(b).fields.status.None? ==> e.status == status
    ensures |b| > 0 && decodeError(b).fields.status.Some? ==> e.status == decodeError(b).fields.status.value
  {
    var e := ApiError("", "", status);
    if |b| == 0 then e.(code := Unhandled, message := NoMessage)
    else
      var d := decodeError(b);
      var filled := Fill(e, d.fields);
      if !d.valid then filled.(code := Unhandled, message := InvalidJson + BytesToString(b))
      else filled
  }

  /** Status handling of `request`: a non-200 status is an API error, a 200
      is decoded into the result and only the decoding can fail. */
  function Classify<R>(resp: Response, dec: Decoders<R>): (r: Reply<R>)
    ensures r.ApiErr? <==> resp.status != 200
    ensures r.ApiErr? ==> r.apiErr == ApiErrorOf(resp.status, resp.body, dec.decodeError)
    ensures r.Decoded? <==> resp.status == 200 && dec.decodeResult(resp.body).Ok?
    ensures r.Decoded? ==> r.value == dec.decodeResult(resp.body).value
    ensures r.LocalErr? ==> dec.decodeResult(resp.body) == Fail(r.err)
  {
    if resp.status != 200 then ApiErr(ApiErrorOf(resp.status, resp.body, dec.decodeError))
    else
      match dec.decodeResult(resp.body)
      case Ok(v) => Decoded(v)
      case Fail(err) => LocalErr(err)
  }

  /** Status handling of `requestStreamRawResponse`: a 200 hands over the
      response body unread; anything else is an API error. */
  function ClassifyStream(resp: Response, decodeError: seq<byte> -> ErrorDecoding): (r: Reply<seq<byte>>)
    ensures r.ApiErr? <==> resp.status != 200
    ensures !r.LocalErr?
    ensures r.ApiErr? ==> r.apiErr == ApiErrorOf(resp.status, resp.body, decodeError)
    ensures r.Decoded? ==> r.value == resp.body
  {
    if resp.status != 200 then ApiErr(ApiErrorOf(resp.status, resp.body, decodeError))
    else Decoded(resp.body)
  }

  /** What an upload returns once the transport is done: the transport error
      first, then the error the producer latched, and only then the status. */
  function Reconcile<R>(sent: Result<Response>, latched: Option<Error>, dec: Decoders<R>): (r: Reply<R>)
    ensures sent.Fail? ==> r == LocalErr(sent.err)
    ensures sent.Ok? && latched.Some? ==> r == LocalErr(latched.value)
    ensures sent.Ok? && latched.None? ==> r == Classify(sent.value, dec)
  {
    if sent.Fail? then LocalErr(sent.err)
    else if latched.Some? then LocalErr(latched.value)
    else Classify(sent.value, dec)
  }

  /** Encoding of an optional request body (marshalBody and the inline copies):
      nil gives no bytes. */
  function Marshal<P>(body: Option<P>, encode: P -> Result<seq<byte>>): Result<seq<byte>> {
    if body.None? then Ok([]) else encode(body.value)
  }

  /** The payload of a JSON request. */
  function JsonPayload<P>(body: Option<P>, bytes: seq<byte>): Payload {
    if body.None? then NoBody else JsonBody(bytes)
  }

  /** The headers of an upload: setupRequest's, then the multipart type Set
      over the JSON one. */
  function UploadHeader(s: Settings, authed: bool, boundary: string): Header {
    SetHeader(Prepared(map[], s.apiVersion, s.authToken, authed), ContentTypeKey, MultipartType + boundary)
  }

  /** An upload carries one Content-Type, the multipart one. */
  lemma UploadHeaderContentType(s: Settings, authed: bool, boundary: string)
    ensures var h := UploadHeader(s, authed, boundary);
      && h.Keys == {"X-Toastate-Apiversion", "Content-Type"} + (if authed then {"X-Toastate-Auth"} else {})
      && h["Content-Type"] == [MultipartType + boundary]
      && h["X-Toastate-Apiversion"] == [s.apiVersion]
      && (authed ==> h["X-Toastate-Auth"] == [s.authToken])
  {
    PreparedFresh(s.apiVersion, s.authToken, authed);
    StoredContentTypeKey();
  }

  /** `request`, as a function of the client's settings. */
  function RequestSpec<P, R>(s: Settings, env: Env<P, R>, authed: bool, url: string, verb: string, body: Option<P>): Reply<R>
    requires url != ""
  {
    var full := PrepareURL(s.domainName, url).value;
    var enc := Marshal(body, env.encode);
    if enc.Fail? then LocalErr(enc.err)
    else if env.newRequest(verb, full).Some? then LocalErr(env.newRequest(verb, full).value)
    else
      var out := Outgoing(verb, full, Prepared(map[], s.apiVersion, s.authToken, authed), JsonPayload(body, enc.value));
      match env.transport(out)
      case Fail(err) => LocalErr(err)
      case Ok(resp) => Classify(resp, env.decoders)
  }

  /** `request`: prepare the URL, encode the body, build the request, add
      the standard headers, send it and classify the response. */
  method Request<P, R>(c: ApiClient, env: Env<P, R>, authed: bool, url: string, verb: string, body: Option<P>)
    returns (r: Reply<R>)
    requires url != ""
    ensures r == RequestSpec(c.Config(), env, authed, url, verb, body)
  {
    var full := PrepareURL(c.domainName, url).value;
    var enc := Marshal(body, env.encode);
    if enc.Fail? {
      return LocalErr(enc.err);
    }
    var bad := env.newRequest(verb, full);
    if bad.Some? {
      return LocalErr(bad.value);
    }
    var req := new HttpRequest(verb, full, JsonPayload(body, enc.value));
    c.SetupRequest(req, authed);
    var sent := env.transport(Outgoing(req.verb, req.url, req.header, req.body));
    if sent.Fail? {
      return LocalErr(sent.err);
    }
    r := Classify(sent.value, env.decoders);
  }

  /** `requestStreamRawResponse`, as a function of the client's settings. */
  function StreamSpec<P, R>(s: Settings, env: Env<P, R>, authed: bool, url: string, verb: string, body: Option<P>): Reply<seq<byte>>
    requires url != ""
  {
    var full := PrepareURL(s.domainName, url).value;
    var enc := Marshal(body, env.encode);
    if enc.Fail? then LocalErr(enc.err)
    else if env.newRequest(verb, full).Some? then LocalErr(env.newRequest(verb, full).value)
    else
      var out := Outgoing(verb, full, Prepared(map[], s.apiVersion, s.authToken, authed), JsonPayload(body, enc.value));
      match env.transport(out)
      case Fail(err) => LocalErr(err)
      case Ok(resp) => ClassifyStream(resp, env.decoders.decodeError)
  }

  /** `requestStreamRawResponse`: like `request`, but a 200 response body is
      handed back unread instead of being decoded. */
  method RequestStreamRawResponse<P, R>(c: ApiClient, env: Env<P, R>, authed: bool, url: string, verb: string, body: Option<P>)
    returns (r: Reply<seq<byte>>)
    requires url != ""
    ensures r == StreamSpec(c.Config(), env, authed, url, verb, body)
  {
    var full := PrepareURL(c.domainName, url).value;
    var enc := Marshal(body, env.encode);
    if enc.Fail? {
      return LocalErr(enc.err);
    }
    var bad := env.newRequest(verb, full);
    if bad.Some? {
      return LocalErr(bad.value);
    }
    var req := new HttpRequest(verb, full, JsonPayload(body, enc.value));
    c.SetupRequest(req, authed);
    var sent := env.transport(Outgoing(req.verb, req.url, req.header, req.body));
    if sent.Fail? {
      return LocalErr(sent.err);
    }
    r := ClassifyStream(sent.value, env.decoders.decodeError);
  }

  /** What an upload depends on besides the request: the filesystem walk of
      a folder, the file-name encoder (base32), the room the transport leaves
      in the pipe, and the multipart boundary. */
  datatype Form = Form(walk: string -> seq<WalkEntry>, encodeName: string -> string, room: Option<nat>, boundary: string)

  /** `requestMultipartFolder`, as a function of the client's settings. */
  function FolderRequestSpec<P, R>(s: Settings, env: Env<P, R>, form: Form, authed: bool, folder: string, url: string, verb: string, body: Option<P>): Reply<R>
    requires url != ""
  {
    var full := PrepareURL(s.domainName, url).value;
    var bod := Marshal(body, env.encode);
    if bod.Fail? then LocalErr(bod.err)
    else if env.newRequest(verb, full).Some? then LocalErr(env.newRequest(verb, full).value)
    else
      var p := FolderSpec(Wire([], form.room, false), form.walk(folder), bod.value, form.encodeName);
      var sent := env.transport(Outgoing(verb, full, UploadHeader(s, authed, form.boundary), FormBody(p.wire)));
      Reconcile(sent, p.latched, env.decoders)
  }

  /** `requestMultipartReaders`, as a function of the client's settings. */
  function ReadersRequestSpec<P, R>(s: Settings, env: Env<P, R>, form: Form, authed: bool, queue: seq<Option<Item>>, url: string, verb: string, body: Option<P>): Reply<R>
    requires url != ""
  {
    var full := PrepareURL(s.domainName, url).value;
    var bod := Marshal(body, env.encode);
    if bod.Fail? then LocalErr(bod.err)
    else if env.newRequest(verb, full).Some? then LocalErr(env.newRequest(verb, full).value)
    else
      var p := QueueSpec(Wire([], form.room, false), queue, bod.value, form.encodeName);
      var sent := env.transport(Outgoing(verb, full, UploadHeader(s, authed, form.boundary), FormBody(p.wire)));
      Reconcile(sent, p.latched, env.decoders)
  }

  /** `requestMultipartFolder`: the producer fills the pipe with one part per
      file of the folder and the `request` field; the transport reads it; the
      result is reconciled from the transport error, the latched write error
      and the status. */
  method RequestMultipartFolder<P, R>(c: ApiClient, env: Env<P, R>, form: Form, authed: bool, folder: string, url: string, verb: string, body: Option<P>)
    returns (r: Reply<R>)
    requires url != ""
    ensures r == FolderRequestSpec(c.Config(), env, form, authed, folder, url, verb, body)
  {
    var full := PrepareURL(c.domainName, url).value;
    var bod := Marshal(body, env.encode);
    if bod.Fail? {
      return LocalErr(bod.err);
    }
    var bad := env.newRequest(verb, full);
    if bad.Some? {
      return LocalErr(bad.value);
    }
    var pipe := new Body(form.room);
    var latch := new Latch();
    var closed := ProduceFolder(pipe, latch, form.walk(folder), bod.value, form.encodeName);
    // The transport has read what the producer wrote, up to its room.
    var req := new HttpRequest(verb, full, FormBody(pipe.State()));
    c.SetupRequest(req, authed);
    req.Set(ContentTypeKey, MultipartType + form.boundary);
    var sent := env.transport(Outgoing(req.verb, req.url, req.header, req.body));
    if sent.Fail? {
      return LocalErr(sent.err);
    }
    if latch.writeErr.Some? {
      return LocalErr(latch.writeErr.value);
    }
    r := Classify(sent.value, env.decoders);
  }

  /** `requestMultipartReaders`. Once the request is under way the F1 loop
      must end: the channel delivers the nil sentinel or an item fails first.
      A channel that does neither blocks the goroutine, and the call never
      returns. */
  method RequestMultipartReaders<P, R>(c: ApiClient, env: Env<P, R>, form: Form, authed: bool, queue: seq<Option<Item>>, url: string, verb: string, body: Option<P>)
    returns (r: Reply<R>)
    requires url != ""
    requires Marshal(body, env.encode).Ok? && env.newRequest(verb, PrepareURL(c.domainName, url).value).None? ==>
      DrainSpec(Wire([], form.room, false), queue, form.encodeName).stopped
    ensures r == ReadersRequestSpec(c.Config(), env, form, authed, queue, url, verb, body)
  {
    var full := PrepareURL(c.domainName, url).value;
    var bod := Marshal(body, env.encode);
    if bod.Fail? {
      return LocalErr(bod.err);
    }
    var bad := env.newRequest(verb, full);
    if bad.Some? {
      return LocalErr(bad.value);
    }
    var pipe := new Body(form.room);
    var latch := new Latch();
    var closed := ProduceQueue(pipe, latch, queue, bod.value, form.encodeName);
    var req := new HttpRequest(verb, full, FormBody(pipe.State()));
    c.SetupRequest(req, authed);
    req.Set(ContentTypeKey, MultipartType + form.boundary);
    var sent := env.transport(Outgoing(req.verb, req.url, req.header, req.body));
    if sent.Fail? {
      return LocalErr(sent.err);
    }
    if latch.writeErr.Some? {
      return LocalErr(latch.writeErr.value);
    }
    r := Classify(sent.value, env.decoders);
  }

  // ----- What the uploads promise end to end -----

  /** The transport's answer to a folder upload, when it gets that far. */
  function FolderSent<P, R>(s: Settings, env: Env<P, R>, form: Form, authed: bool, folder: string, url: string, verb: string, bod: seq<byte>): Result<Response>
    requires url != ""
  {
    var p := FolderSpec(Wire([], form.room, false), form.walk(folder), bod, form.encodeName);
    env.transport(Outgoing(verb, PrepareURL(s.domainName, url).value, UploadHeader(s, authed, form.boundary), FormBody(p.wire)))
  }

  /** A failed walk is what a folder upload reports once the transport
      returned, whatever the status of the response. */
  lemma FolderReportsWalkError<P, R>(s: Settings, env: Env<P, R>, form: Form, authed: bool, folder: string, url: string, verb: string, body: Option<P>)
    requires url != ""
    requires Marshal(body, env.encode).Ok? && env.newRequest(verb, PrepareURL(s.domainName, url).value).None?
    requires FolderSent(s, env, form, authed, folder, url, verb, Marshal(body, env.encode).value).Ok?
    requires WalkSpec(Wire([], form.room, false), form.walk(folder), form.encodeName).err.Some?
    ensures FolderRequestSpec(s, env, form, authed, folder, url, verb, body)
         == LocalErr(WalkSpec(Wire([], form.room, false), form.walk(folder), form.encodeName).err.value)
  {
    FolderLatchesWalkError(Wire([], form.room, false), form.walk(folder), Marshal(body, env.encode).value, form.encodeName);
  }

  /** When every entry is clean and everything fits, the server is sent one
      `file` part per regular file, then the `request` field, and the reply
      is the classified response. */
  lemma FolderUploadDelivers<P, R>(s: Settings, env: Env<P, R>, form: Form, authed: bool, folder: string, url: string, verb: string, body: Option<P>)
    requires url != ""
    requires Marshal(body, env.encode).Ok? && env.newRequest(verb, PrepareURL(s.domainName, url).value).None?
    requires var entries := form.walk(folder);
      AllClean(entries) && Fits(form.room, WalkCost(entries) + RequestCost(Marshal(body, env.encode).value) + 1)
    ensures var bod := Marshal(body, env.encode).value;
      var entries := form.walk(folder);
      var sent := FolderSent(s, env, form, authed, folder, url, verb, bod);
      && FolderSpec(Wire([], form.room, false), entries, bod, form.encodeName).wire.parts
           == WalkParts(entries, form.encodeName) + RequestParts(bod)
      && FolderRequestSpec(s, env, form, authed, folder, url, verb, body)
           == if sent.Fail? then LocalErr(sent.err) else Classify(sent.value, env.decoders)
  {
    var bod := Marshal(body, env.encode).value;
    FolderUploadsAll(Wire([], form.room, false), form.walk(folder), bod, form.encodeName);
    assert [] + WalkParts(form.walk(folder), form.encodeName) == WalkParts(form.walk(folder), form.encodeName);
  }

  /** A failed part creation or copy of a queued reader is what a reader
      upload reports once the transport returned. */
  lemma ReadersReportFailure<P, R>(s: Settings, env: Env<P, R>, form: Form, authed: bool, queue: seq<Option<Item>>, url: string, verb: string, body: Option<P>)
    requires url != ""
    requires Marshal(body, env.encode).Ok? && env.newRequest(verb, PrepareURL(s.domainName, url).value).None?
    requires Failed(DrainSpec(Wire([], form.room, false), queue, form.encodeName).err)
    requires var p := QueueSpec(Wire([], form.room, false), queue, Marshal(body, env.encode).value, form.encodeName);
      env.transport(Outgoing(verb, PrepareURL(s.domainName, url).value, UploadHeader(s, authed, form.boundary), FormBody(p.wire))).Ok?
    ensures ReadersRequestSpec(s, env, form, authed, queue, url, verb, body)
         == LocalErr(DrainSpec(Wire([], form.room, false), queue, form.encodeName).err.value)
  {
    QueueLatchesFailure(Wire([], form.room, false), queue, Marshal(body, env.encode).value, form.encodeName);
  }
}
