/** The Toaster operations of toastcloud/toaster.go. Each one checks its
    input, makes one call through the API client and runs the checks of the
    Responses module on the reply. `send` stands for the client call: it maps
    the call made (method, URL, body, upload) to the reply the client
    returns. */
module Toaster {
  import opened Base
  import opened Models
  import opened Producers
  import opened Requests
  import opened Methods
  import opened Responses

  const NoId: string := "you did not provide the ID of the Toaster"
  const NoIdToGet: string := "you did not provide the ID of the Toaster to get"
  const NoIdToUpdate: string := "you did not provide the ID of the Toaster to update"
  const NoPath: string := "you did not provide the Path of the file to retrieve"

  /** A GET call with no body, as every read operation makes. */
  function Fetch(url: string): (c: Call<()>)
    ensures c.target == Plain && c.authed && c.verb == "GET" && c.url == url
    ensures c.body.None? && c.upload.NoUpload?
  {
    Invoke(AuthedGet, url, None, NoUpload)
  }

  // ---------------------------------------------------------------------
  // ToasterCount, ToasterStats, GetToaster

  datatype ToasterCountInput = ToasterCountInput(id: string)
  datatype ToasterCountOutput = ToasterCountOutput(running: int)

  function ToasterCount(input: ToasterCountInput, send: Call<()> -> Reply<Envelope<int>>): (r: Result<ToasterCountOutput>)
    ensures input.id == "" ==> r == Fail(Failure(NoId))
    ensures input.id != "" ==>
      Relays(r, Check(send(Fetch("/toaster/count/" + input.id))), (n: int) => ToasterCountOutput(n))
  {
    if input.id == "" then Fail(Failure(NoId))
    else Output(Check(send(Fetch("/toaster/count/" + input.id))), (n: int) => ToasterCountOutput(n))
  }

  datatype ToasterStatsInput = ToasterStatsInput(id: string)
  datatype ToasterStatsOutput = ToasterStatsOutput(stats: Option<ToasterStats>)

  function ToasterStatsOf(input: ToasterStatsInput, send: Call<()> -> Reply<Envelope<Option<ToasterStats>>>): (r: Result<ToasterStatsOutput>)
    ensures input.id == "" ==> r == Fail(Failure(NoId))
    ensures input.id != "" ==>
      Relays(r, Require(Check(send(Fetch("/toaster/stats/" + input.id))), (s: Option<ToasterStats>) => s.Some?, EmptyBody),
             (s: Option<ToasterStats>) => ToasterStatsOutput(s))
    ensures r.Ok? ==> r.value.stats.Some?
  {
    if input.id == "" then Fail(Failure(NoId))
    else
      var res := Require(Check(send(Fetch("/toaster/stats/" + input.id))), (s: Option<ToasterStats>) => s.Some?, EmptyBody);
      Output(res, (s: Option<ToasterStats>) => ToasterStatsOutput(s))
  }

  datatype GetToasterInput = GetToasterInput(id: string)
  datatype GetToasterOutput = GetToasterOutput(toaster: Option<Toaster>)

  function GetToaster(input: GetToasterInput, send: Call<()> -> Reply<Envelope<Option<Toaster>>>): (r: Result<GetToasterOutput>)
    ensures input.id == "" ==> r == Fail(Failure(NoIdToGet))
    ensures input.id != "" ==>
      Relays(r, Require(Check(send(Fetch("/toaster/" + input.id))), (t: Option<Toaster>) => t.Some?, EmptyBody),
             (t: Option<Toaster>) => GetToasterOutput(t))
    ensures r.Ok? ==> r.value.toaster.Some?
  {
    if input.id == "" then Fail(Failure(NoIdToGet))
    else
      var res := Require(Check(send(Fetch("/toaster/" + input.id))), (t: Option<Toaster>) => t.Some?, EmptyBody);
      Output(res, (t: Option<Toaster>) => GetToasterOutput(t))
  }

  // ---------------------------------------------------------------------
  // GetToasterFile: the only operation that writes to its input.

  /** `*GetToasterFileInput`: GetToasterFile may rewrite `path`. */
  class GetToasterFileInput {
    var id: string
    var path: string

    constructor(id: string, path: string)
      ensures this.id == id && this.path == path
    {
      this.id := id;
      this.path := path;
    }
  }

  /** The file, as the bytes its stream delivers. */
  datatype GetToasterFileOutput = GetToasterFileOutput(file: seq<byte>)

  /** One leading '/' removed, as GetToasterFile does to a path. */
  function StripSlash(path: string): (p: string)
    ensures |path| > 0 && path[0] == '/' ==> "/" + p == path
    ensures !(|path| > 0 && path[0] == '/') ==> p == path
  {
    if |path| > 0 && path[0] == '/' then path[1..] else path
  }

  /** The streamed GET that fetches a file. */
  function FileCall(id: string, path: string): (c: Call<()>)
    ensures c.target == Streamed && c.authed && c.verb == "GET" && c.body.None? && c.upload.NoUpload?
    ensures c.url == "/toaster/file/" + id + "/" + path
  {
    Invoke(AuthedStreamedGet, "/toaster/file/" + id + "/" + path, None, NoUpload)
  }

  /** What GetToasterFile returns for the ID and the path the input held. */
  function GetToasterFileResult(id: string, path: string, send: Call<()> -> Reply<seq<byte>>): Result<GetToasterFileOutput> {
    if id == "" then Fail(Failure(NoId))
    else if path == "" || StripSlash(path) == "" then Fail(Failure(NoPath))
    else Output(Relayed(send(FileCall(id, StripSlash(path)))), (b: seq<byte>) => GetToasterFileOutput(b))
  }

  /** GetToasterFile. After the ID and emptiness checks it drops one leading
      '/' from the input's path, writing the shorter path back. */
  method GetToasterFile(input: GetToasterFileInput, send: Call<()> -> Reply<seq<byte>>) returns (r: Result<GetToasterFileOutput>)
    modifies input
    ensures input.id == old(input.id)
    ensures input.path == if old(input.id) != "" && old(input.path) != "" then StripSlash(old(input.path)) else old(input.path)
    ensures r == GetToasterFileResult(old(input.id), old(input.path), send)
  {
    if input.id == "" {
      return Fail(Failure(NoId));
    }
    if |input.path| == 0 {
      return Fail(Failure(NoPath));
    }
    if input.path[0] == '/' {
      if |input.path| == 1 {
        input.path := "";
      } else {
        input.path := input.path[1..];
      }
    }
    if |input.path| == 0 {
      return Fail(Failure(NoPath));
    }
    var reply := send(FileCall(input.id, input.path));
    r := Output(Relayed(reply), (b: seq<byte>) => GetToasterFileOutput(b));
  }

  /** The outcomes of GetToasterFile: the ID is checked first; the path is
      missing when it is empty or only "/"; otherwise the one streamed call
      asks for the path below the Toaster, with exactly one '/' put before a
      path that had none and a leading '/' kept as the separator. The reply
      is not checked for `success`: the raw stream is the output. */
  lemma GetToasterFileOutcomes(id: string, path: string, send: Call<()> -> Reply<seq<byte>>)
    ensures var r := GetToasterFileResult(id, path, send);
      && (id == "" ==> r == Fail(Failure(NoId)))
      && (id != "" && (path == "" || path == "/") ==> r == Fail(Failure(NoPath)))
      && (id != "" && path != "" && path != "/" ==>
            var c := FileCall(id, StripSlash(path));
            && c.url == "/toaster/file/" + id + (if path[0] == '/' then path else "/" + path)
            && (r.Ok? <==> send(c).Decoded?)
            && (r.Ok? ==> r.value.file == send(c).value))
  {
  }

  /** Calling GetToasterFile again with the same input object asks for the
      same file only when the first call left the path as it was or the
      path had a single leading '/': the second call removes a second one. */
  lemma {:induction false} GetToasterFileTwice(id: string, path: string)
    requires id != "" && |path| >= 2
    ensures var once := StripSlash(path);
      FileCall(id, StripSlash(once)) == FileCall(id, once) <==> !HasPrefix(path, "//")
  {
    var once := StripSlash(path);
    if HasPrefix(path, "//") {
      assert path[..2] == "//";
      assert once[0] == '/';
      assert |StripSlash(once)| < |once|;
      var u1 := "/toaster/file/" + id + "/" + StripSlash(once);
      var u2 := "/toaster/file/" + id + "/" + once;
      assert |u1| != |u2|;
    } else if path[0] == '/' {
      assert once[0] != '/' by {
        assert path[..2] == [path[0], path[1]];
      }
    }
  }

  // ---------------------------------------------------------------------
  // ListToasterFiles, GetToasterLogs, ListToasters, DeleteToaster

  datatype ListToasterFilesInput = ListToasterFilesInput(id: string)
  datatype ListToasterFilesOutput = ListToasterFilesOutput(files: seq<string>)

  function ListToasterFiles(input: ListToasterFilesInput, send: Call<()> -> Reply<Envelope<seq<string>>>): (r: Result<ListToasterFilesOutput>)
    ensures input.id == "" ==> r == Fail(Failure(NoIdToGet))
    ensures input.id != "" ==>
      Relays(r, Check(send(Fetch("/toaster/listfiles/" + input.id))), (f: seq<string>) => ListToasterFilesOutput(f))
  {
    if input.id == "" then Fail(Failure(NoIdToGet))
    else Output(Check(send(Fetch("/toaster/listfiles/" + input.id))), (f: seq<string>) => ListToasterFilesOutput(f))
  }

  datatype GetToasterLogsInput = GetToasterLogsInput(id: string, exeId: string)
  datatype GetToasterLogsOutput = GetToasterLogsOutput(logs: seq<byte>)

  function GetToasterLogs(input: GetToasterLogsInput, send: Call<()> -> Reply<Envelope<seq<byte>>>): (r: Result<GetToasterLogsOutput>)
    ensures input.id == "" ==> r == Fail(Failure(NoIdToGet))
    ensures input.id != "" ==>
      Relays(r, Check(send(Fetch("/toaster/logs/" + input.id + "/" + input.exeId))), (l: seq<byte>) => GetToasterLogsOutput(l))
  {
    if input.id == "" then Fail(Failure(NoIdToGet))
    else Output(Check(send(Fetch("/toaster/logs/" + input.id + "/" + input.exeId))), (l: seq<byte>) => GetToasterLogsOutput(l))
  }

  datatype ListToastersOutput = ListToastersOutput(toasters: seq<Toaster>)

  /** ListToasters takes an empty input struct; it has nothing to check. */
  function ListToasters(send: Call<()> -> Reply<Envelope<seq<Toaster>>>): (r: Result<ListToastersOutput>)
    ensures Relays(r, Check(send(Fetch("/toaster/list"))), (t: seq<Toaster>) => ListToastersOutput(t))
  {
    Output(Check(send(Fetch("/toaster/list"))), (t: seq<Toaster>) => ListToastersOutput(t))
  }

  datatype DeleteToasterInput = DeleteToasterInput(ids: seq<string>)
  datatype DeleteToasterOutput = DeleteToasterOutput

  /** DeleteToaster sends its input as the body of an authenticated DELETE;
      the IDs are not checked. */
  function DeleteToaster(input: DeleteToasterInput, send: Call<DeleteToasterInput> -> Reply<Envelope<()>>): (r: Result<DeleteToasterOutput>)
    ensures Relays(r, Check(send(Invoke(AuthedDelete, "/toaster", Some(input), NoUpload))), (u: ()) => DeleteToasterOutput)
  {
    Output(Check(send(Invoke(AuthedDelete, "/toaster", Some(input), NoUpload))), (u: ()) => DeleteToasterOutput)
  }

  /** The read operations differ in the payload check: a successful reply
      without a Toaster or without stats fails with the empty-body error,
      while any file list, logs or Toaster list a successful reply holds, an
      empty one included, is returned as it is. */
  lemma EmptyPayloads(id: string, exeId: string,
                      getToaster: Call<()> -> Reply<Envelope<Option<Toaster>>>,
                      getStats: Call<()> -> Reply<Envelope<Option<ToasterStats>>>,
                      listFiles: Call<()> -> Reply<Envelope<seq<string>>>,
                      getLogs: Call<()> -> Reply<Envelope<seq<byte>>>,
                      listToasters: Call<()> -> Reply<Envelope<seq<Toaster>>>)
    requires id != ""
    ensures getToaster(Fetch("/toaster/" + id)) == Decoded(Envelope(true, None)) ==>
      GetToaster(GetToasterInput(id), getToaster) == Fail(Failure(EmptyBody))
    ensures getStats(Fetch("/toaster/stats/" + id)) == Decoded(Envelope(true, None)) ==>
      ToasterStatsOf(ToasterStatsInput(id), getStats) == Fail(Failure(EmptyBody))
    ensures var reply := listFiles(Fetch("/toaster/listfiles/" + id));
      reply.Decoded? && reply.value.success ==>
      ListToasterFiles(ListToasterFilesInput(id), listFiles) == Ok(ListToasterFilesOutput(reply.value.payload))
    ensures var reply := getLogs(Fetch("/toaster/logs/" + id + "/" + exeId));
      reply.Decoded? && reply.value.success ==>
      GetToasterLogs(GetToasterLogsInput(id, exeId), getLogs) == Ok(GetToasterLogsOutput(reply.value.payload))
    ensures var reply := listToasters(Fetch("/toaster/list"));
      reply.Decoded? && reply.value.success ==>
      ListToasters(listToasters) == Ok(ListToastersOutput(reply.value.payload))
  {
  }

  // ---------------------------------------------------------------------
  // CreateToaster and UpdateToaster

  /** The code fields CreateToasterInput and UpdateToasterInput share: at most
      one of the alternatives is used. `codeStream` is the channel, None when
      nil, as the items it will deliver. */
  datatype CodeFields = CodeFields(
    codes: seq<seq<byte>>,
    codePaths: seq<string>,
    codeFolder: string,
    codeStream: Option<seq<Option<Item>>>,
    gitURL: string,
    gitUsername: string,
    gitAccessToken: string,
    gitPassword: string,
    gitBranch: string)

  /** Where the code of a Toaster comes from. */
  datatype CodeSource = Inline | Git | LocalFolder | Stream | NoCode

  /** The switch of CreateToaster and UpdateToaster: the first alternative
      given wins, in this order. */
  function SourceOf(c: CodeFields): (s: CodeSource)
    ensures s == Inline <==> |c.codePaths| > 0
    ensures s == Git <==> |c.codePaths| == 0 && c.gitURL != ""
    ensures s == LocalFolder <==> |c.codePaths| == 0 && c.gitURL == "" && c.codeFolder != ""
    ensures s == Stream <==> |c.codePaths| == 0 && c.gitURL == "" && c.codeFolder == "" && c.codeStream.Some?
    ensures s == NoCode <==> |c.codePaths| == 0 && c.gitURL == "" && c.codeFolder == "" && c.codeStream.None?
  {
    if |c.codePaths| > 0 then Inline
    else if c.gitURL != "" then Git
    else if c.codeFolder != "" then LocalFolder
    else if c.codeStream.Some? then Stream
    else NoCode
  }

  /** The method a create or an update goes through, by code source: the
      JSON method, or the multipart one that uploads the folder or stream. */
  function CodeCall<P>(c: CodeFields, json: Wrapper, folder: Wrapper, readers: Wrapper, url: string, body: P): (call: Call<P>)
    requires RouteOf(json).target == Plain && RouteOf(json).takesBody
    requires RouteOf(folder).target == Folder && RouteOf(readers).target == Readers
  {
    match SourceOf(c)
    case LocalFolder => Invoke(folder, url, Some(body), FolderUpload(c.codeFolder))
    case Stream => Invoke(readers, url, Some(body), QueueUpload(c.codeStream.value))
    case _ => Invoke(json, url, Some(body), NoUpload)
  }

  datatype CreateToasterInput = CreateToasterInput(
    cryptoSecure: bool,
    code: CodeFields,
    buildCmd: seq<string>,
    exeCmd: seq<string>,
    env: seq<string>,
    joinableForSec: int,
    maxConcurrentJoiners: int,
    timeoutSec: int,
    name: string,
    readme: string,
    keywords: seq<string>)

  /** createToasterRequest */
  datatype CreateToasterRequest = CreateToasterRequest(
    cryptoSecure: bool,
    codes: seq<seq<byte>>,
    codePaths: seq<string>,
    gitURL: string,
    gitUsername: string,
    gitAccessToken: string,
    gitPassword: string,
    gitBranch: string,
    buildCmd: seq<string>,
    exeCmd: seq<string>,
    env: seq<string>,
    joinableForSec: int,
    maxConcurrentJoiners: int,
    timeoutSec: int,
    name: string,
    readme: string,
    keywords: seq<string>)

  /** The fields createToasterRequest takes from the input whatever the
      source, and the two sources it can carry. */
  predicate CreateRequestFor(input: CreateToasterInput, req: CreateToasterRequest) {
    var c := input.code;
    && req.cryptoSecure == input.cryptoSecure
    && req.buildCmd == input.buildCmd && req.exeCmd == input.exeCmd && req.env == input.env
    && req.joinableForSec == input.joinableForSec
    && req.maxConcurrentJoiners == input.maxConcurrentJoiners
    && req.timeoutSec == input.timeoutSec
    && req.name == input.name && req.readme == input.readme && req.keywords == input.keywords
    && (if SourceOf(c) == Inline then req.codes == c.codes && req.codePaths == c.codePaths
        else req.codes == [] && req.codePaths == [])
    && (if SourceOf(c) == Git
        then req.gitURL == c.gitURL && req.gitUsername == c.gitUsername && req.gitAccessToken == c.gitAccessToken
             && req.gitPassword == c.gitPassword && req.gitBranch == c.gitBranch
        else req.gitURL == "" && req.gitUsername == "" && req.gitAccessToken == ""
             && req.gitPassword == "" && req.gitBranch == "")
  }

  /** Builds the request as CreateToaster does: the common fields first,
      then the fields of the chosen source. */
  method BuildCreateRequest(input: CreateToasterInput) returns (req: CreateToasterRequest)
    ensures CreateRequestFor(input, req)
  {
    req := CreateToasterRequest(input.cryptoSecure, [], [], "", "", "", "", "",
      input.buildCmd, input.exeCmd, input.env, input.joinableForSec, input.maxConcurrentJoiners,
      input.timeoutSec, input.name, input.readme, input.keywords);
    var c := input.code;
    if |c.codePaths| > 0 {
      req := req.(codes := c.codes);
      req := req.(codePaths := c.codePaths);
    } else if c.gitURL != "" {
      req := req.(gitURL := c.gitURL);
      req := req.(gitUsername := c.gitUsername);
      req := req.(gitAccessToken := c.gitAccessToken);
      req := req.(gitPassword := c.gitPassword);
      req := req.(gitBranch := c.gitBranch);
    }
  }

  /** The request a create input determines. */
  lemma CreateRequestUnique(input: CreateToasterInput, a: CreateToasterRequest, b: CreateToasterRequest)
    requires CreateRequestFor(input, a) && CreateRequestFor(input, b)
    ensures a == b
  {
  }

  /** The request never carries two sources: inline code and Git fields are
      exclusive, and a folder or stream upload carries neither. */
  lemma CreateRequestOneSource(input: CreateToasterInput, req: CreateToasterRequest)
    requires CreateRequestFor(input, req)
    ensures req.codePaths != [] ==> req.gitURL == ""
    ensures req.gitURL != "" ==> req.codes == [] && req.codePaths == []
    ensures SourceOf(input.code) in {LocalFolder, Stream, NoCode} ==>
      req.codes == [] && req.codePaths == [] && req.gitURL == "" && req.gitPassword == "" && req.gitAccessToken == ""
  {
  }

  /** The call CreateToaster makes with request `req`. */
  function CreateCall(input: CreateToasterInput, req: CreateToasterRequest): Call<CreateToasterRequest> {
    CodeCall(input.code, AuthedPost, AuthedMultipartFolderPost, AuthedMultipartReadersPost, "/toaster", req)
  }

  /** The fields of createToasterResponse besides `success`. */
  datatype ToasterPayload = ToasterPayload(toaster: Option<Toaster>, domain: string, buildLogs: seq<byte>)

  datatype CreateToasterOutput = CreateToasterOutput(toaster: Option<Toaster>, domain: string, buildLogs: seq<byte>)

  function HasToaster(p: ToasterPayload): bool {
    p.toaster.Some?
  }

  /** The checks CreateToaster and UpdateToaster run on their reply. */
  function ToasterReply(reply: Reply<Envelope<ToasterPayload>>): (res: Result<ToasterPayload>)
    ensures res.Ok? <==> reply.Decoded? && reply.value.success && reply.value.payload.toaster.Some?
    ensures res.Ok? ==> res.value == reply.value.payload
    ensures res.Fail? && reply.Decoded? && reply.value.success ==> res.err == Failure(EmptyBody)
    ensures res.Fail? && !reply.Decoded? ==> res.err == Relayed(reply).err
  {
    Require(Check(reply), HasToaster, EmptyBody)
  }

  /** CreateToaster: builds the request, picks the method by code source and
      checks that the reply holds a Toaster. */
  method CreateToaster(input: CreateToasterInput, send: Call<CreateToasterRequest> -> Reply<Envelope<ToasterPayload>>)
    returns (r: Result<CreateToasterOutput>)
    ensures exists req :: (CreateRequestFor(input, req) &&
      Relays(r, ToasterReply(send(CreateCall(input, req))),
             (p: ToasterPayload) => CreateToasterOutput(p.toaster, p.domain, p.buildLogs)))
    ensures r.Ok? ==> r.value.toaster.Some?
  {
    var req := BuildCreateRequest(input);
    var call: Call<CreateToasterRequest>;
    var c := input.code;
    if |c.codePaths| > 0 {
      call := Invoke(AuthedPost, "/toaster", Some(req), NoUpload);
    } else if c.gitURL != "" {
      call := Invoke(AuthedPost, "/toaster", Some(req), NoUpload);
    } else if c.codeFolder != "" {
      call := Invoke(AuthedMultipartFolderPost, "/toaster", Some(req), FolderUpload(c.codeFolder));
    } else if c.codeStream.Some? {
      call := Invoke(AuthedMultipartReadersPost, "/toaster", Some(req), QueueUpload(c.codeStream.value));
    } else {
      call := Invoke(AuthedPost, "/toaster", Some(req), NoUpload);
    }
    assert call == CreateCall(input, req);
    r := Output(ToasterReply(send(call)), (p: ToasterPayload) => CreateToasterOutput(p.toaster, p.domain, p.buildLogs));
  }

  datatype UpdateToasterInput = UpdateToasterInput(
    id: string,
    code: CodeFields,
    gitRefresh: bool,
    buildCmd: seq<string>,
    exeCmd: seq<string>,
    env: seq<string>,
    joinableForSec: Option<int>,
    maxConcurrentJoiners: Option<int>,
    timeoutSec: Option<int>,
    name: Option<string>,
    readme: Option<string>,
    keywords: seq<string>)

  /** updateToasterRequest: the Git fields are pointers, nil unless set. */
  datatype UpdateToasterRequest = UpdateToasterRequest(
    buildCmd: seq<string>,
    exeCmd: seq<string>,
    env: seq<string>,
    joinableForSec: Option<int>,
    maxConcurrentJoiners: Option<int>,
    timeoutSec: Option<int>,
    name: Option<string>,
    readme: Option<string>,
    keywords: seq<string>,
    codes: seq<seq<byte>>,
    codePaths: seq<string>,
    gitURL: Option<string>,
    gitUsername: Option<string>,
    gitAccessToken: Option<string>,
    gitPassword: Option<string>,
    gitBranch: Option<string>,
    gitRefresh: bool)

  /** The fields updateToasterRequest takes from the input. On the Git path
      every Git pointer is set, to the input's string even when it is empty;
      on the other paths every Git pointer stays nil. */
  predicate UpdateRequestFor(input: UpdateToasterInput, req: UpdateToasterRequest) {
    var c := input.code;
    && req.buildCmd == input.buildCmd && req.exeCmd == input.exeCmd && req.env == input.env
    && req.joinableForSec == input.joinableForSec
    && req.maxConcurrentJoiners == input.maxConcurrentJoiners
    && req.timeoutSec == input.timeoutSec
    && req.name == input.name && req.readme == input.readme && req.keywords == input.keywords
    && req.gitRefresh == input.gitRefresh
    && (if SourceOf(c) == Inline then req.codes == c.codes && req.codePaths == c.codePaths
        else req.codes == [] && req.codePaths == [])
    && (if SourceOf(c) == Git
        then req.gitURL == Some(c.gitURL) && req.gitUsername == Some(c.gitUsername)
             && req.gitAccessToken == Some(c.gitAccessToken)
             && req.gitPassword == Some(c.gitPassword) && req.gitBranch == Some(c.gitBranch)
        else req.gitURL.None? && req.gitUsername.None? && req.gitAccessToken.None?
             && req.gitPassword.None? && req.gitBranch.None?)
  }

  /** Builds the request as UpdateToaster does. */
  method BuildUpdateRequest(input: UpdateToasterInput) returns (req: UpdateToasterRequest)
    ensures UpdateRequestFor(input, req)
  {
    req := UpdateToasterRequest(input.buildCmd, input.exeCmd, input.env, input.joinableForSec,
      input.maxConcurrentJoiners, input.timeoutSec, input.name, input.readme, input.keywords,
      [], [], None, None, None, None, None, input.gitRefresh);
    var c := input.code;
    if |c.codePaths| > 0 {
      req := req.(codes := c.codes);
      req := req.(codePaths := c.codePaths);
    } else if c.gitURL != "" {
      req := req.(gitURL := Some(c.gitURL));
      req := req.(gitUsername := Some(c.gitUsername));
      req := req.(gitAccessToken := Some(c.gitAccessToken));
      req := req.(gitPassword := Some(c.gitPassword));
      req := req.(gitBranch := Some(c.gitBranch));
    }
  }

  /** The call UpdateToaster makes with request `req`. */
  function UpdateCall(input: UpdateToasterInput, req: UpdateToasterRequest): Call<UpdateToasterRequest> {
    CodeCall(input.code, AuthedPut, AuthedMultipartFolderPut, AuthedMultipartReadersPut, "/toaster/" + input.id, req)
  }

  datatype UpdateToasterOutput = UpdateToasterOutput(toaster: Option<Toaster>, domain: string, buildLogs: seq<byte>)

  /** UpdateToaster: checks the ID, then proceeds as CreateToaster with PUT
      on the Toaster's own URL. */
  method UpdateToaster(input: UpdateToasterInput, send: Call<UpdateToasterRequest> -> Reply<Envelope<ToasterPayload>>)
    returns (r: Result<UpdateToasterOutput>)
    ensures input.id == "" ==> r == Fail(Failure(NoIdToUpdate))
    ensures input.id != "" ==> exists req :: (UpdateRequestFor(input, req) &&
      Relays(r, ToasterReply(send(UpdateCall(input, req))),
             (p: ToasterPayload) => UpdateToasterOutput(p.toaster, p.domain, p.buildLogs)))
    ensures r.Ok? ==> r.value.toaster.Some?
  {
    if input.id == "" {
      return Fail(Failure(NoIdToUpdate));
    }
    var req := BuildUpdateRequest(input);
    var call: Call<UpdateToasterRequest>;
    var c := input.code;
    var url := "/toaster/" + input.id;
    if |c.codePaths| > 0 {
      call := Invoke(AuthedPut, url, Some(req), NoUpload);
    } else if c.gitURL != "" {
      call := Invoke(AuthedPut, url, Some(req), NoUpload);
    } else if c.codeFolder != "" {
      call := Invoke(AuthedMultipartFolderPut, url, Some(req), FolderUpload(c.codeFolder));
    } else if c.codeStream.Some? {
      call := Invoke(AuthedMultipartReadersPut, url, Some(req), QueueUpload(c.codeStream.value));
    } else {
      call := Invoke(AuthedPut, url, Some(req), NoUpload);
    }
    assert call == UpdateCall(input, req);
    r := Output(ToasterReply(send(call)), (p: ToasterPayload) => UpdateToasterOutput(p.toaster, p.domain, p.buildLogs));
  }

  /** For the same code fields, a create and an update upload the same way:
      same request function, same upload, both authenticated; they differ
      only in the verb and the URL. A folder or stream goes through a
      multipart method, everything else through JSON. */
  lemma CreateAndUpdateUploadAlike(ci: CreateToasterInput, creq: CreateToasterRequest, ui: UpdateToasterInput, ureq: UpdateToasterRequest)
    requires ci.code == ui.code
    ensures var cc, uc := CreateCall(ci, creq), UpdateCall(ui, ureq);
      && cc.target == uc.target && cc.upload == uc.upload && cc.authed && uc.authed
      && cc.verb == "POST" && uc.verb == "PUT"
      && cc.url == "/toaster" && uc.url == "/toaster/" + ui.id
      && (cc.target == Folder <==> SourceOf(ci.code) == LocalFolder)
      && (cc.target == Readers <==> SourceOf(ci.code) == Stream)
      && (cc.target == Folder ==> cc.upload == FolderUpload(ci.code.codeFolder))
      && (cc.target == Readers ==> cc.upload == QueueUpload(ci.code.codeStream.value))
  {
  }
}
