/** The public request methods of internal/apiclient/methods.go. Each one
    forwards to one of the four request functions with a fixed `authed`
    flag and HTTP verb; the table below is that forwarding. */
module Methods {
  import opened Base
  import opened Producers
  import opened Client
  import opened Requests

  /** The public methods of `*apiclient.Client`. */
  datatype Wrapper =
    | AuthedGet | AuthedStreamedGet | Get
    | AuthedPost | Post | AuthedDelete | Delete | AuthedPut | Put
    | AuthedMultipartFolderPost | MultipartFolderPost
    | AuthedMultipartReadersPost | MultipartReadersPost
    | AuthedMultipartFolderPut | MultipartFolderPut
    | AuthedMultipartReadersPut | MultipartReadersPut

  /** The request function a method forwards to. */
  datatype Target = Plain | Streamed | Folder | Readers

  /** The constant arguments a method forwards, and whether its signature
      takes a request body. */
  datatype Route = Route(target: Target, authed: bool, verb: string, takesBody: bool)

  function RouteOf(w: Wrapper): Route {
    match w
    case AuthedGet => Route(Plain, true, "GET", false)
    case AuthedStreamedGet => Route(Streamed, true, "GET", false)
    case Get => Route(Plain, false, "GET", false)
    case AuthedPost => Route(Plain, true, "POST", true)
    case Post => Route(Plain, false, "POST", true)
    case AuthedDelete => Route(Plain, true, "DELETE", true)
    case Delete => Route(Plain, false, "DELETE", true)
    case AuthedPut => Route(Plain, true, "PUT", true)
    case Put => Route(Plain, false, "PUT", true)
    case AuthedMultipartFolderPost => Route(Folder, true, "POST", true)
    case MultipartFolderPost => Route(Folder, false, "POST", true)
    case AuthedMultipartReadersPost => Route(Readers, true, "POST", true)
    case MultipartReadersPost => Route(Readers, false, "POST", true)
    case AuthedMultipartFolderPut => Route(Folder, true, "PUT", true)
    case MultipartFolderPut => Route(Folder, false, "PUT", true)
    case AuthedMultipartReadersPut => Route(Readers, true, "PUT", true)
    case MultipartReadersPut => Route(Readers, false, "PUT", true)
  }

  /** The unauthenticated method with the same name minus "Authed", if any. */
  function Twin(w: Wrapper): Option<Wrapper> {
    match w
    case AuthedGet => Some(Get)
    case AuthedPost => Some(Post)
    case AuthedDelete => Some(Delete)
    case AuthedPut => Some(Put)
    case AuthedMultipartFolderPost => Some(MultipartFolderPost)
    case AuthedMultipartReadersPost => Some(MultipartReadersPost)
    case AuthedMultipartFolderPut => Some(MultipartFolderPut)
    case AuthedMultipartReadersPut => Some(MultipartReadersPut)
    case _ => None
  }

  /** Every method with a twin is authenticated, and its twin forwards the
      same arguments with `authed` false; every unauthenticated method is
      the twin of an authenticated one. AuthedStreamedGet has no twin. */
  lemma TwinsDifferOnlyInAuth(w: Wrapper)
    ensures Twin(w).Some? ==> RouteOf(w).authed && RouteOf(Twin(w).value) == RouteOf(w).(authed := false)
    ensures !RouteOf(w).authed ==> exists a :: Twin(a) == Some(w)
    ensures RouteOf(w).authed && Twin(w).None? <==> w == AuthedStreamedGet
  {
    match w
    case Get => assert Twin(AuthedGet) == Some(Get);
    case Post => assert Twin(AuthedPost) == Some(Post);
    case Delete => assert Twin(AuthedDelete) == Some(Delete);
    case Put => assert Twin(AuthedPut) == Some(Put);
    case MultipartFolderPost => assert Twin(AuthedMultipartFolderPost) == Some(MultipartFolderPost);
    case MultipartReadersPost => assert Twin(AuthedMultipartReadersPost) == Some(MultipartReadersPost);
    case MultipartFolderPut => assert Twin(AuthedMultipartFolderPut) == Some(MultipartFolderPut);
    case MultipartReadersPut => assert Twin(AuthedMultipartReadersPut) == Some(MultipartReadersPut);
    case _ =>
  }

  /** What a call carries besides its route: nothing, a folder to walk, or a
      channel of readers (the values it will deliver, in order). */
  datatype Upload = NoUpload | FolderUpload(folder: string) | QueueUpload(queue: seq<Option<Item>>)

  /** One forwarded call: the request function, `authed`, the verb, the URL,
      the body (nil when the method takes none) and the upload. */
  datatype Call<P> = Call(target: Target, authed: bool, verb: string, url: string, body: Option<P>, upload: Upload)

  /** The upload argument a method's signature takes. */
  predicate Matches(w: Wrapper, upload: Upload) {
    match RouteOf(w).target
    case Folder => upload.FolderUpload?
    case Readers => upload.QueueUpload?
    case _ => upload.NoUpload?
  }

  /** Calling method `w` with the arguments its signature takes. */
  function Invoke<P>(w: Wrapper, url: string, body: Option<P>, upload: Upload): (c: Call<P>)
    requires RouteOf(w).takesBody || body.None?
    requires Matches(w, upload)
    ensures c.url == url && c.body == body && c.upload == upload
    ensures c.target == RouteOf(w).target && c.authed == RouteOf(w).authed && c.verb == RouteOf(w).verb
  {
    var r := RouteOf(w);
    Call(r.target, r.authed, r.verb, url, body, upload)
  }

  /** The verbs: GET methods take no body and go to `request` or
      `requestStreamRawResponse`; uploads use POST or PUT; the JSON methods
      use the verb in their name. */
  lemma Verbs(w: Wrapper)
    ensures RouteOf(w).verb in {"GET", "POST", "PUT", "DELETE"}
    ensures RouteOf(w).verb == "GET" <==> !RouteOf(w).takesBody
    ensures RouteOf(w).verb == "GET" ==> RouteOf(w).target in {Plain, Streamed}
    ensures RouteOf(w).target in {Folder, Readers} ==> RouteOf(w).verb in {"POST", "PUT"}
    ensures RouteOf(w).target == Streamed <==> w == AuthedStreamedGet
  {
  }

  /** What the API client answers to a call: the JSON methods a reply of the
      caller's response type, AuthedStreamedGet the raw body. */
  datatype Answer<R> = Json(reply: Reply<R>) | Raw(stream: Reply<seq<byte>>)

  /** The client running a call: the request function its target names, with
      the call's `authed` flag, verb, URL, body and upload. */
  function Dispatch<P, R>(s: Settings, env: Env<P, R>, form: Form, c: Call<P>): (a: Answer<R>)
    requires c.url != ""
    requires c.target == Folder ==> c.upload.FolderUpload?
    requires c.target == Readers ==> c.upload.QueueUpload?
    ensures a.Raw? <==> c.target == Streamed
  {
    match c.target
    case Plain => Json(RequestSpec(s, env, c.authed, c.url, c.verb, c.body))
    case Streamed => Raw(StreamSpec(s, env, c.authed, c.url, c.verb, c.body))
    case Folder => Json(FolderRequestSpec(s, env, form, c.authed, c.upload.folder, c.url, c.verb, c.body))
    case Readers => Json(ReadersRequestSpec(s, env, form, c.authed, c.upload.queue, c.url, c.verb, c.body))
  }

  /** Every public method forwards to the request function of its kind: only
      AuthedStreamedGet answers with the raw body; a method without an upload
      runs `request`, a folder upload `requestMultipartFolder` and a channel
      upload `requestMultipartReaders`, each with the method's own `authed`
      flag and verb and the caller's URL and body. */
  lemma DispatchInvoke<P, R>(w: Wrapper, s: Settings, env: Env<P, R>, form: Form, url: string, body: Option<P>, upload: Upload)
    requires url != "" && (RouteOf(w).takesBody || body.None?) && Matches(w, upload)
    ensures var a, r := Dispatch(s, env, form, Invoke(w, url, body, upload)), RouteOf(w);
      && (a.Raw? <==> w == AuthedStreamedGet)
      && (w == AuthedStreamedGet ==> a.stream == StreamSpec(s, env, true, url, "GET", body))
      && (upload.NoUpload? && w != AuthedStreamedGet ==> a.reply == RequestSpec(s, env, r.authed, url, r.verb, body))
      && (upload.FolderUpload? ==> a.reply == FolderRequestSpec(s, env, form, r.authed, upload.folder, url, r.verb, body))
      && (upload.QueueUpload? ==> a.reply == ReadersRequestSpec(s, env, form, r.authed, upload.queue, url, r.verb, body))
  {
    Verbs(w);
  }
}
