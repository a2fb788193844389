/** The API client of internal/apiclient/client.go: the checks NewClient
    makes, the URL prepareURL builds, and the headers setupRequest puts on
    every outgoing request. */
module Client {
  import opened Base
  import opened Multipart

  /** How a Go call ends: it returns a value, or it panics with a message. */
  datatype Outcome<T> = Returned(value: T) | Panicked(msg: string)

  const ToastatePrefix: string := "X-TOASTATE-"
  const ApiVersionKey: string := ToastatePrefix + "APIVERSION"
  const ContentTypeKey: string := "Content-Type"
  const AuthKey: string := ToastatePrefix + "AUTH"
  const JsonType: string := "application/json"
  const Scheme: string := "https://"

  /** The panic NewClient raises, if any. */
  function NewClientPanic(domainName: string, apiVersion: string): (p: Option<string>)
    ensures p.None? <==> apiVersion != "" && domainName != ""
    ensures apiVersion == "" ==> p == Some("api version cannot be empty")
    ensures apiVersion != "" && domainName == "" ==> p == Some("api domain name cannot be empty")
  {
    if apiVersion == "" then Some("api version cannot be empty")
    else if domainName == "" then Some("api domain name cannot be empty")
    else None
  }

  /** prepareURL: the absolute https URL of an API path on `domainName`. */
  function PrepareURL(domainName: string, url: string): (r: Outcome<string>)
    ensures r.Panicked? <==> url == ""
    ensures r.Panicked? ==> r.msg == "empty url"
    ensures r.Returned? ==> HasPrefix(r.value, Scheme + domainName + "/")
    ensures r.Returned? ==> r.value[|Scheme + domainName|..] == if url[0] == '/' then url else "/" + url
  {
    if url == "" then Panicked("empty url")
    else
      var path := if url[0] != '/' then "/" + url else url;
      Returned(Scheme + domainName + path)
  }

  /** The path part of a prepared URL prepares to the same URL again: the
      leading slash is added at most once and existing slashes are kept. */
  lemma PrepareURLStable(domainName: string, url: string)
    requires url != ""
    ensures var full := PrepareURL(domainName, url).value;
      PrepareURL(domainName, full[|Scheme + domainName|..]) == PrepareURL(domainName, url)
  {
    var full := PrepareURL(domainName, url).value;
    assert full == Scheme + domainName + full[|Scheme + domainName|..];
  }

  /** A character net/http accepts in a header key: a token character of
      section 3.2.6 of RFC 7230. */
  predicate TokenChar(ch: char) {
    || ('a' <= ch <= 'z') || ('A' <= ch <= 'Z') || ('0' <= ch <= '9')
    || ch in "!#$%&'*+-.^_`|~"
  }

  function ToUpper(ch: char): char {
    if 'a' <= ch <= 'z' then (ch as int - 32) as char else ch
  }

  function ToLower(ch: char): char {
    if 'A' <= ch <= 'Z' then (ch as int + 32) as char else ch
  }

  predicate AllTokens(s: string) {
    forall i :: 0 <= i < |s| ==> TokenChar(s[i])
  }

  /** Position `i` begins a word of the key: it is first or follows a '-'. */
  predicate StartsWord(s: string, i: int)
    requires 0 <= i < |s|
  {
    i == 0 || s[i - 1] == '-'
  }

  /** Upper case at the start of each word, lower case elsewhere. */
  function Recased(key: string): string {
    seq(|key|, i requires 0 <= i < |key| => if StartsWord(key, i) then ToUpper(key[i]) else ToLower(key[i]))
  }

  /** textproto.CanonicalMIMEHeaderKey, which Header.Add and Header.Set apply
      to their key: a key made of token characters gets upper case at the
      start of each word and lower case elsewhere; any other key is kept as
      written. Only the case of letters ever changes. */
  function CanonicalKey(key: string): (c: string)
    ensures |c| == |key|
    ensures forall i :: 0 <= i < |key| ==> ToLower(c[i]) == ToLower(key[i])
    ensures !AllTokens(key) ==> c == key
  {
    if AllTokens(key) then
      var c := Recased(key);
      assert forall i :: 0 <= i < |key| ==> ToLower(c[i]) == ToLower(key[i]) by {
        forall i | 0 <= i < |key|
          ensures ToLower(c[i]) == ToLower(key[i])
        {
          LowerOfCase(key[i]);
        }
      }
      c
    else key
  }

  lemma LowerOfCase(x: char)
    ensures ToLower(ToUpper(x)) == ToLower(x) && ToLower(ToLower(x)) == ToLower(x)
  {
  }

  lemma CaseOfChar(x: char, y: char)
    requires ToLower(x) == ToLower(y)
    ensures ToUpper(x) == ToUpper(y) && (TokenChar(x) <==> TokenChar(y)) && (x == '-' <==> y == '-')
  {
  }

  /** Keys of token characters that differ only in the case of their letters
      are stored under one canonical key, so Header.Add with either spelling
      extends the same list. */
  lemma {:induction false} CanonicalKeyIgnoresCase(a: string, b: string)
    requires AllTokens(a)
    requires |a| == |b| && forall i :: 0 <= i < |a| ==> ToLower(a[i]) == ToLower(b[i])
    ensures CanonicalKey(a) == CanonicalKey(b)
  {
    forall i | 0 <= i < |a|
      ensures TokenChar(b[i]) && ToUpper(a[i]) == ToUpper(b[i]) && (StartsWord(a, i) <==> StartsWord(b, i))
    {
      CaseOfChar(a[i], b[i]);
      if i > 0 {
        CaseOfChar(a[i - 1], b[i - 1]);
      }
    }
  }

  /** Canonicalising a canonical key changes nothing. */
  lemma {:induction false} CanonicalKeyIdempotent(key: string)
    ensures CanonicalKey(CanonicalKey(key)) == CanonicalKey(key)
  {
    if AllTokens(key) {
      var c := CanonicalKey(key);
      forall i | 0 <= i < |c|
        ensures TokenChar(c[i])
      {
        CaseOfChar(c[i], key[i]);
      }
      CanonicalKeyIgnoresCase(c, key);
    }
  }

  /** A key of letters and '-' consists of token characters. */
  lemma LettersAreTokens(s: string)
    requires forall i :: 0 <= i < |s| ==> s[i] == '-' || 'A' <= s[i] <= 'Z' || 'a' <= s[i] <= 'z'
    ensures AllTokens(s)
  {
  }

  lemma AllTokensJoin(a: string, b: string)
    requires AllTokens(a) && AllTokens(b)
    ensures AllTokens(a + b)
  {
    var ab := a + b;
    forall i | 0 <= i < |ab|
      ensures TokenChar(ab[i])
    {
      if i < |a| {
        assert ab[i] == a[i];
      } else {
        assert ab[i] == b[i - |a|];
      }
    }
  }

  /** Words are recased one by one: after a '-' a new word starts. */
  lemma RecasedAfterDash(a: string, b: string)
    requires |a| > 0 && a[|a| - 1] == '-'
    ensures Recased(a + b) == Recased(a) + Recased(b)
  {
    var ab := a + b;
    var c, ca, cb := Recased(ab), Recased(a), Recased(b);
    forall i | 0 <= i < |ab|
      ensures c[i] == (ca + cb)[i]
    {
      if i < |a| {
        assert ab[i] == a[i];
        assert StartsWord(ab, i) <==> StartsWord(a, i);
      } else {
        assert ab[i] == b[i - |a|];
        assert StartsWord(ab, i) <==> StartsWord(b, i - |a|);
      }
    }
  }

  lemma CanonicalAfterDash(a: string, b: string)
    requires AllTokens(a) && AllTokens(b) && |a| > 0 && a[|a| - 1] == '-'
    ensures AllTokens(a + b) && CanonicalKey(a + b) == CanonicalKey(a) + CanonicalKey(b)
  {
    AllTokensJoin(a, b);
    RecasedAfterDash(a, b);
  }

  lemma StoredX()
    ensures AllTokens("X-") && CanonicalKey("X-") == "X-"
  {
    LettersAreTokens("X-");
    var c := Recased("X-");
    assert c[0] == 'X'; assert c[1] == '-';
  }

  lemma StoredToastate()
    ensures AllTokens("TOASTATE-") && CanonicalKey("TOASTATE-") == "Toastate-"
  {
    LettersAreTokens("TOASTATE-");
    var c := Recased("TOASTATE-");
    assert c[0] == 'T'; assert c[1] == 'o'; assert c[2] == 'a'; assert c[3] == 's'; assert c[4] == 't';
    assert c[5] == 'a'; assert c[6] == 't'; assert c[7] == 'e'; assert c[8] == '-';
  }

  lemma StoredApiversion()
    ensures AllTokens("APIVERSION") && CanonicalKey("APIVERSION") == "Apiversion"
  {
    LettersAreTokens("APIVERSION");
    var c := Recased("APIVERSION");
    assert c[0] == 'A'; assert c[1] == 'p'; assert c[2] == 'i'; assert c[3] == 'v'; assert c[4] == 'e';
    assert c[5] == 'r'; assert c[6] == 's'; assert c[7] == 'i'; assert c[8] == 'o'; assert c[9] == 'n';
  }

  lemma StoredAuth()
    ensures AllTokens("AUTH") && CanonicalKey("AUTH") == "Auth"
  {
    LettersAreTokens("AUTH");
    var c := Recased("AUTH");
    assert c[0] == 'A'; assert c[1] == 'u'; assert c[2] == 't'; assert c[3] == 'h';
  }

  lemma StoredContent()
    ensures AllTokens("Content-") && CanonicalKey("Content-") == "Content-"
  {
    LettersAreTokens("Content-");
    var c := Recased("Content-");
    assert c[0] == 'C'; assert c[1] == 'o'; assert c[2] == 'n'; assert c[3] == 't'; assert c[4] == 'e';
    assert c[5] == 'n'; assert c[6] == 't'; assert c[7] == '-';
  }

  lemma StoredType()
    ensures AllTokens("Type") && CanonicalKey("Type") == "Type"
  {
    LettersAreTokens("Type");
    var c := Recased("Type");
    assert c[0] == 'T'; assert c[1] == 'y'; assert c[2] == 'p'; assert c[3] == 'e';
  }

  lemma StoredPrefix()
    ensures AllTokens(ToastatePrefix) && CanonicalKey(ToastatePrefix) == "X-Toastate-"
  {
    StoredX();
    StoredToastate();
    assert ToastatePrefix == "X-" + "TOASTATE-";
    CanonicalAfterDash("X-", "TOASTATE-");
  }

  /** The keys the SDK writes: the two X-TOASTATE keys are stored as
      "X-Toastate-Apiversion" and "X-Toastate-Auth"; Content-Type is kept. */
  lemma StoredApiVersionKey()
    ensures CanonicalKey(ApiVersionKey) == "X-Toastate-Apiversion"
  {
    StoredPrefix();
    StoredApiversion();
    CanonicalAfterDash(ToastatePrefix, "APIVERSION");
  }

  lemma StoredAuthKey()
    ensures CanonicalKey(AuthKey) == "X-Toastate-Auth"
  {
    StoredPrefix();
    StoredAuth();
    CanonicalAfterDash(ToastatePrefix, "AUTH");
  }

  lemma StoredContentTypeKey()
    ensures CanonicalKey(ContentTypeKey) == "Content-Type"
  {
    StoredContent();
    StoredType();
    assert ContentTypeKey == "Content-" + "Type";
    CanonicalAfterDash("Content-", "Type");
  }

  /** net/http's Header: each canonical key holds the list of its values. */
  type Header = map<string, seq<string>>

  /** Header.Add: appends a value to the list of the key's canonical form. */
  function AddHeader(h: Header, key: string, value: string): (r: Header)
    ensures r.Keys == h.Keys + {CanonicalKey(key)}
    ensures r[CanonicalKey(key)] == (if CanonicalKey(key) in h then h[CanonicalKey(key)] else []) + [value]
    ensures forall k :: k in h && k != CanonicalKey(key) ==> r[k] == h[k]
  {
    var k := CanonicalKey(key);
    h[k := (if k in h then h[k] else []) + [value]]
  }

  /** Header.Set: replaces the list of the key's canonical form by the one value. */
  function SetHeader(h: Header, key: string, value: string): (r: Header)
    ensures r.Keys == h.Keys + {CanonicalKey(key)}
    ensures r[CanonicalKey(key)] == [value]
    ensures forall k :: k in h && k != CanonicalKey(key) ==> r[k] == h[k]
  {
    h[CanonicalKey(key) := [value]]
  }

  /** The headers setupRequest leaves on a request that had `h`. */
  function Prepared(h: Header, apiVersion: string, authToken: string, authed: bool): Header {
    var v := AddHeader(AddHeader(h, ApiVersionKey, apiVersion), ContentTypeKey, JsonType);
    if authed then AddHeader(v, AuthKey, authToken) else v
  }

  /** On a new request, setupRequest sets exactly the API version and the JSON
      content type, plus the token when the call is authenticated. */
  lemma PreparedFresh(apiVersion: string, authToken: string, authed: bool)
    ensures var h := Prepared(map[], apiVersion, authToken, authed);
      && h.Keys == {"X-Toastate-Apiversion", "Content-Type"} + (if authed then {"X-Toastate-Auth"} else {})
      && h["X-Toastate-Apiversion"] == [apiVersion]
      && h["Content-Type"] == [JsonType]
      && (authed ==> h["X-Toastate-Auth"] == [authToken])
  {
    StoredApiVersionKey();
    StoredAuthKey();
    StoredContentTypeKey();
  }

  /** What an outgoing request carries: nothing, JSON text, or a multipart
      form (the body as its producer left it). */
  datatype Payload = NoBody | JsonBody(bytes: seq<byte>) | FormBody(form: Wire)

  /** An `*http.Request` under construction: only its headers change. */
  class HttpRequest {
    const verb: string
    const url: string
    const body: Payload
    var header: Header

    constructor(verb: string, url: string, body: Payload)
      ensures this.verb == verb && this.url == url && this.body == body && header == map[]
    {
      this.verb := verb;
      this.url := url;
      this.body := body;
      header := map[];
    }

    /** req.Header.Set */
    method Set(key: string, value: string)
      modifies this
      ensures header == SetHeader(old(header), key, value)
    {
      header := SetHeader(header, key, value);
    }
  }

  /** The fields of a client that requests depend on. */
  datatype Settings = Settings(domainName: string, apiVersion: string, authToken: string)

  /** `*apiclient.Client`. Only the token changes after construction. */
  class ApiClient {
    const domainName: string
    const apiVersion: string
    var authToken: string

    function Config(): Settings
      reads this
    {
      Settings(domainName, apiVersion, authToken)
    }

    /** NewClient; it panics when NewClientPanic says so. */
    constructor(domainName: string, apiVersion: string)
      requires NewClientPanic(domainName, apiVersion).None?
      ensures Config() == Settings(domainName, apiVersion, "")
    {
      this.domainName := domainName;
      this.apiVersion := apiVersion;
      authToken := "";
    }

    /** SetAuthToken: replaces the token and returns the same client. */
    method SetAuthToken(token: string) returns (c: ApiClient)
      modifies this
      ensures c == this && Config() == old(Config()).(authToken := token)
    {
      authToken := token;
      c := this;
    }

    /** setupRequest */
    method SetupRequest(req: HttpRequest, authed: bool)
      modifies req
      ensures req.header == Prepared(old(req.header), apiVersion, authToken, authed)
    {
      req.header := AddHeader(req.header, ApiVersionKey, apiVersion);
      req.header := AddHeader(req.header, ContentTypeKey, JsonType);
      if authed {
        req.header := AddHeader(req.header, AuthKey, authToken);
      }
    }
  }
}
