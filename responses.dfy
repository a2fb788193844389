/** The checks every operation of the toastcloud package runs on the result
    of its API call, in this order: the local error is returned as it is,
    an API error becomes an "APIERROR" error, a response whose `success` is
    false is an error, and some operations then reject a missing payload. */
module Responses {
  import opened Base
  import opened Requests

  /** A response struct: its `success` flag and the rest of its fields. */
  datatype Envelope<T> = Envelope(success: bool, payload: T)

  const ApiErrorPrefix: string := "APIERROR: status: "
  const FailedWith200: string := "The API returned a failure with a 200 HTTP status code which should not happen"
  const EmptyBody: string := "The request was successfull but the remote API returned an empty body"

  /** fmt.Errorf("APIERROR: status: %v; code: %v; message: %v", ...) */
  function ApiErrorText(e: ApiError): (s: string)
    ensures HasPrefix(s, ApiErrorPrefix + IntToString(e.status) + "; code: ")
  {
    ApiErrorPrefix + IntToString(e.status) + "; code: " + e.code + "; message: " + e.message
  }

  lemma NatToStringInjective(m: nat, n: nat)
    requires NatToString(m) == NatToString(n)
    ensures m == n
  {
    NatToStringRoundTrip(m);
    NatToStringRoundTrip(n);
  }

  /** Different integers print differently. */
  lemma IntToStringInjective(i: int, j: int)
    requires IntToString(i) == IntToString(j)
    ensures i == j
  {
    var s := IntToString(i);
    if i < 0 {
      assert j < 0;
      assert IntToString(i) == "-" + NatToString(-i);
      assert IntToString(j) == "-" + NatToString(-j);
      assert NatToString(-i) == s[1..] == NatToString(-j);
      NatToStringInjective(-i, -j);
    } else {
      assert j >= 0;
      NatToStringInjective(i, j);
    }
  }

  /** The status can be read back from the text: it runs from the prefix to
      the first ';', so two errors with the same text have the same status. */
  lemma {:induction false} ApiErrorTextKeepsStatus(a: ApiError, b: ApiError)
    requires ApiErrorText(a) == ApiErrorText(b)
    ensures a.status == b.status
  {
    var sa, sb := IntToString(a.status), IntToString(b.status);
    var p := |ApiErrorPrefix|;
    var t := ApiErrorText(a);
    assert t == ApiErrorPrefix + sa + ("; code: " + a.code + "; message: " + a.message);
    assert t == ApiErrorPrefix + sb + ("; code: " + b.code + "; message: " + b.message);
    assert t[p + |sa|] == ';';
    assert t[p + |sb|] == ';';
    assert sa == t[p..p + |sa|];
    assert sb == t[p..p + |sb|];
    IntToStringInjective(a.status, b.status);
  }

  /** The first two checks: the local error as it is, the API error as text. */
  function Relayed<X>(r: Reply<X>): (res: Result<X>)
    ensures res.Ok? <==> r.Decoded?
    ensures res.Ok? ==> res.value == r.value
    ensures r.LocalErr? ==> res == Fail(r.err)
    ensures r.ApiErr? ==> res == Fail(Failure(ApiErrorText(r.apiErr)))
  {
    match r
    case LocalErr(err) => Fail(err)
    case ApiErr(e) => Fail(Failure(ApiErrorText(e)))
    case Decoded(v) => Ok(v)
  }

  /** The three checks every JSON operation runs. */
  function Check<T>(r: Reply<Envelope<T>>): (res: Result<T>)
    ensures res.Ok? <==> r.Decoded? && r.value.success
    ensures res.Ok? ==> res.value == r.value.payload
    ensures !r.Decoded? ==> res.Fail? && Relayed(r) == Fail(res.err)
    ensures r.Decoded? && !r.value.success ==> res == Fail(Failure(FailedWith200))
  {
    match Relayed(r)
    case Fail(err) => Fail(err)
    case Ok(env) => if env.success then Ok(env.payload) else Fail(Failure(FailedWith200))
  }

  /** The payload check some operations add: `present` must hold of it. */
  function Require<T>(res: Result<T>, present: T -> bool, msg: string): (out: Result<T>)
    ensures out.Ok? <==> res.Ok? && present(res.value)
    ensures out.Ok? ==> out.value == res.value
    ensures res.Fail? ==> out == res
    ensures res.Ok? && !present(res.value) ==> out == Fail(Failure(msg))
  {
    if res.Fail? then res
    else if present(res.value) then res
    else Fail(Failure(msg))
  }

  /** `r` is what an operation returns from the checked result `res` when it
      builds its output with `out`. */
  predicate Relays<T, O(==)>(r: Result<O>, res: Result<T>, out: T -> O) {
    && (r.Ok? <==> res.Ok?)
    && (r.Ok? ==> r.value == out(res.value))
    && (r.Fail? ==> r.err == res.err)
  }

  /** Builds an operation's output from a checked result. */
  function Output<T, O(==)>(res: Result<T>, out: T -> O): (r: Result<O>)
    ensures Relays(r, res, out)
  {
    match res
    case Ok(v) => Ok(out(v))
    case Fail(err) => Fail(err)
  }
}
