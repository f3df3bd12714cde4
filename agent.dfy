/** The HTTP gateway of client-app/src/app/api/agent.ts: the request
    interceptor that attaches the bearer token, the response interceptor that
    rewraps paginated bodies, and the error handler that dispatches on the
    status code. History navigation, toasts, console output and the store's
    logout are recorded as a list of effects, in the order the handler
    performs them; the two store fields the handler writes are fields of
    `ClientStore`. */
module Agent {
  import opened Wrappers
  import opened JsValues

  const InvalidTokenMarker := "Bearer error=\"invalid_token\""
  const SessionExpiredMessage := "Session expired - please login again."
  const NotFoundPath := "/not-found"
  const ServerErrorPath := "/server-error"

  datatype Effect =
    | Navigate(path: string)           // history.push
    | Toast(message: string)           // toast.error
    | Log(value: Value)                // console.log
    | Logout                           // store.userStore.logout()
    | StoreServerError(error: Value)   // store.commonStore.setServerError

  /** Exceptions raised by the interceptors' own code. */
  datatype Exception = TypeError | SyntaxError

  /** `error.response`: the method of the failed request's config, the body,
      the (lower-cased) response headers and the status. */
  datatype ErrorResponse = ErrorResponse(httpMethod: string, data: Value, headers: map<string, string>, status: int)

  /** An AxiosError; `response` is absent when no response arrived. */
  datatype AxiosError = AxiosError(response: Option<ErrorResponse>)

  /** How the promise of a call settles: resolved, rejected with the
      original error, rejected with the flattened list of validation
      messages, or rejected with an exception thrown by the handler. */
  datatype Outcome<+R> =
    | Resolve(value: R)
    | Reject(error: AxiosError)
    | RejectWithMessages(messages: seq<Value>)
    | RejectWithException(exception: Exception)

  /** What the error handler does with one failed call. */
  datatype Dispatch = Dispatch(effects: seq<Effect>, outcome: Outcome<Response>)

  /** How many times `e` occurs in `effects`. */
  function Occurrences(effects: seq<Effect>, e: Effect): (n: nat)
    ensures n == multiset(effects)[e]
    ensures n <= |effects|
    ensures n == 0 <==> e !in effects
  {
    if effects == [] then 0
    else
      var front := effects[..|effects| - 1];
      assert effects == front + [effects[|effects| - 1]];
      Occurrences(front, e) + (if effects[|effects| - 1] == e then 1 else 0)
  }

  // ---------------------------------------------------------------------
  // Request interceptor

  /** The token in the common store is `string | null`; it is used when it
      is truthy, that is, present and not empty. */
  predicate HasToken(token: Option<string>)
    ensures HasToken(token) <==> Truthy(if token.Some? then Str(token.value) else Null)
  {
    token.Some? && token.value != ""
  }

  /** The headers a request goes out with: with a token, the headers object
      is replaced by one holding only the bearer authorization; without
      one, the headers are left as they were. */
  function AuthorizedHeaders(token: Option<string>, headers: map<string, string>): (r: map<string, string>)
    ensures HasToken(token) ==> r.Keys == {"Authorization"}
    ensures HasToken(token) ==> |r["Authorization"]| > 7 && r["Authorization"][..7] == "Bearer "
    ensures HasToken(token) ==> r["Authorization"][7..] == token.value
    ensures !HasToken(token) ==> r == headers
  {
    if HasToken(token) then map["Authorization" := "Bearer " + token.value] else headers
  }

  class RequestConfig {
    var httpMethod: string
    var url: string
    var headers: map<string, string>

    constructor (httpMethod: string, url: string, headers: map<string, string>)
      ensures this.httpMethod == httpMethod && this.url == url && this.headers == headers
    {
      this.httpMethod := httpMethod;
      this.url := url;
      this.headers := headers;
    }
  }

  // ---------------------------------------------------------------------
  // Response interceptor

  class Response {
    var data: Value
    const headers: map<string, string>
    const status: int

    constructor (data: Value, headers: map<string, string>, status: int)
      ensures this.data == data && this.headers == headers && this.status == status
    {
      this.data := data;
      this.headers := headers;
      this.status := status;
    }
  }

  /** `response.headers['pagination']` when it is truthy. */
  function PaginationHeader(headers: map<string, string>): (r: Option<string>)
    ensures r.Some? <==> Truthy(HeaderValue(headers, "pagination"))
    ensures r.Some? ==> r.value == headers["pagination"]
  {
    if "pagination" in headers && headers["pagination"] != "" then Some(headers["pagination"]) else None
  }

  /** `new PaginatedResult(data, pagination)`: an object whose `data` is the
      original body and whose `pagination` is the parsed metadata. */
  function PaginatedResult(data: Value, pagination: Value): (r: Value)
    ensures Get(r, Name("data")) == Returned(data)
    ensures Get(r, Name("pagination")) == Returned(pagination)
    ensures ForInKeys(r) == [Name("data"), Name("pagination")]
  {
    var r := Obj([Property("data", data), Property("pagination", pagination)]);
    assert IsFirstKey(r.props, "data", 0);
    assert IsFirstKey(r.props, "pagination", 1);
    assert DistinctKeys(r.props) == DistinctKeys(r.props[..1]) + ["pagination"];
    r
  }

  /** The fulfilled-response interceptor (the development-only delay left
      out). `parse` stands for `JSON.parse`; `None` is a SyntaxError. */
  method InterceptResponse(response: Response, parse: string -> Option<Value>) returns (outcome: Outcome<Response>)
    modifies response
    ensures PaginationHeader(response.headers).None? ==>
      outcome == Resolve(response) && response.data == old(response.data)
    ensures forall h :: PaginationHeader(response.headers) == Some(h) && parse(h).None? ==>
      outcome == RejectWithException(SyntaxError) && response.data == old(response.data)
    ensures forall h, meta :: PaginationHeader(response.headers) == Some(h) && parse(h) == Some(meta) ==>
      outcome == Resolve(response) && response.data == PaginatedResult(old(response.data), meta)
  {
    var pagination := PaginationHeader(response.headers);
    if pagination.Some? {
      var meta := parse(pagination.value);
      if meta.None? {
        return RejectWithException(SyntaxError);
      }
      response.data := PaginatedResult(response.data, meta.value);
      return Resolve(response);
    }
    return Resolve(response);
  }

  // ---------------------------------------------------------------------
  // Error handler, status 400: the validation-message list

  /** The truthy values found under `keys`, in order: what the `for…in`
      loop pushes onto `modalStateErrors`. */
  function TruthyValues(errors: Value, keys: seq<Key>): (r: seq<Value>)
    ensures |r| <= |keys|
    ensures forall i :: 0 <= i < |r| ==> Truthy(r[i])
  {
    if keys == [] then []
    else
      var front := TruthyValues(errors, keys[..|keys| - 1]);
      var v := Get(errors, keys[|keys| - 1]);
      if v.Returned? && Truthy(v.value) then front + [v.value] else front
  }

  /** A value found under key `k` of `errors` that was pushed because it is
      truthy. */
  ghost predicate PushedUnder(errors: Value, k: Key, v: Value)
  {
    Get(errors, k) == Returned(v) && Truthy(v)
  }

  /** A value is pushed exactly when some visited key holds it and it is
      truthy. */
  lemma {:induction false} TruthyValuesMembers(errors: Value, keys: seq<Key>, v: Value)
    ensures v in TruthyValues(errors, keys) <==> exists i :: 0 <= i < |keys| && PushedUnder(errors, keys[i], v)
    decreases |keys|
  {
    if keys != [] {
      var prefix, k := keys[..|keys| - 1], keys[|keys| - 1];
      TruthyValuesMembers(errors, prefix, v);
      var front := TruthyValues(errors, prefix);
      var g := Get(errors, k);
      assert TruthyValues(errors, keys) == if g.Returned? && Truthy(g.value) then front + [g.value] else front;
      assert v in TruthyValues(errors, keys) <==> v in front || PushedUnder(errors, k, v);
      if v in front {
        var i :| 0 <= i < |prefix| && PushedUnder(errors, prefix[i], v);
        assert keys[i] == prefix[i];
      }
      if exists i :: 0 <= i < |keys| && PushedUnder(errors, keys[i], v) {
        var i :| 0 <= i < |keys| && PushedUnder(errors, keys[i], v);
        if i < |prefix| {
          assert PushedUnder(errors, prefix[i], v);
        }
      }
    }
  }

  /** Visiting one more key pushes its value exactly when it is truthy. */
  lemma TruthyValuesSnoc(errors: Value, keys: seq<Key>, k: Key, v: Value)
    requires Get(errors, k) == Returned(v)
    ensures TruthyValues(errors, keys + [k]) == TruthyValues(errors, keys) + (if Truthy(v) then [v] else [])
  {
    assert (keys + [k])[..|keys|] == keys;
  }

  /** Visiting two runs of keys one after the other pushes the values of the
      first run, then those of the second: the order of the keys is kept. */
  lemma {:induction false} TruthyValuesAppend(errors: Value, k1: seq<Key>, k2: seq<Key>)
    ensures TruthyValues(errors, k1 + k2) == TruthyValues(errors, k1) + TruthyValues(errors, k2)
    decreases |k2|
  {
    if k2 == [] {
      assert k1 + k2 == k1;
    } else {
      var k2' := k2[..|k2| - 1];
      assert (k1 + k2)[..|k1 + k2| - 1] == k1 + k2';
      TruthyValuesAppend(errors, k1, k2');
    }
  }

  /** The truthy elements of `vs`, in order. */
  function TruthyOnly(vs: seq<Value>): seq<Value>
  {
    if vs == [] then [] else (if Truthy(vs[0]) then [vs[0]] else []) + TruthyOnly(vs[1..])
  }

  /** The filter keeps exactly the truthy elements. */
  lemma {:induction false} TruthyOnlyMembers(vs: seq<Value>, v: Value)
    ensures v in TruthyOnly(vs) <==> v in vs && Truthy(v)
    decreases |vs|
  {
    if vs != [] {
      TruthyOnlyMembers(vs[1..], v);
      assert vs == [vs[0]] + vs[1..];
    }
  }

  lemma {:induction false} TruthyOnlySnoc(vs: seq<Value>, x: Value)
    ensures TruthyOnly(vs + [x]) == TruthyOnly(vs) + (if Truthy(x) then [x] else [])
    decreases |vs|
  {
    var last := if Truthy(x) then [x] else [];
    if vs == [] {
      assert [x][1..] == [];
      assert TruthyOnly([x]) == last + TruthyOnly([]);
    } else {
      var head := if Truthy(vs[0]) then [vs[0]] else [];
      assert (vs + [x])[0] == vs[0];
      assert (vs + [x])[1..] == vs[1..] + [x];
      assert TruthyOnly(vs + [x]) == head + TruthyOnly(vs[1..] + [x]);
      TruthyOnlySnoc(vs[1..], x);
      assert TruthyOnly(vs[1..] + [x]) == TruthyOnly(vs[1..]) + last;
      assert TruthyOnly(vs) == head + TruthyOnly(vs[1..]);
    }
  }

  /** A list with no falsy element is kept whole. */
  lemma {:induction false} TruthyOnlyOfTruthy(vs: seq<Value>)
    requires forall i :: 0 <= i < |vs| ==> Truthy(vs[i])
    ensures TruthyOnly(vs) == vs
    decreases |vs|
  {
    if vs != [] {
      TruthyOnlyOfTruthy(vs[1..]);
    }
  }

  /** `modalStateErrors.flat()` after the loop over `data.errors`. A value
      that has no keys (a number, a boolean) yields no messages. */
  function ModalStateErrors(errors: Value): (r: seq<Value>)
    ensures !(errors.Obj? || errors.Arr? || errors.Str?) ==> r == []
  {
    Flat(TruthyValues(errors, ForInKeys(errors)))
  }

  /** The messages are exactly the items of the truthy values found under
      the keys of `errors`, an array value contributing its items. */
  lemma ModalStateErrorsMembers(errors: Value, x: Value)
    ensures x in ModalStateErrors(errors) <==>
      exists i, v :: 0 <= i < |ForInKeys(errors)| && PushedUnder(errors, ForInKeys(errors)[i], v) && x in Spread(v)
  {
    var keys := ForInKeys(errors);
    var pushed := TruthyValues(errors, keys);
    FlatMembers(pushed, x);
    if x in ModalStateErrors(errors) {
      var j :| 0 <= j < |pushed| && x in Spread(pushed[j]);
      TruthyValuesMembers(errors, keys, pushed[j]);
    }
    if exists i, v :: 0 <= i < |keys| && PushedUnder(errors, keys[i], v) && x in Spread(v) {
      var i, v :| 0 <= i < |keys| && PushedUnder(errors, keys[i], v) && x in Spread(v);
      TruthyValuesMembers(errors, keys, v);
      var j :| 0 <= j < |pushed| && pushed[j] == v;
    }
  }

  /** The loop of the 400 branch: visit the keys of `errors`, push every
      truthy value, then flatten by one level. */
  method CollectModalStateErrors(errors: Value) returns (messages: seq<Value>)
    ensures messages == ModalStateErrors(errors)
  {
    var keys := ForInKeys(errors);
    var modalStateErrors: seq<Value> := [];
    var i := 0;
    while i < |keys|
      invariant 0 <= i <= |keys|
      invariant modalStateErrors == TruthyValues(errors, keys[..i])
    {
      assert keys[..i + 1] == keys[..i] + [keys[i]];
      var v := Get(errors, keys[i]);
      if v.Returned? && Truthy(v.value) {
        modalStateErrors := modalStateErrors + [v.value];
      }
      i := i + 1;
    }
    assert keys[..i] == keys;
    messages := Flat(modalStateErrors);
  }

  /** An errors object with distinct keys: the values pushed are its truthy
      values, in key order. */
  lemma {:induction false} TruthyValuesOfObject(props: seq<Property>, n: nat)
    requires n <= |props|
    requires forall i, j :: 0 <= i < j < |props| ==> props[i].key != props[j].key
    ensures TruthyValues(Obj(props), seq(n, i requires 0 <= i < n => Name(props[i].key)))
         == TruthyOnly(seq(n, i requires 0 <= i < n => props[i].value))
    decreases n
  {
    var keys := seq(n, i requires 0 <= i < n => Name(props[i].key));
    var values := seq(n, i requires 0 <= i < n => props[i].value);
    if n > 0 {
      var keys' := seq(n - 1, i requires 0 <= i < n - 1 => Name(props[i].key));
      var values' := seq(n - 1, i requires 0 <= i < n - 1 => props[i].value);
      var last := props[n - 1].value;
      var pushed' := TruthyValues(Obj(props), keys');
      assert pushed' == TruthyOnly(values') by {
        TruthyValuesOfObject(props, n - 1);
      }
      assert TruthyValues(Obj(props), keys) == pushed' + (if Truthy(last) then [last] else []) by {
        assert keys == keys' + [Name(props[n - 1].key)];
        assert IsFirstKey(props, props[n - 1].key, n - 1);
        TruthyValuesSnoc(Obj(props), keys', Name(props[n - 1].key), last);
      }
      assert TruthyOnly(values) == TruthyOnly(values') + (if Truthy(last) then [last] else []) by {
        assert values == values' + [last];
        TruthyOnlySnoc(values', last);
      }
    }
  }

  /** With distinct keys, the keys a `for…in` loop visits are the keys as
      written. */
  lemma {:induction false} DistinctKeysOfDistinct(props: seq<Property>)
    requires forall i, j :: 0 <= i < j < |props| ==> props[i].key != props[j].key
    ensures DistinctKeys(props) == seq(|props|, i requires 0 <= i < |props| => props[i].key)
    decreases |props|
  {
    if props != [] {
      var front := props[..|props| - 1];
      DistinctKeysOfDistinct(front);
      assert props[|props| - 1].key !in DistinctKeys(front);
    }
  }

  /** For an errors object with distinct keys the rejection value is the
      truthy values, in key order, flattened by one level: falsy entries
      are skipped. */
  lemma ValidationMessages(props: seq<Property>)
    requires forall i, j :: 0 <= i < j < |props| ==> props[i].key != props[j].key
    ensures ModalStateErrors(Obj(props)) == Flat(TruthyOnly(seq(|props|, i requires 0 <= i < |props| => props[i].value)))
  {
    DistinctKeysOfDistinct(props);
    var keys := ForInKeys(Obj(props));
    assert keys == seq(|props|, i requires 0 <= i < |props| => Name(props[i].key));
    TruthyValuesOfObject(props, |props|);
  }

  /** For a 400 body `{errors: {k1: [m…], k2: [m…], …}}` in the shape ASP.NET
      validation produces, the rejection value is all the messages, in key
      order, flattened into one list. */
  lemma ValidationMessagesInKeyOrder(props: seq<Property>)
    requires forall i, j :: 0 <= i < j < |props| ==> props[i].key != props[j].key
    requires forall i :: 0 <= i < |props| ==> props[i].value.Arr?
    ensures ModalStateErrors(Obj(props)) == Flat(seq(|props|, i requires 0 <= i < |props| => props[i].value))
  {
    ValidationMessages(props);
    TruthyOnlyOfTruthy(seq(|props|, i requires 0 <= i < |props| => props[i].value));
  }

  // ---------------------------------------------------------------------
  // Error handler: the classification by status

  /** The 400 branch after the GET-only check (agent.ts:55-64): read
      `data.errors` and, when it is truthy, reject with the flattened
      messages; otherwise break out and reject with the original error. */
  function ValidationStep(error: AxiosError, r: ErrorResponse, effects: seq<Effect>): (d: Dispatch)
    ensures d.effects == effects
    ensures r.data.Undefined? || r.data.Null? ==> d.outcome == RejectWithException(TypeError)
    ensures r.data.Obj? && Truthy(Lookup(r.data.props, "errors")) ==>
      d.outcome == RejectWithMessages(ModalStateErrors(Lookup(r.data.props, "errors")))
    ensures r.data.Obj? && !Truthy(Lookup(r.data.props, "errors")) ==> d.outcome == Reject(error)
    ensures !r.data.Obj? && !r.data.Undefined? && !r.data.Null? ==> d.outcome == Reject(error)
  {
    match Get(r.data, Name("errors"))
    case ThrowsTypeError => Dispatch(effects, RejectWithException(TypeError))
    case Returned(errors) =>
      if Truthy(errors) then Dispatch(effects, RejectWithMessages(ModalStateErrors(errors)))
      else Dispatch(effects, Reject(error))
  }

  /** The 400 branch (agent.ts:46-64): a string body is toasted first, only
      a GET navigates to the not-found page, and the call is rejected with
      the original error, the validation list or a TypeError. */
  function ClassifyBadRequest(error: AxiosError, r: ErrorResponse): (d: Dispatch)
    ensures r.data.Str? ==> |d.effects| >= 1 && d.effects[0] == Toast(r.data.s)
    ensures forall e :: e in d.effects ==> e == Navigate(NotFoundPath) || (r.data.Str? && e == Toast(r.data.s))
    ensures Navigate(NotFoundPath) in d.effects ==> r.httpMethod == "get"
    ensures !d.outcome.Resolve?
    ensures d.outcome.Reject? ==> d.outcome.error == error
    ensures d.outcome.RejectWithMessages? ==> r.data.Obj?
    ensures d.outcome.RejectWithException? ==> d.outcome.exception == TypeError
  {
    var toast := if r.data.Str? then [Toast(r.data.s)] else [];
    if r.httpMethod == "get" then
      match Get(r.data, Name("errors"))
      case ThrowsTypeError => Dispatch(toast, RejectWithException(TypeError))
      case Returned(errors) =>
        match HasOwnProperty(errors, "id")
        case ThrowsTypeError => Dispatch(toast, RejectWithException(TypeError))
        case Returned(hasId) =>
          ValidationStep(error, r, toast + if hasId then [Navigate(NotFoundPath)] else [])
    else
      ValidationStep(error, r, toast)
  }

  /** `headers[name]` as a JavaScript value: `undefined` for a header the
      response does not carry. */
  function HeaderValue(headers: map<string, string>, name: string): (v: Value)
    ensures v.Undefined? <==> name !in headers
    ensures v.Str? || v.Undefined?
    ensures v.Str? ==> v.s == headers[name]
  {
    if name in headers then Str(headers[name]) else Undefined
  }

  /** The 401 branch (agent.ts:65-72): two console lines, then, for the
      invalid-token challenge, a logout and the session-expired toast. A
      response without the challenge header throws a TypeError. */
  function ClassifyUnauthorized(error: AxiosError, r: ErrorResponse): (d: Dispatch)
    ensures |d.effects| >= 2
    ensures d.effects[..2] == [Log(Str("401")), Log(HeaderValue(r.headers, "www-authenticate"))]
    ensures d.outcome == Reject(error) || d.outcome == RejectWithException(TypeError)
    ensures d.outcome.RejectWithException? <==> "www-authenticate" !in r.headers
    ensures Logout in d.effects <==>
      "www-authenticate" in r.headers && InvalidTokenMarker <= r.headers["www-authenticate"]
  {
    var logs := [Log(Str("401")), Log(HeaderValue(r.headers, "www-authenticate"))];
    if "www-authenticate" !in r.headers then
      Dispatch(logs, RejectWithException(TypeError))  // undefined.startsWith
    else if InvalidTokenMarker <= r.headers["www-authenticate"] then
      Dispatch(logs + [Logout, Toast(SessionExpiredMessage)], Reject(error))
    else
      Dispatch(logs, Reject(error))
  }

  /** The rejected-response interceptor as a value: its effects in order and
      how the call settles. A failed call never resolves, and apart from the
      validation list and the handler's own exceptions it is rejected with
      the original error. */
  function Classify(error: AxiosError): (d: Dispatch)
    ensures !d.outcome.Resolve?
    ensures d.outcome.Reject? ==> d.outcome.error == error
    ensures d.outcome.RejectWithMessages? ==> error.response.Some? && error.response.value.status == 400
    ensures error.response.None? ==> d == Dispatch([], RejectWithException(TypeError))
  {
    if error.response.None? then
      Dispatch([], RejectWithException(TypeError))  // destructuring error.response!
    else
      var r := error.response.value;
      if r.status == 400 then ClassifyBadRequest(error, r)
      else if r.status == 401 then ClassifyUnauthorized(error, r)
      else if r.status == 404 then Dispatch([Navigate(NotFoundPath)], Reject(error))
      else if r.status == 500 then Dispatch([StoreServerError(r.data), Navigate(ServerErrorPath)], Reject(error))
      else Dispatch([], Reject(error))
  }

  predicate HasStatus(error: AxiosError, status: int)
  {
    error.response.Some? && error.response.value.status == status
  }

  lemma NotFound(error: AxiosError)
    requires HasStatus(error, 404)
    ensures Classify(error) == Dispatch([Navigate(NotFoundPath)], Reject(error))
  {
  }

  lemma ServerError(error: AxiosError)
    requires HasStatus(error, 500)
    ensures Classify(error) ==
      Dispatch([StoreServerError(error.response.value.data), Navigate(ServerErrorPath)], Reject(error))
  {
  }

  lemma OtherStatus(error: AxiosError)
    requires error.response.Some?
    requires error.response.value.status !in {400, 401, 404, 500}
    ensures Classify(error) == Dispatch([], Reject(error))
  {
  }

  /** 401: logout and the session-expired toast happen exactly when the
      `www-authenticate` header starts with the invalid-token marker, each at
      most once; without that header the handler itself throws. */
  lemma Unauthorized(error: AxiosError)
    requires HasStatus(error, 401)
    ensures var d, h := Classify(error), error.response.value.headers;
      && (Logout in d.effects <==> "www-authenticate" in h && InvalidTokenMarker <= h["www-authenticate"])
      && (Toast(SessionExpiredMessage) in d.effects <==> Logout in d.effects)
      && Occurrences(d.effects, Logout) <= 1
      && Occurrences(d.effects, Toast(SessionExpiredMessage)) <= 1
      && (d.outcome == RejectWithException(TypeError) <==> "www-authenticate" !in h)
      && (d.outcome != RejectWithException(TypeError) ==> d.outcome == Reject(error))
  {
  }

  /** 400 with an errors map: the call is rejected with the flattened
      message list, never with the original error; a GET whose errors name
      `id` first navigates to the not-found page. */
  lemma BadRequestWithErrors(error: AxiosError, props: seq<Property>)
    requires HasStatus(error, 400)
    requires error.response.value.data == Obj(props)
    requires Truthy(Lookup(props, "errors"))
    ensures var d, r := Classify(error), error.response.value;
      && (r.httpMethod == "get" ==>
            d.effects == if HasOwnProperty(Lookup(props, "errors"), "id") == Returned(true) then [Navigate(NotFoundPath)] else [])
      && (r.httpMethod != "get" ==> d.effects == [])
      && d.outcome == RejectWithMessages(ModalStateErrors(Lookup(props, "errors")))
  {
  }

  /** 400 with an object body whose `errors` is missing or falsy: nothing
      is shown and the call is rejected with the original error, except
      that on a GET a missing or `null` `errors` makes the `hasOwnProperty`
      call throw a TypeError. */
  lemma BadRequestWithoutErrors(error: AxiosError, props: seq<Property>)
    requires HasStatus(error, 400)
    requires error.response.value.data == Obj(props)
    requires !Truthy(Lookup(props, "errors"))
    ensures var errors, get := Lookup(props, "errors"), error.response.value.httpMethod == "get";
      && (!get ==> Classify(error) == Dispatch([], Reject(error)))
      && (get && (errors.Undefined? || errors.Null?) ==> Classify(error) == Dispatch([], RejectWithException(TypeError)))
      && (get && !errors.Undefined? && !errors.Null? ==> Classify(error) == Dispatch([], Reject(error)))
  {
  }

  /** 400 with a string body: the string is shown as a toast; on a GET,
      `data.errors` of a string is `undefined`, so reading `hasOwnProperty`
      of it throws a TypeError; otherwise the call is rejected with the
      original error. */
  lemma BadRequestWithStringBody(error: AxiosError, message: string)
    requires HasStatus(error, 400)
    requires error.response.value.data == Str(message)
    ensures Classify(error).effects == [Toast(message)]
    ensures error.response.value.httpMethod == "get" ==> Classify(error).outcome == RejectWithException(TypeError)
    ensures error.response.value.httpMethod != "get" ==> Classify(error).outcome == Reject(error)
  {
  }

  // ---------------------------------------------------------------------
  // The store the gateway reads and writes

  /** The fields of the client's stores that the gateway touches: the
      common store's token and server error, and whether a user is logged
      in. */
  class ClientStore {
    var token: Option<string>
    var serverError: Option<Value>
    var loggedIn: bool

    constructor (token: Option<string>)
      ensures this.token == token && serverError == None && loggedIn == token.Some?
    {
      this.token := token;
      serverError := None;
      loggedIn := token.Some?;
    }

    /** `commonStore.setServerError`. */
    method SetServerError(error: Value)
      modifies this
      ensures serverError == Some(error)
      ensures token == old(token) && loggedIn == old(loggedIn)
    {
      serverError := Some(error);
    }

    /** `userStore.logout`, as far as this model sees it: the session is
        cleared. */
    method ClearSession()
      modifies this
      ensures token == None && !loggedIn
      ensures serverError == old(serverError)
    {
      token := None;
      loggedIn := false;
    }

    /** The request interceptor: the same config object comes back, with
        the bearer header when the store holds a token. */
    method InterceptRequest(config: RequestConfig) returns (r: RequestConfig)
      modifies config
      ensures r == config
      ensures config.headers == AuthorizedHeaders(token, old(config.headers))
      ensures config.httpMethod == old(config.httpMethod) && config.url == old(config.url)
    {
      var token := this.token;
      if HasToken(token) {
        config.headers := map["Authorization" := "Bearer " + token.value];
      }
      return config;
    }

    /** The rejected-response interceptor. */
    method InterceptError(error: AxiosError) returns (effects: seq<Effect>, outcome: Outcome<Response>)
      modifies this
      ensures Dispatch(effects, outcome) == Classify(error)
      ensures serverError == if HasStatus(error, 500) then Some(error.response.value.data) else old(serverError)
      ensures Logout in effects ==> token == None && !loggedIn
      ensures Logout !in effects ==> token == old(token) && loggedIn == old(loggedIn)
    {
      if error.response.None? {
        return [], RejectWithException(TypeError);
      }
      var ErrorResponse(httpMethod, data, headers, status) := error.response.value;
      effects := [];
      if status == 400 {
        if data.Str? {
          effects := effects + [Toast(data.s)];
        }
        if httpMethod == "get" {
          var errors := Get(data, Name("errors"));
          if errors.ThrowsTypeError? {
            return effects, RejectWithException(TypeError);
          }
          var hasId := HasOwnProperty(errors.value, "id");
          if hasId.ThrowsTypeError? {
            return effects, RejectWithException(TypeError);
          }
          if hasId.value {
            effects := effects + [Navigate(NotFoundPath)];
          }
        }
        var errors := Get(data, Name("errors"));
        if errors.ThrowsTypeError? {
          return effects, RejectWithException(TypeError);
        }
        if Truthy(errors.value) {
          var messages := CollectModalStateErrors(errors.value);
          return effects, RejectWithMessages(messages);
        }
      } else if status == 401 {
        effects := effects + [Log(Str("401")), Log(HeaderValue(headers, "www-authenticate"))];
        if "www-authenticate" !in headers {
          return effects, RejectWithException(TypeError);
        }
        if InvalidTokenMarker <= headers["www-authenticate"] {
          ClearSession();
          effects := effects + [Logout];
          effects := effects + [Toast(SessionExpiredMessage)];
        }
      } else if status == 404 {
        effects := effects + [Navigate(NotFoundPath)];
      } else if status == 500 {
        SetServerError(data);
        effects := effects + [StoreServerError(data)];
        effects := effects + [Navigate(ServerErrorPath)];
      }
      return effects, Reject(error);
    }
  }
}
