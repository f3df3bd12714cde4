/** Concrete calls through the gateway: a validation failure, a GET of an
    activity that does not exist, an expired session. */
module GatewayScenarios {
  import opened Wrappers
  import opened JsValues
  import opened Agent
  import Requests
  import Activities

  function Required(): Value { Arr([Str("required")]) }

  /** The errors object of a two-field validation failure flattens to one
      message per field, in field order. */
  lemma TitleAndDateMessages(title: Value, date: Value)
    requires title.Arr? && date.Arr?
    ensures ModalStateErrors(Obj([Property("title", title), Property("date", date)]))
         == title.items + date.items
  {
    var props := [Property("title", title), Property("date", date)];
    ValidationMessagesInKeyOrder(props);
    assert seq(|props|, i requires 0 <= i < |props| => props[i].value) == [title, date];
    assert [title, date][..1] == [title];
    assert [title][..0] == [];
    assert Flat([title]) == title.items;
  }

  /** `{"errors": {"title": ["required"], "date": ["required"]}}` on a POST
      rejects with `["required", "required"]` and causes no effect. */
  lemma ValidationExample(headers: map<string, string>)
    ensures var body := Obj([Property("errors", Obj([Property("title", Required()), Property("date", Required())]))]);
      Classify(AxiosError(Some(ErrorResponse("post", body, headers, 400))))
        == Dispatch([], RejectWithMessages([Str("required"), Str("required")]))
  {
    var props := [Property("title", Required()), Property("date", Required())];
    var body := Obj([Property("errors", Obj(props))]);
    var error := AxiosError(Some(ErrorResponse("post", body, headers, 400)));
    var messages := [Str("required"), Str("required")];
    TitleAndDateMessages(Required(), Required());
    assert IsFirstKey(body.props, "errors", 0);
    assert Get(body, Name("errors")) == Returned(Obj(props));
    assert ValidationStep(error, error.response.value, []) == Dispatch([], RejectWithMessages(messages));
  }

  /** `{"errors": {"title": ["x"], "date": null}}`: the falsy entry is
      skipped and the rejection value is `["x"]`. */
  lemma MixedErrors()
    ensures ModalStateErrors(Obj([Property("title", Arr([Str("x")])), Property("date", Null)])) == [Str("x")]
  {
    var props := [Property("title", Arr([Str("x")])), Property("date", Null)];
    ValidationMessages(props);
    var values := seq(|props|, i requires 0 <= i < |props| => props[i].value);
    assert values == [Arr([Str("x")]), Null];
    assert values[1..] == [Null];
    assert [Null][1..] == [];
    assert TruthyOnly(values) == [Arr([Str("x")])];
  }

  /** A 400 answering `Activities.details(id)` whose errors name `id`
      navigates to the not-found page and rejects with the id messages. */
  lemma DetailsOfMissingActivity(id: string, messages: seq<Value>, headers: map<string, string>)
    ensures var request := Activities.Details(id);
      var body := Obj([Property("errors", Obj([Property("id", Arr(messages))]))]);
      Classify(AxiosError(Some(ErrorResponse(Requests.MethodName(request.verb), body, headers, 400))))
        == Dispatch([Navigate(NotFoundPath)], RejectWithMessages(messages))
  {
    var props := [Property("id", Arr(messages))];
    var body := Obj([Property("errors", Obj(props))]);
    var error := AxiosError(Some(ErrorResponse("get", body, headers, 400)));
    assert Requests.MethodName(Activities.Details(id).verb) == "get";
    assert ModalStateErrors(Obj(props)) == messages by {
      ValidationMessagesInKeyOrder(props);
      assert seq(|props|, i requires 0 <= i < |props| => props[i].value) == [Arr(messages)];
      assert Flat([Arr(messages)]) == messages;
    }
    assert IsFirstKey(body.props, "errors", 0);
    assert Get(body, Name("errors")) == Returned(Obj(props));
    assert HasOwnProperty(Obj(props), "id") == Returned(true) by {
      assert props[0].key == "id";
    }
    assert ValidationStep(error, error.response.value, [Navigate(NotFoundPath)])
        == Dispatch([Navigate(NotFoundPath)], RejectWithMessages(messages));
  }

  /** A 401 carrying the invalid-token challenge logs out once and shows the
      session-expired toast once, after the two console lines. */
  lemma ExpiredSession(challenge: string)
    requires InvalidTokenMarker <= challenge
    ensures var e := AxiosError(Some(ErrorResponse("get", Null, map["www-authenticate" := challenge], 401)));
      Classify(e) == Dispatch([Log(Str("401")), Log(Str(challenge)), Logout, Toast(SessionExpiredMessage)], Reject(e))
  {
  }
}
