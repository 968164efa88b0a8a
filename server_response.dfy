/** The reply envelope of the wire protocol (src/protocol/server_response.rs), tagged by "status".
    An absent id or code is left out of the serialised object rather than written as null. */
module ServerResponses {
  import opened Wrappers
  import opened Json

  datatype ServerResponse =
    | Success(id: Option<string>, data: Value)
    | Error(id: Option<string>, message: string, code: Option<string>)

  /** `ServerResponse::success`. */
  function MakeSuccess(id: Option<string>, data: Value): (r: ServerResponse)
    ensures r.Success? && r.id == id && r.data == data
  {
    Success(id, data)
  }

  /** `ServerResponse::error`: no code. */
  function MakeError(id: Option<string>, message: string): (r: ServerResponse)
    ensures r.Error? && r.id == id && r.message == message && r.code.None?
  {
    Error(id, message, None)
  }

  /** `ServerResponse::error_with_code`. */
  function MakeErrorWithCode(id: Option<string>, message: string, code: string): (r: ServerResponse)
    ensures r.Error? && r.id == id && r.message == message && r.code == Some(code)
  {
    Error(id, message, Some(code))
  }

  /** A present optional string as a one-field list, an absent one as nothing. */
  function OptionalField(key: string, o: Option<string>): (fields: seq<(string, Value)>)
    ensures o.None? ==> fields == []
    ensures o.Some? ==> fields == [(key, Str(o.value))]
  {
    match o
    case None => []
    case Some(s) => [(key, Str(s))]
  }

  function StatusTag(r: ServerResponse): string {
    if r.Success? then "success" else "error"
  }

  /** The serialised form: the status tag first, then the variant's fields in declaration
      order, skipping an absent id or code. */
  function ToJson(r: ServerResponse): (v: Value)
    ensures v.Obj? && |v.fields| >= 2 && v.fields[0] == ("status", Str(StatusTag(r)))
  {
    match r
    case Success(id, data) =>
      Obj([("status", Str("success"))] + OptionalField("id", id) + [("data", data)])
    case Error(id, message, code) =>
      Obj([("status", Str("error"))] + OptionalField("id", id) + [("message", Str(message))]
          + OptionalField("code", code))
  }

  /** What a reader of a serialised success sees: the tag, the id exactly when there is one, the
      data, and neither message nor code. */
  lemma {:induction false} SuccessOmissionRules(id: Option<string>, data: Value)
    ensures var f := ToJson(Success(id, data)).fields;
      Lookup(f, "status") == Some(Str("success"))
      && (id.None? ==> Lookup(f, "id").None?)
      && (id.Some? ==> Lookup(f, "id") == Some(Str(id.value)))
      && Lookup(f, "data") == Some(data)
      && Lookup(f, "message").None? && Lookup(f, "code").None?
  {
    var f := ToJson(Success(id, data)).fields;
    LookupFirst(f, "status", 0);
    if id.Some? {
      assert f == [("status", Str("success")), ("id", Str(id.value)), ("data", data)];
      LookupFirst(f, "id", 1);
      LookupFirst(f, "data", 2);
    } else {
      assert f == [("status", Str("success")), ("data", data)];
      LookupFirst(f, "data", 1);
    }
  }

  /** The fields of a serialised error around its message. */
  function ErrorHead(id: Option<string>): seq<(string, Value)> {
    [("status", Str("error"))] + OptionalField("id", id)
  }

  function ErrorTail(message: string, code: Option<string>): seq<(string, Value)> {
    [("message", Str(message))] + OptionalField("code", code)
  }

  lemma ErrorSplits(id: Option<string>, message: string, code: Option<string>)
    ensures ToJson(Error(id, message, code)).fields == ErrorHead(id) + ErrorTail(message, code)
  {
  }

  lemma {:induction false} ErrorHeadLookups(id: Option<string>, message: string, code: Option<string>)
    ensures Lookup(ToJson(Error(id, message, code)).fields, "status") == Some(Str("error"))
    ensures id.None? ==> Lookup(ToJson(Error(id, message, code)).fields, "id").None?
    ensures id.Some? ==> Lookup(ToJson(Error(id, message, code)).fields, "id") == Some(Str(id.value))
  {
    var f := ToJson(Error(id, message, code)).fields;
    LookupFirst(f, "status", 0);
    if id.Some? {
      LookupFirst(f, "id", 1);
    } else {
      assert forall j :: 0 <= j < |f| ==> f[j].0 != "id";
    }
  }

  lemma {:induction false} ErrorMessageLookup(id: Option<string>, message: string, code: Option<string>)
    ensures Lookup(ToJson(Error(id, message, code)).fields, "message") == Some(Str(message))
  {
    ErrorSplits(id, message, code);
    LookupInTail(ErrorHead(id), ErrorTail(message, code), "message");
    LookupFirst(ErrorTail(message, code), "message", 0);
  }

  lemma {:induction false} ErrorCodeLookup(id: Option<string>, message: string, code: Option<string>)
    ensures code.None? ==> Lookup(ToJson(Error(id, message, code)).fields, "code").None?
    ensures code.Some? ==> Lookup(ToJson(Error(id, message, code)).fields, "code") == Some(Str(code.value))
  {
    var tail := ErrorTail(message, code);
    ErrorSplits(id, message, code);
    LookupInTail(ErrorHead(id), tail, "code");
    if code.Some? {
      LookupFirst(tail, "code", 1);
    } else {
      assert forall j :: 0 <= j < |tail| ==> tail[j].0 != "code";
    }
  }

  lemma ErrorDataAbsent(id: Option<string>, message: string, code: Option<string>)
    ensures Lookup(ToJson(Error(id, message, code)).fields, "data").None?
  {
    var f := ToJson(Error(id, message, code)).fields;
    assert forall j :: 0 <= j < |f| ==> f[j].0 != "data";
  }

  /** What a reader of a serialised error sees: the tag, the id exactly when there is one, the
      message, the code exactly when there is one, and no data. */
  lemma ErrorOmissionRules(id: Option<string>, message: string, code: Option<string>)
    ensures var f := ToJson(Error(id, message, code)).fields;
      Lookup(f, "status") == Some(Str("error"))
      && (id.None? ==> Lookup(f, "id").None?)
      && (id.Some? ==> Lookup(f, "id") == Some(Str(id.value)))
      && Lookup(f, "message") == Some(Str(message))
      && (code.None? ==> Lookup(f, "code").None?)
      && (code.Some? ==> Lookup(f, "code") == Some(Str(code.value)))
      && Lookup(f, "data").None?
  {
    ErrorHeadLookups(id, message, code);
    ErrorMessageLookup(id, message, code);
    ErrorCodeLookup(id, message, code);
    ErrorDataAbsent(id, message, code);
  }

  /** An optional string field read back: absent means none. */
  function ReadOptional(fields: seq<(string, Value)>, key: string): Option<Option<string>> {
    match Lookup(fields, key)
    case None => Some(None)
    case Some(Str(s)) => Some(Some(s))
    case Some(_) => None
  }

  /** Reading an envelope back from its JSON object. */
  function FromJson(v: Value): Option<ServerResponse> {
    if !v.Obj? then None
    else
      var id := ReadOptional(v.fields, "id");
      if id.None? then None
      else
        match Lookup(v.fields, "status")
        case Some(Str(tag)) =>
          if tag == "success" then
            match Lookup(v.fields, "data")
            case Some(data) => Some(Success(id.value, data))
            case None => None
          else if tag == "error" then
            match (Lookup(v.fields, "message"), ReadOptional(v.fields, "code"))
            case (Some(Str(message)), Some(code)) => Some(Error(id.value, message, code))
            case _ => None
          else None
        case _ => None
  }

  lemma {:induction false} SuccessRoundTrip(id: Option<string>, data: Value)
    ensures FromJson(ToJson(Success(id, data))) == Some(Success(id, data))
  {
    var f := ToJson(Success(id, data)).fields;
    SuccessOmissionRules(id, data);
    assert ReadOptional(f, "id") == Some(id);
  }

  lemma {:induction false} ErrorRoundTrip(id: Option<string>, message: string, code: Option<string>)
    ensures FromJson(ToJson(Error(id, message, code))) == Some(Error(id, message, code))
  {
    var f := ToJson(Error(id, message, code)).fields;
    ErrorOmissionRules(id, message, code);
    assert ReadOptional(f, "id") == Some(id);
    assert ReadOptional(f, "code") == Some(code);
  }

  /** The serialised form loses nothing: reading it back gives the same envelope. */
  lemma {:induction false} FromJsonToJson(r: ServerResponse)
    ensures FromJson(ToJson(r)) == Some(r)
  {
    match r
    case Success(id, data) => SuccessRoundTrip(id, data);
    case Error(id, message, code) => ErrorRoundTrip(id, message, code);
  }
}
