/**
 * `UserJSONRenderer.render`: error data passes through to the base JSON
 * renderer; other data has a bytes token decoded to text in place and is
 * dumped as `{"user": data}`.
 */
module Renderers {
  import opened Wrappers
  import opened Values
  import Utf8
  import Exceptions

  /**
   * The renderer's output, before serialisation: the base renderer applied
   * to the data, or `json.dumps` applied to a document.
   */
  datatype Rendered = BaseRendered(data: map<string, Value>) | Dumped(document: Value)

  /** `token.decode("utf-8")` raising UnicodeDecodeError, or `json.dumps` raising TypeError. */
  datatype RenderError = UnicodeDecodeError | NotSerializable

  /** Whether the data takes the errors branch: its `errors` entry is present and truthy. */
  predicate HasErrors(items: map<string, Value>)
  {
    Truthy(Get(items, "errors"))
  }

  /**
   * The data after the success branch's token step: a bytes token replaced
   * by its UTF-8 text, anything else left as it is; None when the bytes are
   * not UTF-8.
   */
  function TokenDecoded(items: map<string, Value>): Option<map<string, Value>>
  {
    match Get(items, "token")
    case Bytes(bs) =>
      (match Utf8.Decode(bs)
       case None => None
       case Some(text) => Some(items["token" := Str(text)]))
    case _ => Some(items)
  }

  /** What `render` returns for data whose entries are `items`. */
  function RenderOf(items: map<string, Value>): Result<Rendered, RenderError>
  {
    if HasErrors(items) then Success(BaseRendered(items))
    else match TokenDecoded(items)
      case None => Failure(UnicodeDecodeError)
      case Some(decoded) =>
        var document := Dict(map["user" := Dict(decoded)]);
        if Serializable(document) then Success(Dumped(document)) else Failure(NotSerializable)
  }

  /** The caller's dictionary once `render` has returned or raised. */
  function ItemsAfterRender(items: map<string, Value>): map<string, Value>
  {
    if HasErrors(items) then items
    else match TokenDecoded(items)
      case None => items
      case Some(decoded) => decoded
  }

  /**
   * `render(data)`: the token is replaced in the caller's own dictionary
   * before the document is built, so the caller sees the decoded token even
   * when `json.dumps` then raises.
   */
  method Render(data: PyDict) returns (r: Result<Rendered, RenderError>)
    modifies data
    ensures r == RenderOf(old(data.items))
    ensures data.items == ItemsAfterRender(old(data.items))
  {
    var errors := Get(data.items, "errors");
    if Truthy(errors) {
      return Success(BaseRendered(data.items));
    }
    var token := Get(data.items, "token");
    if token.Bytes? {
      var text := Utf8.Decode(token.bytes);
      if text.None? {
        return Failure(UnicodeDecodeError);
      }
      data.items := data.items["token" := Str(text.value)];
    }
    var document := Dict(map["user" := Dict(data.items)]);
    if !Serializable(document) {
      return Failure(NotSerializable);
    }
    r := Success(Dumped(document));
  }

  /** Data with truthy errors goes to the base renderer unchanged. */
  lemma ErrorsPassThrough(items: map<string, Value>)
    requires HasErrors(items)
    ensures RenderOf(items) == Success(BaseRendered(items))
    ensures ItemsAfterRender(items) == items
  {
  }

  /** An absent, None or empty `errors` entry takes the success path. */
  lemma EmptyErrorsTakeSuccessPath(items: map<string, Value>)
    requires "errors" !in items
      || items["errors"] in {Null, Bool(false), Int(0), Str([]), Bytes([]), List([]), Dict(map[])}
    ensures !HasErrors(items)
    ensures RenderOf(items) != Success(BaseRendered(items))
    ensures RenderOf(items).Success? ==> RenderOf(items).value.Dumped?
  {
  }

  /**
   * The token step touches only `token`: a text or missing token leaves the
   * data as it is, and a bytes token becomes its UTF-8 text.
   */
  lemma TokenStepOnlyChangesToken(items: map<string, Value>)
    ensures !Get(items, "token").Bytes? ==> TokenDecoded(items) == Some(items)
    ensures Get(items, "token").Bytes? ==>
      match Utf8.Decode(Get(items, "token").bytes)
      case None => TokenDecoded(items).None?
      case Some(text) =>
        TokenDecoded(items).Some? && TokenDecoded(items).value.Keys == items.Keys
        && TokenDecoded(items).value["token"] == Str(text)
        && forall k :: k in items && k != "token" ==> TokenDecoded(items).value[k] == items[k]
  {
  }

  /**
   * A successful render on the success path dumps `{"user": data}` with
   * the data as the caller now holds it, and its token, if any, as text.
   */
  lemma SuccessDocument(items: map<string, Value>)
    requires !HasErrors(items) && RenderOf(items).Success?
    ensures RenderOf(items).value == Dumped(Dict(map["user" := Dict(ItemsAfterRender(items))]))
    ensures "token" in ItemsAfterRender(items) ==> !ItemsAfterRender(items)["token"].Bytes?
  {
  }

  /**
   * A token given as the UTF-8 bytes of some text is rendered as that text,
   * provided nothing else in the data is bytes.
   */
  lemma BytesTokenRenderedAsText(items: map<string, Value>, text: string)
    requires !HasErrors(items)
    requires "token" in items && items["token"] == Bytes(Utf8.Encode(text))
    requires forall k :: k in items && k != "token" ==> Serializable(items[k])
    ensures RenderOf(items) == Success(Dumped(Dict(map["user" := Dict(items["token" := Str(text)])])))
  {
    Utf8.DecodeEncode(text);
    var decoded := items["token" := Str(text)];
    assert TokenDecoded(items) == Some(decoded);
    assert Serializable(Dict(decoded)) by {
      forall k | k in decoded ensures Serializable(decoded[k]) {
        if k != "token" {
          assert decoded[k] == items[k];
        }
      }
    }
    var document := Dict(map["user" := Dict(decoded)]);
    assert Serializable(document) by {
      forall k | k in document.entries ensures Serializable(document.entries[k]) {
        assert k == "user";
      }
    }
  }

  /**
   * An error envelope built by the exception handler passes through only when
   * the wrapped data is truthy; an empty one is dumped as a user document.
   */
  lemma EnvelopeRendering(data: Value)
    ensures var items := Exceptions.ErrorsEnvelope(data).entries;
      (RenderOf(items).Success? && RenderOf(items).value.BaseRendered?) <==> Truthy(data)
    ensures var items := Exceptions.ErrorsEnvelope(data).entries;
      && (Truthy(data) ==> RenderOf(items) == Success(BaseRendered(items)))
      && (!Truthy(data) && Serializable(data) ==>
            RenderOf(items) == Success(Dumped(Dict(map["user" := Dict(items)]))))
  {
    var items := Exceptions.ErrorsEnvelope(data).entries;
    assert Get(items, "errors") == data;
    if !Truthy(data) && Serializable(data) {
      assert Get(items, "token") == Null;
      var document := Dict(map["user" := Dict(items)]);
      assert Serializable(Dict(items)) by {
        forall k | k in items ensures Serializable(items[k]) {
          assert k == "errors";
        }
      }
      assert Serializable(document) by {
        forall k | k in document.entries ensures Serializable(document.entries[k]) {
          assert k == "user";
        }
      }
    }
  }
}
