/**
 * The request `apiCall` sends: a form body whose `_method` entry carries the
 * logical verb, followed by the session token when one is held and by the
 * entries of the `data` object. The URL, `fetch` and the JSON reply are I/O
 * and stay outside the model.
 */
module Api {
  import opened Base
  import opened JsText

  /** A value of the `data` object handed to `apiCall`. An object value is
      carried as the JSON text `JSON.stringify` gives it. */
  datatype Value = Text(s: string) | Number(n: int) | Null | Undefined | Object(json: string)

  /** What `FormData.append` stores: an object's JSON text, `String(v)` otherwise. */
  function FormText(v: Value): string {
    match v
    case Text(s) => s
    case Number(n) => IntToDecimal(n)
    case Null => "null"
    case Undefined => "undefined"
    case Object(json) => json
  }

  /** One form entry: name and value. */
  type Entry = (string, string)

  /** A call of `apiCall`: the endpoint (`apiPath`) and the form body. */
  datatype ApiRequest = ApiRequest(endpoint: string, body: seq<Entry>)

  /** `if (this.sessionToken)`: a token is sent only when it is a non-empty string. */
  predicate HasToken(token: Option<string>) {
    token.Some? && token.value != ""
  }

  function DataEntries(data: seq<(string, Value)>): seq<Entry> {
    seq(|data|, i requires 0 <= i < |data| => (data[i].0, FormText(data[i].1)))
  }

  /** The form body of a request: `_method`, then `sessionToken` if a token
      is held, then the data entries in key order. */
  function RequestBody(verb: string, token: Option<string>, data: Option<seq<(string, Value)>>): (body: seq<Entry>)
    ensures |body| == 1 + (if HasToken(token) then 1 else 0) + (if data.Some? then |data.value| else 0)
    ensures body[0] == ("_method", verb)
  {
    [("_method", verb)]
    + (if HasToken(token) then [("sessionToken", token.value)] else [])
    + (match data case None => [] case Some(d) => DataEntries(d))
  }

  /** The request `apiCall(endpoint, verb, data)` issues while `token` is held. */
  function Request(endpoint: string, verb: string, token: Option<string>, data: Option<seq<(string, Value)>>): ApiRequest {
    ApiRequest(endpoint, RequestBody(verb, token, data))
  }

  /** The value a reader of the form sees under `name`: the first entry with
      that name. */
  function Lookup(body: seq<Entry>, name: string): Option<string> {
    if body == [] then None
    else if body[0].0 == name then Some(body[0].1)
    else Lookup(body[1..], name)
  }

  function FirstValue(data: seq<(string, Value)>, name: string): Option<Value> {
    if data == [] then None
    else if data[0].0 == name then Some(data[0].1)
    else FirstValue(data[1..], name)
  }

  lemma {:induction false} LookupAppend(a: seq<Entry>, b: seq<Entry>, name: string)
    ensures Lookup(a + b, name) == if Lookup(a, name).Some? then Lookup(a, name) else Lookup(b, name)
    decreases |a|
  {
    if a == [] {
      assert a + b == b;
    } else {
      assert (a + b)[0] == a[0];
      assert (a + b)[1..] == a[1..] + b;
      LookupAppend(a[1..], b, name);
    }
  }

  lemma {:induction false} LookupDataEntries(data: seq<(string, Value)>, name: string)
    ensures Lookup(DataEntries(data), name)
         == match FirstValue(data, name) case None => None case Some(v) => Some(FormText(v))
    decreases |data|
  {
    if data != [] {
      assert DataEntries(data)[1..] == DataEntries(data[1..]);
      LookupDataEntries(data[1..], name);
    }
  }

  /** Reading the body back by name gives the verb, the token exactly when one
      is held, and each data value, provided the data does not reuse the two
      reserved names. */
  lemma ReadRequestBody(verb: string, token: Option<string>, data: seq<(string, Value)>, name: string)
    requires FirstValue(data, "_method").None? && FirstValue(data, "sessionToken").None?
    ensures Lookup(RequestBody(verb, token, Some(data)), "_method") == Some(verb)
    ensures Lookup(RequestBody(verb, token, Some(data)), "sessionToken")
         == if HasToken(token) then token else None
    ensures name != "_method" && name != "sessionToken" ==>
              (Lookup(RequestBody(verb, token, Some(data)), name)
               == match FirstValue(data, name) case None => None case Some(v) => Some(FormText(v)))
  {
    var head: seq<Entry> := [("_method", verb)];
    var tok: seq<Entry> := if HasToken(token) then [("sessionToken", token.value)] else [];
    var rest := DataEntries(data);
    assert RequestBody(verb, token, Some(data)) == head + (tok + rest);
    LookupAppend(head, tok + rest, "_method");
    LookupAppend(head, tok + rest, "sessionToken");
    LookupAppend(tok, rest, "sessionToken");
    LookupDataEntries(data, "sessionToken");
    LookupAppend(head, tok + rest, name);
    LookupAppend(tok, rest, name);
    LookupDataEntries(data, name);
  }

  /** The body construction of `apiCall`, appending one entry per data key. */
  method BuildRequestBody(verb: string, token: Option<string>, data: Option<seq<(string, Value)>>)
    returns (fd: seq<Entry>)
    ensures fd == RequestBody(verb, token, data)
  {
    fd := [("_method", verb)];
    if HasToken(token) {
      fd := fd + [("sessionToken", token.value)];
    }
    if data.Some? {
      var d := data.value;
      var prefix := fd;
      var i := 0;
      while i < |d|
        invariant 0 <= i <= |d|
        invariant fd == prefix + DataEntries(d[..i])
      {
        assert DataEntries(d[..i + 1]) == DataEntries(d[..i]) + [(d[i].0, FormText(d[i].1))];
        fd := fd + [(d[i].0, FormText(d[i].1))];
        i := i + 1;
      }
      assert d[..|d|] == d;
    }
  }
}
