/**
 * One session against each server, from an empty dictionary: the sample
 * PUT of `{"key":"a","value":5}`, GETs of "a" and of a missing key, a PUT
 * without `value`, a DELETE, and a GET without a query string.
 */
module Scenarios {
  import opened Wrappers
  import opened Strings
  import opened Decimal
  import opened JsonModel
  import opened Response
  import R = RustServer
  import P = PythonServer
  import Agreement

  const SampleHead: string := "PUT / HTTP/1.1"
  const SampleInner: string := "{\"key\":\"a\",\"value\":5"
  const NoValueInner: string := "{\"key\":\"a\""
  const HttpTail: string := "HTTP/1.1\r\n\r\n"
  const Delete: string := "DELETE / HTTP/1.1\r\n\r\n"
  const GetNoQuery: string := "GET / HTTP/1.1\r\n\r\n"

  /** The request `GET /?key=<key> HTTP/1.1` with its blank line. */
  function GetRequest(key: string): string {
    "GET /?key=" + key + " " + HttpTail
  }

  /** Both servers read `key` back out of `GetRequest(key)`, whatever trails it. */
  lemma {:induction false} GetRequestKey(key: string, pad: string)
    requires '?' !in key && ' ' !in key && '=' !in key
    ensures StartsWith(GetRequest(key) + pad, "GET")
    ensures R.QueryKey(GetRequest(key) + pad) == key
    ensures P.QueryKey(GetRequest(key) + pad) == Some(key)
  {
    var request := GetRequest(key) + pad;
    assert request == "GET /" + "?" + "key" + "=" + key + " " + (HttpTail + pad);
    assert request[..3] == "GET";
    Agreement.SimpleQuery("GET /", "key", key, HttpTail + pad);
  }

  /** The sample keys are plain. */
  lemma SampleKeysPlain()
    ensures '?' !in "a" && ' ' !in "a" && '=' !in "a"
    ensures '?' !in "missing" && ' ' !in "missing" && '=' !in "missing"
  {
  }

  lemma ShowFive()
    ensures ShowInt(5) == "5"
  {
  }

  /** The GET answer for a key that is not stored. */
  lemma SentinelAnswer(lib: R.Library)
    ensures "GET result: " + R.Debug(R.Sentinel, lib) == "GET result: String(" + lib.debugString("NULL") + ")"
  {
    var x := lib.debugString("NULL");
    assert "GET result: " + ("String(" + x + ")") == ("GET result: " + "String(") + x + ")";
    assert "GET result: " + "String(" == "GET result: String(";
  }

  /** The GET answer for the stored integer 5. */
  lemma FiveAnswer(lib: R.Library)
    ensures "GET result: " + R.Debug(R.Integer(5), lib) == "GET result: Integer(5)"
  {
    ShowFive();
  }

  /** The DELETE request has neither prefix. */
  lemma DeleteUnknown(pad: string)
    ensures !StartsWith(Delete + pad, "PUT") && !StartsWith(Delete + pad, "GET")
  {
    assert (Delete + pad)[..3] == "DEL";
  }

  /** The GET without a query string has no '?' in its head line. */
  lemma NoQueryShape()
    ensures StartsWith(GetNoQuery, "GET") && '?' !in GetNoQuery
  {
  }

  /** The two sample object texts hold no carriage return, no early '}', and start with '{'. */
  lemma SampleObjectsPlain()
    ensures '\r' !in SampleHead && StartsWith(SampleHead, "PUT")
    ensures '\r' !in SampleInner && '}' !in SampleInner && (SampleInner + "}")[0] == '{'
    ensures '\r' !in NoValueInner && '}' !in NoValueInner && (NoValueInner + "}")[0] == '{'
  {
  }

  /** The sample head's first blank line is the separator after it. */
  lemma SampleHeadSeparated()
    ensures StartsWith(SampleHead, "PUT") && Find(SampleHead + R.Separator, R.Separator) == Some(|SampleHead|)
  {
    SampleObjectsPlain();
    FirstCharAbsent(SampleHead, R.Separator);
  }

  /** The sample PUT stores `Integer(5)` under "a" on the Rust server, whatever trails it. */
  lemma RustPutRoute(lib: R.Library, pad: string)
    requires lib.fromStr(SampleInner + "}") == Some(Object(map["key" := Str("a"), "value" := Number(R.PosInt(5))]))
    ensures R.Route(SampleHead + R.Separator + SampleInner + "}" + pad, lib) == R.DoPut("a", R.Integer(5))
  {
    SampleObjectsPlain();
    SampleHeadSeparated();
    assert '\r' !in SampleInner + "}";
    NoFirstCharNoneBefore(SampleInner + "}", R.Separator, |SampleInner| + 1);
    R.TrailingBytesIgnored(SampleHead, SampleInner, pad, lib);
    R.SampleObjectStored();
  }

  /** The PUT without `value` gets "Invalid JSON" on the Rust server, whatever trails it. */
  lemma RustNoValueRoute(lib: R.Library, pad: string)
    requires lib.fromStr(NoValueInner + "}") == Some(Object(map["key" := Str("a")]))
    ensures R.Route(SampleHead + R.Separator + NoValueInner + "}" + pad, lib) == R.Reply(BadRequest, "Invalid JSON")
  {
    SampleObjectsPlain();
    SampleHeadSeparated();
    assert '\r' !in NoValueInner + "}";
    NoFirstCharNoneBefore(NoValueInner + "}", R.Separator, |NoValueInner| + 1);
    R.TrailingBytesIgnored(SampleHead, NoValueInner, pad, lib);
  }

  /** A GET of a plain key looks that key up on the Rust server, whatever trails it. */
  lemma RustGetRoute(key: string, lib: R.Library, pad: string)
    requires '?' !in key && ' ' !in key && '=' !in key
    ensures R.Route(GetRequest(key) + pad, lib) == R.DoGet(key)
  {
    GetRequestKey(key, pad);
    R.GetAnswered(GetRequest(key) + pad, lib);
  }

  /** The DELETE is refused by the Rust server, whatever trails it. */
  lemma RustDeleteRoute(lib: R.Library, pad: string)
    ensures R.Route(Delete + pad, lib) == R.Reply(BadRequest, "Invalid request")
  {
    DeleteUnknown(pad);
    R.UnknownRequest(Delete + pad, lib);
  }

  /**
   * The Rust server, where each request arrives with the rest of its own
   * 1024-byte read buffer (`pads[i]` for the i-th request) behind it.
   */
  method RustSession(lib: R.Library, pads: seq<string>)
    returns (put: Option<string>, get: Option<string>, missing: Option<string>,
             noValue: Option<string>, deleted: Option<string>)
    requires |pads| == 5
    requires lib.fromStr(SampleInner + "}") == Some(Object(map["key" := Str("a"), "value" := Number(R.PosInt(5))]))
    requires lib.fromStr(NoValueInner + "}") == Some(Object(map["key" := Str("a")]))
    ensures put == Some(Format(Ok, "PUT successful"))
    ensures get == Some(Format(Ok, "GET result: Integer(5)"))
    ensures missing == Some(Format(Ok, "GET result: String(" + lib.debugString("NULL") + ")"))
    ensures noValue == Some(Format(BadRequest, "Invalid JSON"))
    ensures deleted == Some(Format(BadRequest, "Invalid request"))
  {
    RustPutRoute(lib, pads[0]);
    SampleKeysPlain();
    RustGetRoute("a", lib, pads[1]);
    RustGetRoute("missing", lib, pads[2]);
    RustNoValueRoute(lib, pads[3]);
    RustDeleteRoute(lib, pads[4]);
    FiveAnswer(lib);
    SentinelAnswer(lib);
    var dictionary := new R.Dictionary();
    put := R.HandleClient(dictionary, SampleHead + R.Separator + SampleInner + "}" + pads[0], lib);
    get := R.HandleClient(dictionary, GetRequest("a") + pads[1], lib);
    missing := R.HandleClient(dictionary, GetRequest("missing") + pads[2], lib);
    noValue := R.HandleClient(dictionary, SampleHead + R.Separator + NoValueInner + "}" + pads[3], lib);
    deleted := R.HandleClient(dictionary, Delete + pads[4], lib);
  }

  /** A GET without a query string: the Rust server looks up the empty key. */
  method RustNoQuery(lib: R.Library) returns (response: Option<string>)
    ensures response == Some(Format(Ok, "GET result: String(" + lib.debugString("NULL") + ")"))
  {
    var dictionary := new R.Dictionary();
    NoQueryShape();
    R.GetWithoutQuery(GetNoQuery, lib);
    assert R.Route(GetNoQuery, lib) == R.DoGet("");
    assert dictionary.Get("") == R.Sentinel;
    response := R.HandleClient(dictionary, GetNoQuery, lib);
    SentinelAnswer(lib);
  }

  /** The sample PUT stores 5 under "a" on the Python server. */
  lemma PythonPutRoute(lib: P.Library)
    requires lib.loads(SampleInner + "}") == Some(Object(map["key" := Str("a"), "value" := Number(P.PyInt(5))]))
    ensures P.Route(SampleHead + P.Separator + (SampleInner + "}"), lib) == P.DoPut(Str("a"), Number(P.PyInt(5)))
  {
    SampleObjectsPlain();
    P.WholeBodyDecoded(SampleHead, SampleInner + "}", lib);
  }

  /** The PUT without `value` raises on the Python server. */
  lemma PythonNoValueRoute(lib: P.Library)
    requires lib.loads(NoValueInner + "}") == Some(Object(map["key" := Str("a")]))
    ensures P.Route(SampleHead + P.Separator + (NoValueInner + "}"), lib) == P.Raise
  {
    SampleObjectsPlain();
    P.WholeBodyDecoded(SampleHead, NoValueInner + "}", lib);
  }

  /** A GET of a plain key looks that key up on the Python server. */
  lemma PythonGetRoute(key: string, lib: P.Library)
    requires '?' !in key && ' ' !in key && '=' !in key
    ensures P.Route(GetRequest(key), lib) == P.DoGet(key)
  {
    GetRequestKey(key, "");
    assert GetRequest(key) + "" == GetRequest(key);
    P.GetAnswered(GetRequest(key), lib);
  }

  /** The DELETE is refused, and the GET without a query raises, on the Python server. */
  lemma PythonOtherRoutes(lib: P.Library)
    ensures P.Route(Delete, lib) == P.Reply(BadRequest, "Invalid request")
    ensures P.Route(GetNoQuery, lib) == P.Raise
  {
    DeleteUnknown("");
    assert Delete + "" == Delete;
    P.UnknownRequest(Delete, lib);
    NoQueryShape();
    P.GetAnswered(GetNoQuery, lib);
  }

  /** The Python server, which receives exactly the bytes sent. */
  method PythonSession(lib: P.Library)
    returns (put: Option<string>, get: Option<string>, missing: Option<string>,
             noValue: Option<string>, deleted: Option<string>, noQuery: Option<string>)
    requires lib.loads(SampleInner + "}") == Some(Object(map["key" := Str("a"), "value" := Number(P.PyInt(5))]))
    requires lib.loads(NoValueInner + "}") == Some(Object(map["key" := Str("a")]))
    ensures put == Some(Format(Ok, "PUT successful"))
    ensures get == Some(Format(Ok, "GET result: 5"))
    ensures missing == Some(Format(Ok, "GET result: NULL"))
    ensures noValue == None
    ensures deleted == Some(Format(BadRequest, "Invalid request"))
    ensures noQuery == None
  {
    var server := new P.Server();
    put, get, missing := PythonStoreAndLoad(server, lib);
    noValue, deleted, noQuery := PythonRefusals(server, lib);
  }

  /** The sample PUT on an empty Python dictionary, then the reads of "a" and of a missing key. */
  method PythonStoreAndLoad(server: P.Server, lib: P.Library)
    returns (put: Option<string>, get: Option<string>, missing: Option<string>)
    requires server.dictionary == map[]
    requires lib.loads(SampleInner + "}") == Some(Object(map["key" := Str("a"), "value" := Number(P.PyInt(5))]))
    modifies server
    ensures server.dictionary == map[Str("a") := Number(P.PyInt(5))]
    ensures put == Some(Format(Ok, "PUT successful"))
    ensures get == Some(Format(Ok, "GET result: 5"))
    ensures missing == Some(Format(Ok, "GET result: NULL"))
  {
    PythonPutRoute(lib);
    put := server.HandleClient(SampleHead + P.Separator + (SampleInner + "}"), lib);
    SampleKeysPlain();
    ShowFive();
    assert server.Get("a") == Number(P.PyInt(5)) && P.PyStr(Number(P.PyInt(5)), lib) == "5";
    assert "GET result: " + "5" == "GET result: 5";
    get := PythonGet(server, "a", lib);
    assert Str("missing") !in server.dictionary;
    assert server.Get("missing") == P.Sentinel && P.PyStr(P.Sentinel, lib) == "NULL";
    assert "GET result: " + "NULL" == "GET result: NULL";
    missing := PythonGet(server, "missing", lib);
  }

  /** `GetRequest(key)` for a plain key answers with what the Python dictionary holds under it. */
  method PythonGet(server: P.Server, key: string, lib: P.Library) returns (response: Option<string>)
    requires '?' !in key && ' ' !in key && '=' !in key
    modifies server
    ensures server.dictionary == old(server.dictionary)
    ensures response == Some(Format(Ok, "GET result: " + P.PyStr(old(server.Get(key)), lib)))
  {
    PythonGetRoute(key, lib);
    response := server.HandleClient(GetRequest(key), lib);
  }

  /** The PUT without `value`, the DELETE and the GET without a query leave the Python dictionary alone. */
  method PythonRefusals(server: P.Server, lib: P.Library)
    returns (noValue: Option<string>, deleted: Option<string>, noQuery: Option<string>)
    requires lib.loads(NoValueInner + "}") == Some(Object(map["key" := Str("a")]))
    modifies server
    ensures server.dictionary == old(server.dictionary)
    ensures noValue == None
    ensures deleted == Some(Format(BadRequest, "Invalid request"))
    ensures noQuery == None
  {
    PythonNoValueRoute(lib);
    noValue := server.HandleClient(SampleHead + P.Separator + (NoValueInner + "}"), lib);
    PythonOtherRoutes(lib);
    deleted := server.HandleClient(Delete, lib);
    noQuery := server.HandleClient(GetNoQuery, lib);
  }
}
