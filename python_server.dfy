/**
 * The Python server of server.py: the dictionary it keeps in
 * `self.dictionary`, and what `handle_client` does with one request text.
 * Every failed index, member lookup or decode raises, the worker thread
 * drops the request, and nothing is sent.
 */
module PythonServer {
  import opened Wrappers
  import opened Strings
  import opened Decimal
  import opened JsonModel
  import opened Response

  /** A number as `json.loads` makes it: an `int` of any size, or a `float` (its bit pattern). */
  datatype PyNumber = PyInt(i: int) | PyFloat(bits: bv64)

  /** Any value `json.loads` returns; the dictionary stores these as they are. */
  type PyJson = Json<PyNumber>

  /** What `get` answers for a key that is not stored: the string "NULL". */
  const Sentinel: PyJson := Str("NULL")

  /** The library calls the handler makes and the model does not compute. */
  datatype Library = Library(
    loads: string -> Option<PyJson>,   // json.loads; None is a raised decode error
    strOther: PyJson -> string)        // str() of a float, a list or a dict

  /** Python's `str(value)`, which `"GET result: {}".format(value)` prints. */
  function PyStr(v: PyJson, lib: Library): (s: string)
    ensures v.Str? ==> s == v.s
  {
    match v
    case Str(s) => s
    case Number(PyInt(i)) => ShowInt(i)
    case Bool(b) => if b then "True" else "False"
    case Null => "None"
    case _ => lib.strOther(v)
  }

  /** A value Python can use as a dict key: lists and dicts are unhashable. */
  predicate Hashable(v: PyJson) {
    !v.Array? && !v.Object?
  }

  /** What the handler decides to do with one request. */
  datatype Action =
    | DoPut(key: PyJson, value: PyJson)     // store, then answer 200 "PUT successful"
    | DoGet(name: string)                   // answer 200 with the value under `name`
    | Reply(status: string, body: string)   // answer without touching the dictionary
    | Raise                                 // an exception ends the handler; nothing is sent

  const Separator: string := "\r\n\r\n"

  /** The handler ends without an answer: the routing raised, or `Put` raised on an unhashable key. */
  predicate SendsNothing(action: Action) {
    action.Raise? || (action.DoPut? && !Hashable(action.key))
  }

  /** What the handler does with the decoded PUT body (`None` when `json.loads` raised). */
  function PutData(parsed: Option<PyJson>): Action {
    match parsed
    case None => Raise
    case Some(data) =>
      match (Member(data, "key"), Member(data, "value"))
      case (Some(key), Some(value)) => DoPut(key, value)
      case _ => Raise                 // data["key"] or data["value"] raised
  }

  /** The prefix dispatch and field extraction of `handle_client`. */
  function Route(request: string, lib: Library): Action {
    if StartsWith(request, "PUT") then
      (match SplitNth(request, Separator, 1)
       case None => Raise
       case Some(body) => PutData(lib.loads(body)))
    else if StartsWith(request, "GET") then
      (match SplitNth(request, "?", 1)
       case None => Raise
       case Some(query) =>
         match SplitNth(query, " ", 0)
         case None => Raise
         case Some(param) =>
           match SplitNth(param, "=", 1)
           case None => Raise
           case Some(key) => DoGet(key))
    else Reply(BadRequest, "Invalid request")
  }

  /** `DynamicThreadPoolServer` with the part of its state the handler uses. */
  class Server {
    var dictionary: map<PyJson, PyJson>

    constructor ()
      ensures dictionary == map[]
    {
      dictionary := map[];
    }

    /** `put`: `self.dictionary[key] = value`, which raises for an unhashable key. */
    method Put(key: PyJson, value: PyJson) returns (raised: bool)
      modifies this
      ensures raised == !Hashable(key)
      ensures dictionary == if raised then old(dictionary) else old(dictionary)[key := value]
    {
      raised := !Hashable(key);
      if !raised {
        dictionary := dictionary[key := value];
      }
    }

    /** `get`: `self.dictionary.get(key, "NULL")` for the string key a GET extracts. */
    function Get(key: string): (v: PyJson)
      reads this
      ensures Str(key) in dictionary ==> v == dictionary[Str(key)]
      ensures Str(key) !in dictionary ==> v == Sentinel
    {
      if Str(key) in dictionary then dictionary[Str(key)] else Sentinel
    }

    /**
     * `handle_client` once the request has been received: carry out the
     * routed action, and give the response text, or `None` when an
     * exception ends the handler.
     */
    method HandleClient(request: string, lib: Library) returns (response: Option<string>)
      modifies this
      ensures match Route(request, lib)
              case DoPut(key, value) =>
                if Hashable(key) then
                  dictionary == old(dictionary)[key := value] && response == Some(Format(Ok, "PUT successful"))
                else
                  dictionary == old(dictionary) && response == None
              case DoGet(key) =>
                dictionary == old(dictionary)
                && response == Some(Format(Ok, "GET result: " + PyStr(old(Get(key)), lib)))
              case Reply(status, body) =>
                dictionary == old(dictionary) && response == Some(Format(status, body))
              case Raise =>
                dictionary == old(dictionary) && response == None
      ensures response.None? <==> SendsNothing(Route(request, lib))
    {
      match Route(request, lib)
      case DoPut(key, value) =>
        var raised := Put(key, value);
        response := if raised then None else Some(Format(Ok, "PUT successful"));
      case DoGet(key) =>
        var value := Get(key);
        response := Some(Format(Ok, "GET result: " + PyStr(value, lib)));
      case Reply(status, body) =>
        response := Some(Format(status, body));
      case Raise =>
        response := None;
    }
  }

  /**
   * A put is read back by a get, replaces what the key held, and leaves
   * every other key alone.
   */
  method PutTwiceThenGet(server: Server, key: string, other: string, first: PyJson, second: PyJson)
    returns (got: PyJson, gotOther: PyJson)
    requires other != key
    modifies server
    ensures got == second && gotOther == old(server.Get(other))
  {
    var raised := server.Put(Str(key), first);
    raised := server.Put(Str(key), second);
    got := server.Get(key);
    gotOther := server.Get(other);
  }

  // ---------------------------------------------------------------------
  // Properties of the routing

  /** A request that starts with neither "PUT" nor "GET" is refused without touching the dictionary. */
  lemma UnknownRequest(request: string, lib: Library)
    requires !StartsWith(request, "PUT") && !StartsWith(request, "GET")
    ensures Route(request, lib) == Reply(BadRequest, "Invalid request")
  {
  }

  /** The only answer other than 200 is "Invalid request": every other failure raises. */
  lemma OnlyUnknownRequestRefused(request: string, lib: Library)
    ensures Route(request, lib).Reply? <==> !StartsWith(request, "PUT") && !StartsWith(request, "GET")
  {
  }

  /** A PUT without a blank line raises before the dictionary is touched. */
  lemma {:induction false} MissingBodyRaises(request: string, lib: Library)
    requires StartsWith(request, "PUT") && forall i: nat :: !OccursAt(request, Separator, i)
    ensures Route(request, lib) == Raise
  {
    SplitHasSecondPiece(request, Separator);
  }

  /**
   * The body `json.loads` decodes is the text between the first and the
   * second blank line (or the end), and the handler decides to store exactly
   * when that text decodes to an object with both a `key` and a `value`
   * member. A list or dict `key` then still raises in `Put`.
   */
  lemma {:induction false} PutAccepted(request: string, lib: Library, key: PyJson, value: PyJson)
    ensures Route(request, lib) == DoPut(key, value)
            <==> StartsWith(request, "PUT") && Rest(request, Separator).Some?
                 && var parsed := lib.loads(Prefix(Rest(request, Separator).value, Separator));
                    parsed.Some? && Member(parsed.value, "key") == Some(key)
                    && Member(parsed.value, "value") == Some(value)
  {
    FirstPieces(request, Separator);
  }

  /**
   * The routing of a PUT raises exactly when it has no blank line, its
   * body does not decode, or the decoded value lacks `key` or `value`.
   */
  lemma PutRaises(request: string, lib: Library)
    requires StartsWith(request, "PUT")
    ensures Route(request, lib) == Raise
            <==> SplitNth(request, Separator, 1).None?
                 || var parsed := lib.loads(SplitNth(request, Separator, 1).value);
                    parsed.None? || Member(parsed.value, "key").None? || Member(parsed.value, "value").None?
  {
  }

  /**
   * A PUT sends nothing exactly when it has no blank line, its body does
   * not decode, the decoded value lacks `key` or `value`, or its `key` is a
   * list or a dict; every other PUT stores and answers "PUT successful".
   */
  lemma PutSendsNothing(request: string, lib: Library)
    requires StartsWith(request, "PUT")
    ensures SendsNothing(Route(request, lib))
            <==> SplitNth(request, Separator, 1).None?
                 || var parsed := lib.loads(SplitNth(request, Separator, 1).value);
                    parsed.None? || Member(parsed.value, "key").None? || Member(parsed.value, "value").None?
                    || !Hashable(Member(parsed.value, "key").value)
    ensures !SendsNothing(Route(request, lib)) ==> Route(request, lib).DoPut?
  {
  }

  /**
   * The GET lookup key, stated through first occurrences: the query is the
   * text after the first '?' up to the next '?' or the first space after
   * it, and the key is the text after its first '=' up to its next '='.
   * `None` when there is no '?' or the query has no '='.
   */
  function QueryKey(request: string): Option<string> {
    match Rest(request, "?")
    case None => None
    case Some(t) =>
      match Rest(Prefix(Prefix(t, "?"), " "), "=")
      case None => None
      case Some(u) => Some(Prefix(u, "="))
  }

  /** A GET raises exactly when it has no '?' or its query has no '='; otherwise it looks up `QueryKey`. */
  lemma {:induction false} GetAnswered(request: string, lib: Library)
    requires StartsWith(request, "GET")
    ensures Route(request, lib) == match QueryKey(request)
                                   case None => Raise
                                   case Some(key) => DoGet(key)
    ensures Route(request, lib) == Raise <==> '?' !in request || QueryKey(request).None?
  {
    FirstPieces(request, "?");
    if Rest(request, "?").None? {
      if '?' in request {
        var i :| 0 <= i < |request| && request[i] == '?';
        CharOccursAt(request, '?', i);
      }
    } else {
      var query := Prefix(Rest(request, "?").value, "?");
      FirstPieces(query, " ");
      FirstPieces(Prefix(query, " "), "=");
      var i := |Prefix(request, "?")|;
      CharOccursAt(request, '?', i);
    }
  }

  /**
   * A PUT whose head line has no carriage return, followed by a body text
   * without one, is decided by what `json.loads` makes of that whole text.
   */
  lemma {:induction false} WholeBodyDecoded(head: string, body: string, lib: Library)
    requires StartsWith(head, "PUT") && '\r' !in head && '\r' !in body
    ensures Route(head + Separator + body, lib) == PutData(lib.loads(body))
  {
    var request := head + Separator + body;
    assert StartsWith(request, "PUT") by {
      assert request[..3] == head[..3];
    }
    FirstOccurrenceAfter(head, Separator, body);
    PrefixWithoutFirstChar(body, Separator);
  }
}
