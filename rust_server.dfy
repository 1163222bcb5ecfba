/**
 * The Rust server of sem/src/main.rs: the typed dictionary shared by all
 * connections, and what `handle_client_with_dictionary` does with one
 * request text. The decision is the pure function `Route`; `HandleClient`
 * carries it out against the dictionary.
 */
module RustServer {
  import opened Wrappers
  import opened Strings
  import opened IntWidths
  import opened Decimal
  import opened JsonModel
  import opened Response

  /**
   * A serde_json number, as serde_json keeps it: a non-negative integer that
   * fits in u64, a negative integer that fits in i64, or a float (its f64
   * bit pattern, which the model does not interpret).
   */
  datatype SerdeNumber = PosInt(u: u64) | NegInt(i: i64) | Float(bits: bv64)

  type SerdeJson = Json<SerdeNumber>

  /** serde_json's `Number::as_i64`; `is_i64` is `AsI64(n).Some?`. */
  function AsI64(n: SerdeNumber): Option<i64> {
    match n
    case PosInt(u) => if u < TwoTo63 then Some(u) else None
    case NegInt(i) => Some(i)
    case Float(_) => None
  }

  /**
   * The stored value. `Double` keeps the JSON number it was decoded from:
   * the f64 the source computes from it with `as_f64` is floating point and
   * is not modelled.
   */
  datatype Value = Integer(i: i32) | Double(from: SerdeNumber) | String(s: string)

  /** What `get_with_dictionary` answers for a key that is not stored. */
  const Sentinel: Value := String("NULL")

  /** The library calls the handler makes and the model does not compute. */
  datatype Library = Library(
    fromStr: string -> Option<SerdeJson>,   // serde_json::from_str; None is a parse error
    debugDouble: SerdeNumber -> string,     // `{:?}` of the f64 `as_f64` gives
    debugString: string -> string)          // `{:?}` of a String: quoted and escaped

  /**
   * The mapping of the JSON `value` member to a stored value: strings stay
   * strings, numbers that serde_json reports as i64 become `Integer` with the
   * low 32 bits of that i64 (`as i32`), other numbers become `Double`, and
   * every other kind of JSON becomes the string "NULL".
   */
  function ToValue(j: SerdeJson): (v: Value)
    ensures j.Str? ==> v == String(j.s)
    ensures j.Number? && AsI64(j.n).Some? ==> v.Integer? && (v.i - AsI64(j.n).value) % TwoTo32 == 0
    ensures j.Number? && AsI64(j.n).None? ==> v == Double(j.n)
    ensures !j.Str? && !j.Number? ==> v == Sentinel
  {
    match j
    case Str(s) => String(s)
    case Number(n) =>
      (match AsI64(n)
       case Some(x) => Integer(WrapI32(x))
       case None => Double(n))
    case _ => Sentinel
  }

  /**
   * An i64 number is stored as its `as i32` cast, which is the number itself
   * exactly when it lies in the i32 range.
   */
  lemma {:induction false} ToValueInteger(n: SerdeNumber, x: int)
    requires AsI64(n) == Some(x)
    ensures ToValue(Number(n)) == Integer(WrapI32(x))
    ensures ToValue(Number(n)).i == x <==> InI32(x)
  {
    WrapI32Identity(x);
  }

  /** `{:?}` of a stored value, as derived `Debug` prints an enum variant. */
  function Debug(v: Value, lib: Library): string {
    match v
    case Integer(n) => "Integer(" + ShowInt(n) + ")"
    case Double(n) => "Double(" + lib.debugDouble(n) + ")"
    case String(s) => "String(" + lib.debugString(s) + ")"
  }

  /** Different integers print differently, so a GET answer names the integer stored. */
  lemma DebugIntegerInjective(a: i32, b: i32, lib: Library)
    requires Debug(Integer(a), lib) == Debug(Integer(b), lib)
    ensures a == b
  {
    var sa, sb := ShowInt(a), ShowInt(b);
    var da, db := Debug(Integer(a), lib), Debug(Integer(b), lib);
    assert |sa| == |sb|;
    assert sa == da[8..|da| - 1];
    assert sb == db[8..|db| - 1];
    ReadShowInt(a);
    ReadShowInt(b);
  }

  /** `Arc<RwLock<HashMap<String, Value>>>`: the dictionary every connection shares. */
  class Dictionary {
    var entries: map<string, Value>

    constructor ()
      ensures entries == map[]
    {
      entries := map[];
    }

    /** `put_with_dictionary`: insert, or replace what `key` held before. */
    method Put(key: string, value: Value)
      modifies this
      ensures entries == old(entries)[key := value]
    {
      entries := entries[key := value];
    }

    /** `get_with_dictionary`: the stored value, or the sentinel `String("NULL")`. */
    function Get(key: string): (v: Value)
      reads this
      ensures key in entries ==> v == entries[key]
      ensures key !in entries ==> v == Sentinel
    {
      if key in entries then entries[key] else Sentinel
    }
  }

  /** What the handler decides to do with one request. */
  datatype Action =
    | DoPut(key: string, value: Value)      // store, then answer 200 "PUT successful"
    | DoGet(key: string)                    // answer 200 with the value under `key`
    | Reply(status: string, body: string)   // answer without touching the dictionary
    | Panic                                 // the task panics and sends nothing

  const Separator: string := "\r\n\r\n"

  /**
   * The JSON text a PUT body is decoded from: the trimmed body up to its
   * first '}', with that '}' put back.
   */
  function Candidate(body: string): string {
    Prefix(Trim(body), "}") + "}"
  }

  /** What the handler does with the decoded PUT body (`None` when serde_json rejected it). */
  function PutJson(parsed: Option<SerdeJson>): Action {
    match parsed
    case None => Panic                          // expect("JSON was not well-formatted")
    case Some(json) =>
      match (Member(json, "key"), Member(json, "value"))
      case (Some(key), Some(value)) =>
        if key.Str? then DoPut(key.s, ToValue(value))
        else Panic                              // key.as_str().unwrap()
      case _ => Reply(BadRequest, "Invalid JSON")
  }

  /** The prefix dispatch and field extraction of `handle_client_with_dictionary`. */
  function Route(request: string, lib: Library): Action {
    if StartsWith(request, "PUT") then
      (match SplitNth(request, Separator, 1)
       case None => Reply(BadRequest, "Invalid request body")
       case Some(body) =>
         match SplitNth(Trim(body), "}", 0)
         case None => Reply(BadRequest, "Invalid JSON")
         case Some(res) => PutJson(lib.fromStr(res + "}")))
    else if StartsWith(request, "GET") then
      (match SplitNth(SplitNth(request, "?", 1).GetOr(""), " ", 0)
       case Some(query) => DoGet(SplitNth(query, "=", 1).GetOr(""))
       case None => Reply(BadRequest, "Invalid GET request"))
    else Reply(BadRequest, "Invalid request")
  }

  /**
   * `handle_client_with_dictionary` once the request has been read: carry out
   * the routed action, and give the response text, or `None` when the task
   * panics.
   */
  method HandleClient(dictionary: Dictionary, request: string, lib: Library) returns (response: Option<string>)
    modifies dictionary
    ensures match Route(request, lib)
            case DoPut(key, value) =>
              dictionary.entries == old(dictionary.entries)[key := value]
              && response == Some(Format(Ok, "PUT successful"))
            case DoGet(key) =>
              dictionary.entries == old(dictionary.entries)
              && response == Some(Format(Ok, "GET result: " + Debug(old(dictionary.Get(key)), lib)))
            case Reply(status, body) =>
              dictionary.entries == old(dictionary.entries) && response == Some(Format(status, body))
            case Panic =>
              dictionary.entries == old(dictionary.entries) && response == None
  {
    match Route(request, lib)
    case DoPut(key, value) =>
      dictionary.Put(key, value);
      response := Some(Format(Ok, "PUT successful"));
    case DoGet(key) =>
      var value := dictionary.Get(key);
      response := Some(Format(Ok, "GET result: " + Debug(value, lib)));
    case Reply(status, body) =>
      response := Some(Format(status, body));
    case Panic =>
      response := None;
  }

  /**
   * A put is read back by a get, replaces what the key held, and leaves
   * every other key alone.
   */
  method PutTwiceThenGet(dictionary: Dictionary, key: string, other: string, first: Value, second: Value)
    returns (got: Value, gotOther: Value)
    requires other != key
    modifies dictionary
    ensures got == second && gotOther == old(dictionary.Get(other))
  {
    dictionary.Put(key, first);
    dictionary.Put(key, second);
    got := dictionary.Get(key);
    gotOther := dictionary.Get(other);
  }

  // ---------------------------------------------------------------------
  // Properties of the routing

  /** A request that starts with neither "PUT" nor "GET" is refused without touching the dictionary. */
  lemma UnknownRequest(request: string, lib: Library)
    requires !StartsWith(request, "PUT") && !StartsWith(request, "GET")
    ensures Route(request, lib) == Reply(BadRequest, "Invalid request")
  {
  }

  /** "Invalid request body" answers exactly the PUT requests without a blank line. */
  lemma MissingBody(request: string, lib: Library)
    ensures Route(request, lib) == Reply(BadRequest, "Invalid request body")
            <==> StartsWith(request, "PUT") && forall i: nat :: !OccursAt(request, Separator, i)
  {
    SplitHasSecondPiece(request, Separator);
    if StartsWith(request, "GET") {
      FirstPieceExists(SplitNth(request, "?", 1).GetOr(""), " ");
    }
  }

  /**
   * The candidate JSON text ends in '}' and holds no other '}', and the
   * characters before that '}' are the start of the trimmed body.
   */
  lemma CandidateShape(body: string)
    ensures var c := Candidate(body);
            c[|c| - 1] == '}' && multiset(c)['}'] == 1 && StartsWith(Trim(body), c[..|c| - 1])
            && (|c| - 1 < |Trim(body)| ==> Trim(body)[|c| - 1] == '}')
  {
    var t := Trim(body);
    var p := Prefix(t, "}");
    forall k | 0 <= k < |p| ensures p[k] != '}' {
      CharOccursAt(t, '}', k);
      assert p[k] == t[k];
    }
    assert '}' !in multiset(p);
    assert multiset(p + "}") == multiset(p) + multiset{'}'};
    assert (p + "}")[..|p|] == p;
  }

  /**
   * Cutting at the first '}' always succeeds: a PUT with a body is decided by
   * what serde_json makes of the candidate text, and the "Invalid JSON" answer
   * for a failed cut never happens.
   */
  lemma {:induction false} PutDecodesCandidate(request: string, lib: Library, body: string)
    requires StartsWith(request, "PUT") && SplitNth(request, Separator, 1) == Some(body)
    ensures Route(request, lib) == PutJson(lib.fromStr(Candidate(body)))
  {
    FirstPieces(Trim(body), "}");
  }

  /** "Invalid JSON" answers exactly the decoded PUT bodies that lack `key` or `value`. */
  lemma InvalidJson(request: string, lib: Library)
    ensures Route(request, lib) == Reply(BadRequest, "Invalid JSON")
            <==> StartsWith(request, "PUT") && SplitNth(request, Separator, 1).Some?
                 && var parsed := lib.fromStr(Candidate(SplitNth(request, Separator, 1).value));
                    parsed.Some? && (Member(parsed.value, "key").None? || Member(parsed.value, "value").None?)
  {
    if StartsWith(request, "PUT") && SplitNth(request, Separator, 1).Some? {
      PutDecodesCandidate(request, lib, SplitNth(request, Separator, 1).value);
    } else if StartsWith(request, "GET") {
      FirstPieceExists(SplitNth(request, "?", 1).GetOr(""), " ");
    }
  }

  /**
   * The dictionary changes only on the PUT success path: a PUT with a body
   * whose candidate decodes to an object with a string `key` and a `value`.
   */
  lemma PutAccepted(request: string, lib: Library, key: string, value: Value)
    ensures Route(request, lib) == DoPut(key, value)
            <==> StartsWith(request, "PUT") && SplitNth(request, Separator, 1).Some?
                 && var parsed := lib.fromStr(Candidate(SplitNth(request, Separator, 1).value));
                    parsed.Some? && Member(parsed.value, "key") == Some(Str(key))
                    && Member(parsed.value, "value").Some?
                    && ToValue(Member(parsed.value, "value").value) == value
  {
    if StartsWith(request, "PUT") && SplitNth(request, Separator, 1).Some? {
      PutDecodesCandidate(request, lib, SplitNth(request, Separator, 1).value);
    } else if StartsWith(request, "GET") {
      FirstPieceExists(SplitNth(request, "?", 1).GetOr(""), " ");
    }
  }

  /**
   * The handler panics exactly when a PUT body's candidate does not decode,
   * or decodes with both members present and a `key` that is not a string.
   */
  lemma PanicCases(request: string, lib: Library)
    ensures Route(request, lib) == Panic
            <==> StartsWith(request, "PUT") && SplitNth(request, Separator, 1).Some?
                 && var parsed := lib.fromStr(Candidate(SplitNth(request, Separator, 1).value));
                    parsed.None?
                    || (Member(parsed.value, "key").Some? && !Member(parsed.value, "key").value.Str?
                        && Member(parsed.value, "value").Some?)
  {
    if StartsWith(request, "PUT") && SplitNth(request, Separator, 1).Some? {
      PutDecodesCandidate(request, lib, SplitNth(request, Separator, 1).value);
    } else if StartsWith(request, "GET") {
      FirstPieceExists(SplitNth(request, "?", 1).GetOr(""), " ");
    }
  }

  /**
   * The GET lookup key, stated through first occurrences: the query is the
   * text after the first '?' up to the next '?' or the first space after
   * it (empty when there is no '?'), and the key is the text after the
   * query's first '=' up to its next '=' (empty when there is no '=').
   */
  function QueryKey(request: string): string {
    var query := Prefix(match Rest(request, "?") case None => "" case Some(t) => Prefix(t, "?"), " ");
    match Rest(query, "=")
    case None => ""
    case Some(t) => Prefix(t, "=")
  }

  /** Every GET is answered with 200 and the value under `QueryKey`. */
  lemma {:induction false} GetAnswered(request: string, lib: Library)
    requires StartsWith(request, "GET")
    ensures Route(request, lib) == DoGet(QueryKey(request))
  {
    FirstPieces(request, "?");
    var question := SplitNth(request, "?", 1).GetOr("");
    FirstPieces(question, " ");
    var query := Prefix(question, " ");
    FirstPieces(query, "=");
    if Rest(request, "?").None? {
      PrefixWithoutChar("", ' ');
    }
  }

  /** "Invalid GET request" is never the answer, whatever the request. */
  lemma NeverInvalidGetRequest(request: string, lib: Library)
    ensures Route(request, lib) != Reply(BadRequest, "Invalid GET request")
  {
    if StartsWith(request, "GET") {
      GetAnswered(request, lib);
    }
  }

  /** A GET without '?' looks up the empty key. */
  lemma {:induction false} GetWithoutQuery(request: string, lib: Library)
    requires StartsWith(request, "GET")
    requires '?' !in request
    ensures Route(request, lib) == DoGet("")
  {
    GetAnswered(request, lib);
    PrefixWithoutChar(request, '?');
    PrefixWithoutChar("", ' ');
    PrefixWithoutChar("", '=');
  }

  /**
   * A body that starts with an object text ending in '}', with no blank
   * line beginning inside it, keeps all of that text.
   */
  lemma {:induction false} BodyKeepsObject(obj: string, pad: string)
    requires |obj| > 0 && obj[|obj| - 1] == '}' && NoneBefore(obj, Separator, |obj|)
    ensures StartsWith(Prefix(obj + pad, Separator), obj)
  {
    var after := obj + pad;
    forall i: nat | i < |obj| ensures !OccursAt(after, Separator, i) {
      if i + |Separator| <= |obj| {
        assert !OccursAt(obj, Separator, i);
        assert after[i..i + |Separator|] == obj[i..i + |Separator|];
      } else {
        assert after[|obj| - 1] == '}';
        Mismatch(after, Separator, i, |obj| - 1 - i);
      }
    }
    var body := Prefix(after, Separator);
    assert |body| >= |obj|;
    assert body[..|obj|] == after[..|obj|] == obj;
  }

  /**
   * Trimming and cutting a body that starts with `inner + "}"` gives `inner`
   * back, when `inner` holds no '}' and the object text starts on a
   * non-whitespace character.
   */
  lemma {:induction false} CutKeepsObject(body: string, inner: string)
    requires StartsWith(body, inner + "}") && '}' !in inner && !IsWhitespace((inner + "}")[0])
    ensures Prefix(Trim(body), "}") == inner
  {
    assert body[..|inner| + 1] == inner + "}";
    assert body[|inner|] == '}';
    var t := Trim(body);
    assert LeadingWhitespace(body) == 0;
    var e := TrailingWhitespace(body);
    assert !IsWhitespace(body[|inner|]);
    assert |body| - e > |inner|;
    assert t == body[0..|body| - e];
    assert t == inner + ['}'] + t[|inner| + 1..];
    SplitAtChar(inner, '}', t[|inner| + 1..]);
  }

  /**
   * Whatever follows the first '}' of a PUT body is ignored: for a head
   * (request line and header lines) whose first blank line is the separator
   * after it, and an object text `inner + "}"` in which no blank line
   * begins, with no leading whitespace and no earlier '}', the request is
   * decided by the object text alone.
   */
  lemma {:induction false} TrailingBytesIgnored(head: string, inner: string, pad: string, lib: Library)
    requires StartsWith(head, "PUT") && Find(head + Separator, Separator) == Some(|head|)
    requires NoneBefore(inner + "}", Separator, |inner| + 1)
    requires '}' !in inner && !IsWhitespace((inner + "}")[0])
    ensures Route(head + Separator + inner + "}" + pad, lib) == PutJson(lib.fromStr(inner + "}"))
  {
    var obj := inner + "}";
    var request := head + Separator + (obj + pad);
    assert head + Separator + inner + "}" + pad == request;
    assert StartsWith(request, "PUT") by {
      assert request[..3] == head[..3];
    }
    FirstSeparatorAt(head, Separator, obj + pad);
    BodyKeepsObject(obj, pad);
    var body := Prefix(obj + pad, Separator);
    CutKeepsObject(body, inner);
    PutDecodesCandidate(request, lib, body);
  }

  /** The decoded object of the sample PUT request stores "a" as `Integer(5)`. */
  lemma SampleObjectStored()
    ensures PutJson(Some(Object(map["key" := Str("a"), "value" := Number(PosInt(5))])))
            == DoPut("a", Integer(5))
  {
    ToValueInteger(PosInt(5), 5);
  }
}
