# Typed key-value server: request handling and store

This project models the two versions of a small TCP key-value server:

- the Rust server `sem/src/main.rs`;
- the older Python server `server.py`.

Each server reads one request text per connection and answers with at most one response text: a Rust panic or a Python exception sends nothing. It follows an HTTP/1.1-like shape but no real HTTP framing. A request starting with `PUT` carries a JSON object `{"key": …, "value": …}` after the first blank line (`"\r\n\r\n"`). The server stores the value under the key. A request starting with `GET` carries `?name=key` in its request line, and the server answers with the value stored under that key. Any other request gets `400 Bad Request` / `Invalid request`.

For each server the model has three parts:

- **The dictionary.** A class: `RustServer.Dictionary` (`map<string, Value>`) or `PythonServer.Server` (`map<PyJson, PyJson>`). It has a `Put` method that changes the map and a `Get` function that reads it, with the `"NULL"` sentinel for a missing key.
- **The decision.** A pure function `Route(request, lib)` returns what the handler does: store, look up, reply without touching the store, or fail with no response. Failure is a Rust panic or a Python exception.
- **The handler.** A method `HandleClient` carries out the routed action on the dictionary. Its `ensures` gives the new dictionary and the exact response text.

Shared modules:

- `Strings`: `split`/`nth`, Python `split(...)[n]`, `trim`, `starts_with`.
- `Decimal`: decimal text of integers.
- `IntWidths`: Rust's `as i32`.
- `JsonModel`: decoded JSON.
- `Response`: the response format.
- `Agreement`: compares the two handlers.
- `Scenarios`: states the outcome of one session of requests against each server.

Calls into code that is not modelled are fields of a `Library` value passed to `Route` and `HandleClient`. These are `serde_json::from_str`, `json.loads`, `{:?}` of an `f64` or a `String`, and Python's `str()` of a float, list or dict.

Facts shown about the code as written:

- In the Rust handler, the `Invalid JSON` answer for a failed `'}'` cut (`sem/src/main.rs:69-71`) never happens (`PutDecodesCandidate`).
- The same holds for `Invalid GET request` (`sem/src/main.rs:80-82`; `NeverInvalidGetRequest`). A GET with no `?` looks up the empty key (`GetWithoutQuery`), and so does one whose query has no `=` (`GetAnswered`). In both cases the Python handler raises instead (`Agreement.GetKeysAgree`).
- The response format `"{}\r\n{}\r\n\r\n{}"` with a header that already ends in `"\r\n"` puts one extra `"\r\n"` after the blank line. So a client that reads the text as HTTP sees a body that starts with an empty line (`Response.BodyAfterBlankLine`).
- Both handlers take the GET key from the text after the first `?` up to the next `?` **or** the first space after it (`split("?")` then piece 1). So a second `?` also ends the query.

## Model

| member | source | states |
|---|---|---|
| RustServer.Dictionary.Put | sem/src/main.rs:96-99 | the map afterwards is the old map with `key` bound to `value`, whether or not `key` was there |
| RustServer.Dictionary.Get | sem/src/main.rs:101-104 | a stored key gives its value; a missing key gives `String("NULL")` |
| RustServer.PutTwiceThenGet | sem/src/main.rs:96-104 | after two puts on `key`, a get of `key` gives the second value, and a get of any other key gives what it gave before |
| RustServer.ToValue | sem/src/main.rs:57-62 | a JSON string stays a string; an i64 number becomes an `Integer` congruent to it modulo 2^32; another number becomes `Double`; any other JSON becomes `String("NULL")` |
| RustServer.ToValueInteger | sem/src/main.rs:59 | an i64 number is stored as `WrapI32` of it, and keeps its value exactly when it lies in the i32 range |
| IntWidths.WrapI32 | sem/src/main.rs:59 | `as i32` gives an i32 congruent to the input modulo 2^32 |
| IntWidths.WrapI32Identity | sem/src/main.rs:59 | the cast leaves a number unchanged exactly when it is in the i32 range |
| IntWidths.WrapI32Unique | sem/src/main.rs:59 | the i32 congruent to the input modulo 2^32 is unique, so `WrapI32` is the two's-complement low-32-bit reading |
| IntWidths.WrapI32Example | sem/src/main.rs:59 | 2^31 becomes -2^31, 2^32 + 5 becomes 5, and -1 stays -1 |
| RustServer.DebugIntegerInjective | sem/src/main.rs:79 | two different integers never produce the same `{:?}` text, so a GET answer names the stored integer |
| Decimal.Digits | sem/src/main.rs:79 | the decimal digits of a natural number are non-empty and all digits, with no leading zero except for 0 |
| Decimal.DigitChar | sem/src/main.rs:79 | a digit value gives the character of that value |
| Decimal.ShowInt | server.py:55 | the decimal text of an integer is never empty |
| Decimal.ReadDigits | server.py:55 | reading back the digits of `n` gives `n` |
| Decimal.ReadShowInt | server.py:55 | reading back the decimal text of any integer gives that integer |
| RustServer.UnknownRequest | sem/src/main.rs:45-85 | a request starting with neither `PUT` nor `GET` gets 400 `Invalid request` |
| RustServer.MissingBody | sem/src/main.rs:46-73 | the answer is 400 `Invalid request body` exactly when a PUT has no `"\r\n\r\n"` |
| RustServer.CandidateShape | sem/src/main.rs:47-51 | the JSON text handed to serde ends in `'}'`, holds exactly one `'}'`, and otherwise is the start of the trimmed body; the cut falls on the trimmed body's first `'}'` when it has one |
| RustServer.PutDecodesCandidate | sem/src/main.rs:46-71 | a PUT with a body is decided by what serde makes of the candidate text, so the line-70 `Invalid JSON` branch is never taken |
| RustServer.InvalidJson | sem/src/main.rs:55-68 | the answer is 400 `Invalid JSON` exactly when the candidate decodes but lacks `key` or `value` |
| RustServer.PutAccepted | sem/src/main.rs:52-65 | the handler stores `key ↦ value` exactly when the candidate decodes with a string `key` and a `value` member whose mapped value is `value` |
| RustServer.PanicCases | sem/src/main.rs:52-56 | the handler panics exactly when the candidate does not decode, or when both members are present and `key` is not a string |
| RustServer.GetAnswered | sem/src/main.rs:76-79 | every GET looks up `QueryKey(request)`: the text after the query's first `=`, up to its next `=` |
| RustServer.NeverInvalidGetRequest | sem/src/main.rs:77-82 | no request is answered with `Invalid GET request` |
| RustServer.GetWithoutQuery | sem/src/main.rs:77-78 | a GET without `?` looks up the empty key |
| RustServer.BodyKeepsObject | sem/src/main.rs:46 | a body that starts with an object text ending in `'}'`, in which no `"\r\n\r\n"` begins, keeps all of that text in the piece after the blank line |
| RustServer.CutKeepsObject | sem/src/main.rs:47-51 | trimming and cutting a body that starts with `inner + "}"` gives back `inner`, when `inner` has no `'}'` and starts on non-whitespace |
| RustServer.TrailingBytesIgnored | sem/src/main.rs:41-52 | for any head (request line and header lines) whose first blank line is the one right after it, for any object text `inner + "}"` in which no `"\r\n\r\n"` begins, that has no earlier `'}'` and does not start with whitespace (CRLF line breaks inside it allowed), whatever follows the object's `'}'`, such as the NULs of the unfilled read buffer, does not change the outcome |
| RustServer.SampleObjectStored | sem/src/main.rs:55-65 | the object `{"key":"a","value":5}` stores `Integer(5)` under `"a"` |
| RustServer.HandleClient | sem/src/main.rs:45-88 | the dictionary changes only on the store action, and then exactly by that binding; the response is the formatted status and body, using the pre-request value for a GET; a panic sends nothing |
| PythonServer.Server.Put | server.py:73-75 | the map gains `key ↦ value` for a hashable key; for a list or dict key it raises and the map is unchanged |
| PythonServer.Server.Get | server.py:77-79 | a stored key gives its value; a missing key gives the string `"NULL"` |
| PythonServer.PutTwiceThenGet | server.py:73-79 | after two puts on `key`, a get of `key` gives the second value, and any other key reads as before |
| PythonServer.PyStr | server.py:55 | `str()` of a string value is the string itself |
| PythonServer.UnknownRequest | server.py:41-60 | a request starting with neither `PUT` nor `GET` gets 400 `Invalid request` |
| PythonServer.OnlyUnknownRequestRefused | server.py:41-60 | the handler answers without a 200 exactly for such requests; every other failure raises |
| PythonServer.MissingBodyRaises | server.py:42 | a PUT without `"\r\n\r\n"` raises before the store is touched |
| PythonServer.PutRaises | server.py:42-45 | the routing of a PUT raises exactly when it has no blank line, its body does not decode, or the decoded value lacks `key` or `value`; a list or dict `key` passes the routing and raises later in `Put` |
| PythonServer.PutSendsNothing | server.py:42-75 | a PUT sends nothing exactly when it has no blank line, its body does not decode, the decoded value lacks `key` or `value`, or `key` is a list or dict; every other PUT is a store |
| PythonServer.PutAccepted | server.py:42-47 | the routing decides to store `key ↦ value` exactly when the text between the first and second blank line decodes to an object with those `key` and `value` members; the store then happens only for a hashable `key` |
| PythonServer.GetAnswered | server.py:53-54 | a GET looks up `QueryKey(request)`, and raises exactly when there is no `?` or the query has no `=` |
| PythonServer.WholeBodyDecoded | server.py:42-43 | a PUT whose head line and body have no `'\r'` is decided by what `json.loads` makes of the whole body |
| PythonServer.Server.HandleClient | server.py:41-62 | the store changes only for a store action with a hashable key; the response is the formatted status and body, using `str()` of the pre-request value for a GET; nothing is sent exactly when the routing raises or the key is unhashable |
| JsonModel.Member | sem/src/main.rs:55 | a member is found exactly when the value is an object holding that name, and it is that member's value |
| Response.ParseFormat | sem/src/main.rs:87-88 | the status line and body can be recovered from every response whose status has no `'\r'` |
| Response.ResponsesParse | server.py:49-62 | every response either handler sends, 200 or 400 with any body, parses back to its status line and body |
| Response.BodyAfterBlankLine | server.py:61-62 | the first blank line of a response ends the Content-Type line, and one more `"\r\n"` comes before the body |
| Response.StatusLinesPlain | sem/src/main.rs:65-84 | neither status line contains `'\r'` |
| Response.FramingChars | sem/src/main.rs:87-88 | the text between status and body is 32 characters, at fixed positions |
| Response.NoCarriageReturnBefore | sem/src/main.rs:88 | a pattern starting with `'\r'` cannot start inside the status line |
| Strings.Find | sem/src/main.rs:46 | the reported position is the leftmost occurrence, and none means the pattern never occurs |
| Strings.FindFrom | sem/src/main.rs:46 | the reported position is the leftmost occurrence at or after the start index |
| Strings.FindIs | sem/src/main.rs:46 | an occurrence with none before it is the one found |
| Strings.Split | server.py:42 | a split always has at least one piece |
| Strings.JoinCons | server.py:42 | joining a piece in front of further pieces puts the separator between them |
| Strings.JoinSplit | server.py:42 | joining the pieces of a split with the separator gives back the text |
| Strings.SplitPiecesFree | server.py:42 | no piece of a split contains the separator |
| Strings.SplitCharCharacterised | sem/src/main.rs:48 | for a one-character separator, the split is the unique sequence of separator-free pieces that joins back to the text |
| Strings.SplitHasSecondPiece | sem/src/main.rs:46 | a second piece exists exactly when the separator occurs |
| Strings.FirstPieceExists | sem/src/main.rs:48 | `next()` on a split always gives a piece |
| Strings.Prefix | sem/src/main.rs:48 | the first piece is a prefix of the text, with the separator right after it when it is shorter than the text |
| Strings.Rest | server.py:42 | the rest exists exactly when the separator occurs, and then the text is the first piece, the separator and the rest |
| Strings.FirstPieces | sem/src/main.rs:46 | pieces 0 and 1 of a split, stated through the first occurrence only |
| Strings.Mismatch | sem/src/main.rs:46 | a pattern does not occur where one of its characters is missing |
| Strings.FirstSeparatorAt | sem/src/main.rs:46 | when the first separator in `head + sep` is the one after `head`, it stays the first whatever follows, and piece 1 is the text after it up to the next separator |
| Strings.FirstCharAbsent | sem/src/main.rs:46 | when `head` lacks the separator's first character, the first separator in `head + sep` is the one after `head` |
| Strings.FirstOccurrenceAfter | server.py:42 | the first separator in `head + sep + after` is the one after `head` when `head` lacks its first character |
| Strings.PrefixWithoutFirstChar | server.py:42 | text lacking the separator's first character is one whole piece |
| Strings.NoFirstCharNoneBefore | sem/src/main.rs:46 | text without the separator's first character contains no occurrence of the separator |
| Strings.CharOccursAt | sem/src/main.rs:48 | a one-character pattern occurs exactly where that character stands |
| Strings.SplitWithoutChar | sem/src/main.rs:48 | text without the separator character is a single piece |
| Strings.SplitAtChar | sem/src/main.rs:48 | a separator-free text before a separator character is the first piece, and the rest follows it |
| Strings.PrefixWithoutChar | sem/src/main.rs:77-78 | text without the character is its own first piece and has no rest |
| Strings.PrefixSkip | server.py:53 | separator-free text in front does not move the first separator of what follows |
| Strings.LeadingWhitespace | sem/src/main.rs:47 | the counted leading characters are whitespace and the next one is not |
| Strings.TrailingWhitespace | sem/src/main.rs:47 | the counted trailing characters are whitespace and the one before them is not |
| Strings.Trim | sem/src/main.rs:47 | `trim` keeps a contiguous part of the text, cuts only whitespace, and the kept part neither starts nor ends with whitespace |
| Agreement.UnknownRequestAgree | server.py:58-60 | both handlers refuse a request with neither prefix with the same status and body |
| Agreement.GetKeysAgree | sem/src/main.rs:77-78 | where the Python handler finds a GET key the Rust one looks up the same key; where Python raises, Rust looks up `""` |
| Agreement.SimpleQuery | server.py:53 | for `path?name=key ` followed by anything, both handlers look up `key` |
| Scenarios.GetRequestKey | server.py:53 | both handlers read `key` back out of `GET /?key=<key> HTTP/1.1`, whatever follows |
| Scenarios.SampleHeadSeparated | sem/src/main.rs:45-46 | the sample head starts with `PUT` and its first blank line is the separator after it |
| Scenarios.RustPutRoute | sem/src/main.rs:45-65 | the sample PUT stores `Integer(5)` under `"a"`, whatever trails it |
| Scenarios.RustNoValueRoute | sem/src/main.rs:55-68 | the PUT without `value` gets 400 `Invalid JSON`, whatever trails it |
| Scenarios.RustGetRoute | sem/src/main.rs:76-78 | a GET of a plain key looks that key up, whatever trails it |
| Scenarios.RustDeleteRoute | sem/src/main.rs:83-84 | a DELETE gets 400 `Invalid request`, whatever trails it |
| Scenarios.RustSession | sem/src/main.rs:45-104 | from an empty dictionary, each request followed by its own buffer remainder: the sample PUT succeeds; GET "a" answers `Integer(5)`; a missing key answers the sentinel; a PUT without `value` gets `Invalid JSON`; a DELETE gets `Invalid request` |
| Scenarios.RustNoQuery | sem/src/main.rs:77-79 | a GET without a query string on an empty dictionary answers 200 with the sentinel |
| Scenarios.PythonPutRoute | server.py:41-47 | the sample PUT stores 5 under `"a"` on the Python handler |
| Scenarios.PythonNoValueRoute | server.py:45 | a PUT without `value` raises on the Python handler |
| Scenarios.PythonGetRoute | server.py:53 | a GET of a plain key looks that key up on the Python handler |
| Scenarios.PythonOtherRoutes | server.py:53-60 | a DELETE is refused, and a GET without a query raises, on the Python handler |
| Scenarios.PythonSession | server.py:41-79 | from an empty dictionary: PUT succeeds, GET "a" answers `5`, a missing key answers `NULL`, a PUT without `value` and a GET without a query send nothing, and a DELETE gets `Invalid request` |
| Scenarios.PythonStoreAndLoad | server.py:41-56 | the sample PUT followed by the two GETs, with the dictionary they leave |
| Scenarios.PythonGet | server.py:52-56 | a GET of a plain key answers with `str()` of the value stored before, and leaves the store alone |
| Scenarios.PythonRefusals | server.py:41-60 | the failing PUT, the DELETE and the query-less GET leave the Python store unchanged |

## Left out

- Sockets and tasks are not modelled: `TcpListener`, `accept`, `tokio::spawn`, `read`/`write`, `recv`/`send`/`close`, `ThreadPoolExecutor`, `main`, host and port. The request is a given string and the response is a returned string.
- The Rust 1024-byte read buffer and its NUL padding have no model of their own. An arbitrary trailing text (`pad`) stands for them, and `RustServer.TrailingBytesIgnored` shows it does not matter for an object text with no blank line in it, no `'}'` before its closing one, and no leading whitespace.
- `String::from_utf8_lossy` and Python's `decode('utf-8')` are not modelled. The request is already text, so invalid UTF-8, and the exception Python raises for it, are outside the model.
- Locks are not modelled: `RwLock`, `Arc`, `threading.Lock` and lock poisoning. They only make each `Put`/`Get` atomic, and the model is sequential.
- JSON parsing is not modelled: `serde_json::from_str` and `json.loads` are library functions given as parameters.
- Floating point is not modelled: the `f64` of `Value::Double` and `as_f64`, and `{:?}` of an `f64`. `Double` keeps the JSON number it came from.
- Rust's `{:?}` escaping of a `String` is a library function given as a parameter. So is Python's `str()` of floats, lists and dicts.
- Python `str` values holding a lone surrogate (which `json.loads` makes from an escape such as `"\ud800"`) are not modelled, because a Dafny `char` cannot hold one. So the `UnicodeEncodeError` that `response.encode('utf-8')` then raises on a GET answering such a value, which sends nothing, is outside the model.
- Python dictionary key equality is modelled as equality of decoded JSON values. Python's own equalities `1 == 1.0 == True` and the behaviour of NaN keys are not modelled.
- `print_dict_info_with_dictionary` / `print_dict_info` are not modelled: they only print to the console.
- The Python timing counter (`self.i`, `start_time`) and the unused thread-pool settings are not modelled: they do not affect any response.
