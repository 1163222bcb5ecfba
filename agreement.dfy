/**
 * How the two handlers compare: they refuse the same unknown requests, they
 * read the same GET key wherever the Python handler reads one at all, and
 * where the Python handler raises on a GET the Rust one looks up "".
 */
module Agreement {
  import opened Wrappers
  import opened Strings
  import opened Response
  import R = RustServer
  import P = PythonServer

  /** Both refuse a request with neither prefix, with the same status and body. */
  lemma UnknownRequestAgree(request: string, rlib: R.Library, plib: P.Library)
    requires !StartsWith(request, "PUT") && !StartsWith(request, "GET")
    ensures R.Route(request, rlib) == R.Reply(BadRequest, "Invalid request")
    ensures P.Route(request, plib) == P.Reply(BadRequest, "Invalid request")
  {
  }

  /**
   * On a GET the Rust handler looks up the key the Python handler extracts;
   * where the Python handler raises instead, the Rust handler looks up "".
   */
  lemma {:induction false} GetKeysAgree(request: string, rlib: R.Library, plib: P.Library)
    requires StartsWith(request, "GET")
    ensures P.QueryKey(request).Some? ==> R.Route(request, rlib) == R.DoGet(P.QueryKey(request).value)
    ensures P.QueryKey(request).None? ==> R.Route(request, rlib) == R.DoGet("") && P.Route(request, plib) == P.Raise
  {
    R.GetAnswered(request, rlib);
    P.GetAnswered(request, plib);
    PrefixWithoutChar("", ' ');
    PrefixWithoutChar("", '=');
  }

  /**
   * The usual query `path?name=key` followed by a space: both handlers look
   * up `key`, whatever the parameter's name and whatever follows the space.
   */
  lemma {:induction false} SimpleQuery(path: string, name: string, key: string, tail: string)
    requires '?' !in path
    requires '?' !in name && ' ' !in name && '=' !in name
    requires '?' !in key && ' ' !in key && '=' !in key
    ensures R.QueryKey(path + "?" + name + "=" + key + " " + tail) == key
    ensures P.QueryKey(path + "?" + name + "=" + key + " " + tail) == Some(key)
  {
    var pair := name + "=" + key;
    var rest := pair + " " + tail;
    var request := path + "?" + name + "=" + key + " " + tail;
    assert request == path + ['?'] + rest;
    SplitAtChar(path, '?', rest);
    assert rest == (pair + " ") + tail;
    PrefixSkip(pair + " ", tail, '?');
    var question := Prefix(rest, "?");
    assert question == pair + [' '] + Prefix(tail, "?");
    SplitAtChar(pair, ' ', Prefix(tail, "?"));
    assert pair == name + ['='] + key;
    SplitAtChar(name, '=', key);
    PrefixWithoutChar(key, '=');
  }
}
