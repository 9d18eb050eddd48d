/**
 * The parts of a parsed URL record (WHATWG URL Standard, section 4) that the client code reads or
 * rewrites: its serialization, `pathname + search`, and `searchParams.set`. Parsing itself is not
 * modelled; callers receive the parser as a function from text to a parsed record.
 */
module Url {
  import opened Wrappers
  import Text
  import Form = FormUrlEncoded

  /**
   * A URL record: everything before the path (scheme, credentials, host, port) already
   * serialized, the serialized path, and the optional query and fragment without `?` and `#`.
   */
  datatype Parsed = Parsed(head: string, path: string, query: Option<string>, fragment: Option<string>)

  /** `url.search`: empty when the query is absent or empty, `?` followed by the query otherwise. */
  function Search(u: Parsed): (r: string)
    ensures r == "" <==> (u.query.None? || u.query.value == "")
    ensures r != "" ==> r[0] == '?' && r[1..] == u.query.value
  {
    match u.query
    case None => ""
    case Some(q) => if q == "" then "" else "?" + q
  }

  /** `url.href` (also `url.toString()`): the serializer, which keeps a `?` before an empty query. */
  function Href(u: Parsed): (r: string)
    ensures Text.StartsWith(r, u.head + u.path)
  {
    u.head + u.path
    + (match u.query case None => "" case Some(q) => "?" + q)
    + (match u.fragment case None => "" case Some(f) => "#" + f)
  }

  /** `url.searchParams`: the query parsed as a form list, empty when there is no query. */
  function SearchParams(u: Parsed): seq<Form.Pair> {
    match u.query
    case None => []
    case Some(q) => Form.Parse(q)
  }

  /**
   * `url.searchParams.set(name, value)`: set on the list, then the URL's query becomes the list's
   * serialization (which the standard makes absent when empty; after a set it never is). Afterwards the list read back from the URL holds
   * `name` exactly once with the new value, keeps every other pair in order, and nothing but the
   * query has changed.
   */
  function SetSearchParam(u: Parsed, name: string, value: string): (r: Parsed)
    ensures r.head == u.head && r.path == u.path && r.fragment == u.fragment
    ensures r.query.Some? && r.query.value != ""
    ensures Form.Count(SearchParams(r), name) == 1
    ensures Form.Get(SearchParams(r), name) == Some(value)
    ensures Form.Without(SearchParams(r), name) == Form.Without(SearchParams(u), name)
  {
    var list := Form.Set(SearchParams(u), name, value);
    var q := Form.Serialize(list);
    Form.ParseSerialize(list);
    Form.SetSemantics(SearchParams(u), name, value);
    assert list != [];
    assert Form.Parse("") == [];
    u.(query := Some(q))
  }
}
