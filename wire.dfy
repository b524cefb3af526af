/**
 * The foreign codecs the core leans on, kept abstract: JSON (`JSON.stringify`, `JSON.parse`),
 * percent-encoding (`encodeURIComponent`, `decodeURIComponent`), the form-urlencoded query parser
 * behind `URLSearchParams`, and the float round trip `parseFloat`/`String`.  Their behaviour is
 * pinned down only by the laws in `Lawful`, which hold of the JavaScript built-ins.  What is
 * concrete here is the core's own string handling around them: `split("?")[1]` and the way both
 * ends read the `input` parameter.
 */
module Wire {
  import opened Wrappers
  import opened Values

  datatype Codec = Codec(
    /** `JSON.stringify(v)`, for a value that is not `undefined`. */
    stringify: Value -> string,
    /** `JSON.parse(text)`; `None` when it throws. */
    parse: string -> Option<Value>,
    /** `encodeURIComponent(text)`. */
    encode: string -> string,
    /** `decodeURIComponent(text)`; `None` when it throws a URIError. */
    decode: string -> Option<string>,
    /** `new URLSearchParams(query).get(name)`; `None` stands for `null`. */
    searchParam: (string, string) -> Option<string>,
    /** `s === String(parseFloat(s))`: `s` is the canonical text of a number. */
    isNumeral: string -> bool)

  /**
   * The laws of the built-ins that the core relies on: percent-decoding leaves text without `%`
   * alone and changes (or rejects) any text with one, `encodeURIComponent` never emits `?`, and
   * the query parser gives back exactly the text that was percent-encoded into `input=`.
   */
  ghost predicate Lawful(c: Codec) {
    && (forall t :: '%' !in t ==> c.decode(t) == Some(t))
    && (forall t :: '%' in t ==> c.decode(t) != Some(t))
    && (forall t :: '?' !in c.encode(t))
    && (forall t :: c.searchParam("input=" + c.encode(t), "input") == Some(t))
  }

  /** The position of the first `ch` in `s`, if any. */
  function IndexOf(s: string, ch: char): (r: Option<nat>)
    ensures r.None? <==> ch !in s
    ensures r.Some? ==> r.value < |s| && s[r.value] == ch && ch !in s[..r.value]
  {
    if s == [] then None
    else if s[0] == ch then Some(0)
    else
      match IndexOf(s[1..], ch)
      case None => None
      case Some(i) =>
        assert s[..i + 1] == [s[0]] + s[1..][..i];
        Some(i + 1)
  }

  /**
   * `s.split("?")[1]`: the text between the first `?` and the next one (or the end), and
   * `undefined` (here `None`) when `s` has no `?`.
   */
  function QueryPart(s: string): (r: Option<string>)
    ensures r.None? <==> '?' !in s
    ensures r.Some? ==> '?' !in r.value
  {
    match IndexOf(s, '?')
    case None => None
    case Some(i) =>
      var rest := s[i + 1..];
      match IndexOf(rest, '?')
      case None => Some(rest)
      case Some(j) => Some(rest[..j])
  }

  /** Splitting `base + "?" + query` recovers `query` when neither part holds a `?`. */
  lemma {:induction false} QueryPartOfJoin(base: string, query: string)
    requires '?' !in base && '?' !in query
    ensures QueryPart(base + "?" + query) == Some(query)
  {
    var s := base + "?" + query;
    assert s[|base|] == '?';
    assert s[..|base|] == base;
    assert s[|base| + 1..] == query;
  }

  /** A string without `?` has no query part. */
  lemma QueryPartNone(s: string)
    requires '?' !in s
    ensures QueryPart(s) == None
  {
  }

  /**
   * The text that reaches `JSON.parse`: `decodeURIComponent(params.get("input")!)`, where a
   * missing parameter (`null`) is converted to the text "null".
   */
  function InputText(c: Codec, query: string): Option<string> {
    c.decode(c.searchParam(query, "input").GetOr("null"))
  }

  /**
   * `JSON.parse(decodeURIComponent(new URLSearchParams(query).get("input")!))`, as both the server
   * and the client's cache integration read the input; `None` when any step throws.
   */
  function ReadInputParam(c: Codec, query: string): Option<Value> {
    match InputText(c, query)
    case None => None
    case Some(text) => c.parse(text)
  }

  /**
   * The value is percent-decoded twice (once by the query parser, once by `decodeURIComponent`),
   * so the text handed to `JSON.parse` is the encoded text exactly when that text has no `%`.
   */
  lemma DoubleDecoding(c: Codec, text: string)
    requires Lawful(c)
    ensures InputText(c, "input=" + c.encode(text)) == Some(text) <==> '%' !in text
  {
    assert c.searchParam("input=" + c.encode(text), "input") == Some(text);
  }

  /** Hence the input parameter round-trips through the codecs when its JSON text has no `%`. */
  lemma ReadEncodedInput(c: Codec, text: string)
    requires Lawful(c)
    requires '%' !in text
    ensures ReadInputParam(c, "input=" + c.encode(text)) == c.parse(text)
  {
    DoubleDecoding(c, text);
  }
}
