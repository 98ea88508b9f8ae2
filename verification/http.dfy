/**
 * The parts of the HTTP library the client relies on: a response record and
 * the header lookup rules of its case-insensitive header map.
 */
module Http {
  import opened Strings

  type Bytes = seq<bv8>

  /** Header fields in wire order, as (name, value) pairs. */
  type Headers = seq<(string, string)>

  /** What the POST returns: status code, headers and body bytes. */
  datatype RawResponse = RawResponse(statusCode: int, headers: Headers, content: Bytes)

  /** The 5xx range, where the server rather than the request is at fault. */
  predicate IsServerError(r: RawResponse)
  {
    500 <= r.statusCode <= 599
  }

  /**
   * The values of every header whose name equals `name` ignoring ASCII case,
   * in wire order.
   */
  function HeaderValues(h: Headers, name: string): (vs: seq<string>)
    ensures |vs| <= |h|
    ensures (forall i :: 0 <= i < |h| ==> Lower(h[i].0) != Lower(name)) ==> vs == []
  {
    if |h| == 0 then []
    else
      var rest := HeaderValues(h[1..], name);
      if Lower(h[0].0) == Lower(name) then [h[0].1] + rest else rest
  }

  /** Membership test of the header map: some field carries the name. */
  predicate HasHeader(h: Headers, name: string)
  {
    HeaderValues(h, name) != []
  }

  /** Item lookup of the header map: every value of the name joined by ", ". */
  function GetHeader(h: Headers, name: string): (v: string)
    ensures |HeaderValues(h, name)| == 1 ==> v == HeaderValues(h, name)[0]
  {
    Join(HeaderValues(h, name), ", ")
  }
}
