/** What the three route handlers share: the request as parsed and the response they build. */
module Routes {
  import opened Wrappers
  import opened Json

  /** The request body after `await request.json()`: valid JSON or not. */
  datatype Request = Unparsable | Body(json: Json)

  /** A `NextResponse.json(body, { status })`. */
  datatype Response = Response(status: int, body: Json)

  /**
   * `const { key } = await request.json()`: the field read, or `None` when
   * this line throws (the body is not JSON, or it is `null`).
   */
  function ReadField(req: Request, key: string): (r: Option<Field>)
    ensures r == None <==> req == Unparsable || req == Body(JNull)
  {
    match req
    case Unparsable => None
    case Body(json) => Destructure(json, key)
  }

  /** A member with a different key, inserted anywhere in the body, does not change what is read. */
  lemma OtherMemberIgnored(front: seq<(string, Json)>, back: seq<(string, Json)>, key: string, other: string, v: Json)
    requires other != key
    ensures ReadField(Body(JObject(front + [(other, v)] + back)), key) == ReadField(Body(JObject(front + back)), key)
  {
    GetIgnoresOther(front, back, other, v, key);
  }

  /** Where the three pieces of a text built as `a + b + c` sit, as the routes' canned lines are. */
  lemma Pieces(a: string, b: string, c: string)
    ensures (a + b + c)[..|a|] == a
    ensures (a + b + c)[|a|..|a| + |b|] == b
    ensures (a + b + c)[|a| + |b|..] == c
  {
  }
}
