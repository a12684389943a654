/** The HTTP vocabulary shared by the request builders, the response handlers and the
    pager: verbs, outgoing requests, incoming responses and deserialised models. */
module Http {

  import opened Wrappers
  import CaseInsensitive

  datatype Verb = GET | PUT | PATCH | DELETE

  /** A raw request parameter: `IO`/`bytes` is sent as is, anything else is a model. */
  datatype BodyParam = RawBytes(bytes: seq<int>) | RawStream(name: string) | ModelValue(fields: string)

  /** What goes on the wire: nothing, raw content, or a serialised JSON model. */
  datatype Body = NoBody | Content(raw: BodyParam) | Json(typeName: string, fields: string)

  /** A query value as `HttpRequest` takes it: one string, or a list repeated in the query. */
  datatype QueryValue = One(s: string) | Many(values: seq<string>)

  /** An outgoing request. `url` is the URL template before path-argument substitution
      (or the absolute next-page URL); `params` are the query parameters. */
  datatype Request = Request(
    verb: Verb,
    url: string,
    params: CaseInsensitive.CIDict<QueryValue>,
    headers: CaseInsensitive.CIDict<string>,
    body: Body)

  /** An incoming response; `headers` are looked up case-insensitively. */
  datatype Response = Response(status: int, headers: CaseInsensitive.CIDict<string>, body: string)

  /** `self._deserialize(typeName, response)`: the model of the given type read from a body. */
  datatype Model = Model(typeName: string, source: string)
}
