/** JSON values and the JSON-LD `@context` wrappers every request body and
    response entity travels in. */
module Context {

  /** A JSON value (serde_json's `Value`, numbers kept as integers). */
  datatype Json =
    | JNull
    | JBool(b: bool)
    | JNumber(n: int)
    | JString(s: string)
    | JArray(items: seq<Json>)
    | JObject(members: seq<(string, Json)>)

  /** The EDC vocabulary IRI (`EDC_NAMESPACE`). It is defined in the crate
      root, which is not part of this model; nothing below depends on its
      text. */
  const EdcNamespace: string := "https://w3id.org/edc/v0.0.1/ns/"

  /** `ODRL_CONTEXT`. */
  const OdrlContext: string := "http://www.w3.org/ns/odrl.jsonld"

  /** `EDC_V4_CONTEXT`. */
  const EdcV4Context: string := "https://w3id.org/edc/connector/management/v2"

  /** The object `{"@vocab": EDC_NAMESPACE}`. */
  const VocabObject: Json := JObject([("@vocab", JString(EdcNamespace))])

  /** `DEFAULT_CONTEXT_JSON`. */
  const DefaultContextJson: Json := VocabObject

  /** `ODRL_CONTEXT_JSON`: the ODRL context, then the EDC vocabulary. */
  const OdrlContextJson: Json := JArray([JString(OdrlContext), VocabObject])

  /** `EDC_V4_CONTEXT_JSON`. */
  const EdcV4ContextJson: Json := JArray([JString(EdcV4Context)])

  /** `WithContextRef<T>` (outgoing) and `WithContext<T>` (incoming): a
      payload flattened next to its `@context`. Borrowing versus owning makes
      no difference to a value model, so one type serves both. */
  datatype WithContext<T> = WithContext(context: Json, inner: T)

  /** `WithContextRef::new` / `WithContext::new`. */
  function New<T>(context: Json, inner: T): (r: WithContext<T>)
    ensures r.context == context && r.inner == inner
  {
    WithContext(context, inner)
  }

  /** `WithContextRef::default_context`: the vocabulary object alone. */
  function DefaultContext<T>(inner: T): (r: WithContext<T>)
    ensures r.inner == inner
    ensures r.context.JObject? && r.context.members == [("@vocab", JString(EdcNamespace))]
  {
    New(DefaultContextJson, inner)
  }

  /** `WithContextRef::odrl_context`: ODRL first, then the vocabulary object. */
  function OdrlContextOf<T>(inner: T): (r: WithContext<T>)
    ensures r.inner == inner
    ensures r.context.JArray? && |r.context.items| == 2
    ensures r.context.items[0] == JString(OdrlContext) && r.context.items[1] == DefaultContextJson
  {
    New(OdrlContextJson, inner)
  }

  /** `WithContextRef::edc_v4_context`: a one-element array. */
  function EdcV4ContextOf<T>(inner: T): (r: WithContext<T>)
    ensures r.inner == inner
    ensures r.context.JArray? && r.context.items == [JString(EdcV4Context)]
  {
    New(EdcV4ContextJson, inner)
  }

  /** The three contexts are pairwise different, so the context a request
      carries tells which constructor built it. */
  lemma ContextsDistinct()
    ensures DefaultContextJson != OdrlContextJson
    ensures DefaultContextJson != EdcV4ContextJson
    ensures OdrlContextJson != EdcV4ContextJson
  {
    assert |OdrlContextJson.items| != |EdcV4ContextJson.items|;
  }

  /** Unwrapping a list of responses (`results.into_iter().map(|ctx|
      ctx.inner)`): count and order are kept. */
  function Inners<T>(results: seq<WithContext<T>>): (r: seq<T>)
    ensures |r| == |results|
    ensures forall i :: 0 <= i < |results| ==> r[i] == results[i].inner
    decreases |results|
  {
    if |results| == 0 then [] else [results[0].inner] + Inners(results[1..])
  }
}
