/**
 * Provider plugins: per-backend default operation arguments and the canonical,
 * hashable form of an element identifier.
 */
module Provider {
  import opened JsonValue

  /** The three provider classes of the driver. */
  datatype ProviderKind = BaseProvider | TinkerGraph | JanusGraph

  /** The class attribute `DEFAULT_OP_ARGS`; no provider overrides the empty one. */
  function DefaultOpArgsTable(p: ProviderKind): map<string, Json> {
    map[]
  }

  /** `cls.DEFAULT_OP_ARGS.get(processor, dict())` for a table `defaults`. */
  function DefaultOpArgs(defaults: map<string, Json>, processor: string): (r: Json)
    ensures processor in defaults ==> r == defaults[processor]
    ensures processor !in defaults ==> r == Obj(map[])
  {
    if processor in defaults then defaults[processor] else Obj(map[])
  }

  /** `Provider.get_default_op_args`: every provider of the driver answers with an empty dict. */
  function GetDefaultOpArgs(p: ProviderKind, processor: string): (r: Json)
    ensures r == Obj(map[])
    ensures !Truthy(r)
  {
    DefaultOpArgs(DefaultOpArgsTable(p), processor)
  }

  /** `TinkerGraph.get_hashable_id`: identifiers are already hashable and pass through. */
  function TinkerGraphHashableId(v: Json): (r: Json)
    ensures r == v
  {
    v
  }

  const RelationIdentifierType: string := "janusgraph:RelationIdentifier"

  /**
   * A JanusGraph edge identifier in GraphSON form:
   * `{"@type": "janusgraph:RelationIdentifier", "@value": {"relationId": <truthy>, ...}, ...}`.
   */
  predicate IsRelationIdentifier(v: Json) {
    && v.Obj?
    && Get(v.fields, "@type") == Str(RelationIdentifierType)
    && Get(v.fields, "@value").Obj?
    && Truthy(Get(Get(v.fields, "@value").fields, "relationId"))
  }

  /** The `relationId` inside a relation identifier. */
  function RelationId(v: Json): (r: Json)
    requires IsRelationIdentifier(v)
    ensures Truthy(r)
  {
    Get(Get(v.fields, "@value").fields, "relationId")
  }

  /**
   * `JanusGraph.get_hashable_id`: a relation identifier is replaced by its `relationId`;
   * every other value (not a dict, wrong or missing `@type`, `@value` missing or not a
   * dict, `relationId` missing or falsy) is returned as it is.
   */
  function JanusGraphHashableId(v: Json): (r: Json)
    ensures IsRelationIdentifier(v) ==> r == RelationId(v)
    ensures !IsRelationIdentifier(v) ==> r == v
    ensures r != v ==> Truthy(r)
  {
    if !v.Obj? then v
    else
      var typeProp := Get(v.fields, "@type");
      if typeProp != Str(RelationIdentifierType) then v
      else
        var valProp := Get(v.fields, "@value");
        if !valProp.Obj? then v
        else
          var relProp := Get(valProp.fields, "relationId");
          if !Truthy(relProp) then v
          else relProp
  }

  /** Canonicalising twice changes nothing more when the identifier is a plain scalar. */
  lemma JanusGraphIdOfScalarIsStable(v: Json)
    requires IsRelationIdentifier(v)
    requires !RelationId(v).Obj?
    ensures JanusGraphHashableId(JanusGraphHashableId(v)) == JanusGraphHashableId(v)
  {
  }

  /** The canonical id of a well-formed identifier differs from the identifier itself. */
  lemma JanusGraphIdUnwraps(v: Json)
    requires IsRelationIdentifier(v)
    ensures JanusGraphHashableId(v) != v
  {
  }
}
