/** The top-level document of a serialized DAG: `{"__version": 1, "dag": ...}`,
    checked against the DAG JSON schema on the way out and gated on the
    version on the way in. */
module Document {
  import opened Wire
  import opened Values
  import opened Encode
  import opened Decode

  /** A JSON schema, as the predicate its validator decides. */
  type Schema = Wire -> bool

  /** `validate_schema`: a class without a schema cannot validate; a dict is
      checked as it is, a string after JSON parsing (`parse`, `None` when the
      text is not JSON); any other value is refused. */
  function ValidateSchema(schema: Option<Schema>, obj: Wire, parse: string -> Option<Wire>): (r: Result<bool>)
    ensures r.Ok? ==> schema.Some? && (obj.WObj? || obj.WStr?)
    ensures schema.Some? && obj.WObj? ==> (r.Ok? <==> schema.value(obj))
    ensures schema.None? ==> r == Err(SchemaNotSet)
  {
    if schema.None? then Err(SchemaNotSet)
    else if obj.WObj? then Check(schema.value, obj)
    else if obj.WStr? then
      var w :- Need(parse(obj.s), ValueError("not JSON"));
      Check(schema.value, w)
    else Err(TypeError("Invalid type: Only dict and str are supported."))
  }

  function Check(schema: Schema, w: Wire): (r: Result<bool>)
  {
    if schema(w) then Ok(true) else Err(SchemaViolation)
  }

  /** The JSON text of a dict argument is never parsed. */
  function NoText(s: string): Option<Wire> {
    None
  }

  /** `SerializedDAG.to_dict`: the versioned document, validated against the
      DAG schema, which is always set. */
  function ToDict(ctx: Ctx, d: Dag, schema: Schema): (r: Result<Wire>)
    ensures r.Ok? ==> r.value.WObj? && schema(r.value)
                      && Lookup(r.value.fields, "__version") == Some(WInt(SERIALIZER_VERSION))
                      && Lookup(r.value.fields, "dag") == Some(SerializeDag(ctx, d))
    ensures r.Err? ==> r.error == SchemaViolation
    ensures var doc := WObj([WField("__version", WInt(SERIALIZER_VERSION)), WField("dag", SerializeDag(ctx, d))]);
            (r.Ok? <==> schema(doc)) && (r.Ok? ==> r.value == doc)
  {
    var doc := WObj([WField("__version", WInt(SERIALIZER_VERSION)), WField("dag", SerializeDag(ctx, d))]);
    var valid :- ValidateSchema(Some(schema), doc, NoText);
    Ok(doc)
  }

  /** The version a document declares counts as `SERIALIZER_VERSION` when
      Python's `==` says so (`True == 1`). */
  predicate KnownVersion(ver: Option<Wire>) {
    ver == Some(WInt(SERIALIZER_VERSION)) || ver == Some(WBool(true))
  }

  /** `SerializedDAG.from_dict`: the version gate, then `deserialize_dag` of
      the `dag` entry. */
  function FromDict(ctx: Ctx, obj: Wire): (r: Result<Dag>)
    ensures r.Ok? ==> obj.WObj? && KnownVersion(Lookup(obj.fields, "__version"))
                      && Lookup(obj.fields, "dag").Some?
                      && r == DagFromPayload(ctx, Lookup(obj.fields, "dag").value)
    ensures obj.WObj? && !KnownVersion(Lookup(obj.fields, "__version")) ==>
              r == Err(UnsupportedVersion(Lookup(obj.fields, "__version")))
    ensures obj.WObj? && KnownVersion(Lookup(obj.fields, "__version")) ==>
              match Lookup(obj.fields, "dag")
              case Some(p) => r == DagFromPayload(ctx, p)
              case None => r == Err(KeyError("dag"))
    ensures !obj.WObj? ==> r == Err(AttributeError("get"))
  {
    if !obj.WObj? then Err(AttributeError("get"))
    else
      var ver := Lookup(obj.fields, "__version");
      if !KnownVersion(ver) then Err(UnsupportedVersion(ver))
      else
        var p :- Need(Lookup(obj.fields, "dag"), KeyError("dag"));
        DagFromPayload(ctx, p)
  }

  /** What `to_dict` produces, `from_dict` reads back as the `dag` payload
      `serialize_dag` wrote. */
  lemma DocumentRoundTrip(ctx: Ctx, d: Dag, schema: Schema)
    requires ToDict(ctx, d, schema).Ok?
    ensures FromDict(ctx, ToDict(ctx, d, schema).value) == DagFromPayload(ctx, SerializeDag(ctx, d))
  {
    var doc := ToDict(ctx, d, schema).value;
    assert KnownVersion(Lookup(doc.fields, "__version"));
  }
}
