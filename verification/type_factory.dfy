/** The type-resolution dispatcher: a chain of processors tried in a fixed
    order, the first one that claims a property node deciding its type, and an
    "unknown type" error value when none does.

    The six concrete processors are not part of this model: a processor is
    any function from a node and its type name to an optional type, together
    with whether it flagged an error itself while looking at the node. */
module TypeFactory {
  import opened Wrappers
  import opened Types

  /** What one processor's `consume` produced: a type when it claims the
      node (`None` for `null`), and whether it set the error flag. */
  datatype Consumed = Consumed(result: Option<PropertyType>, raised: bool)

  type Processor = (SwaggerSchemaProperty, string) -> Consumed

  /** A translated type and the error flag after the translation. */
  datatype Typed = Typed(propertyType: PropertyType, hasErrors: bool)

  predicate Claims(p: Processor, node: SwaggerSchemaProperty, typeName: string) {
    p(node, typeName).result.Some?
  }

  /** Some processor before position `i` claims the node, so the chain never
      reaches position `i`. */
  predicate ClaimedBefore(procs: seq<Processor>, i: int, node: SwaggerSchemaProperty, typeName: string)
    requires 0 <= i <= |procs|
  {
    exists j :: 0 <= j < i && Claims(procs[j], node, typeName)
  }

  const UnknownTypePrefix := "Unknown type or property "

  /** The fallback diagnostic; `serialized` is the node's JSON text. */
  function UnknownTypeMessage(serialized: string, typeName: string): string {
    UnknownTypePrefix + serialized + " " + typeName
  }

  /** The fallback message names the node's text and ends with the type name. */
  lemma UnknownTypeMessageShape(serialized: string, typeName: string)
    ensures var m := UnknownTypeMessage(serialized, typeName);
      && |m| == |UnknownTypePrefix| + |serialized| + 1 + |typeName|
      && m[..|UnknownTypePrefix|] == UnknownTypePrefix
      && m[|UnknownTypePrefix|..|UnknownTypePrefix| + |serialized|] == serialized
      && m[|m| - |typeName| - 1..] == " " + typeName
  {
  }

  /** `translateType`: asks each processor in order and returns the first
      claimed type; when none claims the node, sets the error flag and returns
      an error value. `serialize` renders a node as JSON text. */
  function TranslateType(
    procs: seq<Processor>,
    serialize: SwaggerSchemaProperty -> string,
    node: SwaggerSchemaProperty,
    typeName: string,
    hasErrors: bool
  ): (r: Typed)
    // first match: the first claiming processor decides the type
    ensures forall i ::
              0 <= i < |procs| && Claims(procs[i], node, typeName) && !ClaimedBefore(procs, i, node, typeName) ==>
                r.propertyType == procs[i](node, typeName).result.value
    // fallback: nobody claims the node
    ensures !ClaimedBefore(procs, |procs|, node, typeName)
      ==> r.propertyType == ErrorType(UnknownTypeMessage(serialize(node), typeName)) && r.hasErrors
    // the flag afterwards: set before, set by a processor the chain reached, or set by the fallback
    ensures r.hasErrors <==>
      || hasErrors
      || !ClaimedBefore(procs, |procs|, node, typeName)
      || exists i :: 0 <= i < |procs| && procs[i](node, typeName).raised && !ClaimedBefore(procs, i, node, typeName)
    decreases |procs|
  {
    if |procs| == 0 then
      Typed(ErrorType(UnknownTypeMessage(serialize(node), typeName)), true)
    else
      var c := procs[0](node, typeName);
      if c.result.Some? then
        Typed(c.result.value, hasErrors || c.raised)
      else
        var rest := procs[1..];
        assert forall i :: 0 <= i < |rest| ==> rest[i] == procs[i + 1];
        assert forall i :: 0 <= i <= |rest| ==>
          (ClaimedBefore(rest, i, node, typeName) <==> ClaimedBefore(procs, i + 1, node, typeName));
        TranslateType(rest, serialize, node, typeName, hasErrors || c.raised)
  }

  /** With no processors every node falls back to the error value. */
  lemma EmptyChainFallsBack(serialize: SwaggerSchemaProperty -> string, node: SwaggerSchemaProperty, typeName: string, hasErrors: bool)
    ensures TranslateType([], serialize, node, typeName, hasErrors)
      == Typed(ErrorType(UnknownTypeMessage(serialize(node), typeName)), true)
  {
  }

  /** On the match path the dispatcher adds no error of its own: when the
      processors it reaches raise nothing, the flag comes out as it went in,
      and the type is one a processor produced. */
  lemma MatchKeepsFlag(procs: seq<Processor>, serialize: SwaggerSchemaProperty -> string, node: SwaggerSchemaProperty, typeName: string, hasErrors: bool)
    requires ClaimedBefore(procs, |procs|, node, typeName)
    requires forall i :: 0 <= i < |procs| ==> !procs[i](node, typeName).raised
    ensures TranslateType(procs, serialize, node, typeName, hasErrors).hasErrors == hasErrors
    ensures exists i ::
              && 0 <= i < |procs|
              && procs[i](node, typeName).result == Some(TranslateType(procs, serialize, node, typeName, hasErrors).propertyType)
  {
    var r := TranslateType(procs, serialize, node, typeName, hasErrors);
    var i :| 0 <= i < |procs| && Claims(procs[i], node, typeName);
    FirstClaim(procs, node, typeName, i);
  }

  /** Whenever some processor claims a node, a first one does. */
  lemma {:induction false} FirstClaim(procs: seq<Processor>, node: SwaggerSchemaProperty, typeName: string, i: int)
    requires 0 <= i < |procs| && Claims(procs[i], node, typeName)
    ensures exists k :: 0 <= k <= i && Claims(procs[k], node, typeName) && !ClaimedBefore(procs, k, node, typeName)
  {
    if ClaimedBefore(procs, i, node, typeName) {
      var j :| 0 <= j < i && Claims(procs[j], node, typeName);
      FirstClaim(procs, node, typeName, j);
    }
  }

  /** Processors after a claiming one are never consulted: appending any
      processors to a chain that already claims the node changes nothing. */
  lemma {:induction false} LaterProcessorsIgnored(
    procs: seq<Processor>, rest: seq<Processor>,
    serialize: SwaggerSchemaProperty -> string, node: SwaggerSchemaProperty, typeName: string, hasErrors: bool)
    requires ClaimedBefore(procs, |procs|, node, typeName)
    ensures TranslateType(procs + rest, serialize, node, typeName, hasErrors)
      == TranslateType(procs, serialize, node, typeName, hasErrors)
  {
    var c := procs[0](node, typeName);
    if !c.result.Some? {
      var j :| 0 <= j < |procs| && Claims(procs[j], node, typeName);
      assert j > 0;
      assert Claims(procs[1..][j - 1], node, typeName);
      assert (procs + rest)[1..] == procs[1..] + rest;
      LaterProcessorsIgnored(procs[1..], rest, serialize, node, typeName, hasErrors || c.raised);
    }
  }

  /** The six processors of the default chain. */
  datatype ProcessorSet = ProcessorSet(
    modelProcessor: Processor,
    linkProcessor: Processor,
    objectProcessor: Processor,
    enumProcessor: Processor,
    arrayProcessor: Processor,
    basicProcessor: Processor)

  /** The default order: Model, Link, Object, Enum, Array, Basic. */
  function DefaultTypeProcessors(ps: ProcessorSet): seq<Processor> {
    [ps.modelProcessor, ps.linkProcessor, ps.objectProcessor, ps.enumProcessor, ps.arrayProcessor, ps.basicProcessor]
  }

  /** Under the default order a node the Model processor claims gets the
      Model processor's type, whatever the Object processor (or any other
      later processor) would have said: it is never handed to them. */
  lemma ModelBeforeObject(
    ps: ProcessorSet, objectProcessor: Processor,
    serialize: SwaggerSchemaProperty -> string, node: SwaggerSchemaProperty, typeName: string, hasErrors: bool)
    requires Claims(ps.modelProcessor, node, typeName)
    ensures var c := ps.modelProcessor(node, typeName);
      TranslateType(DefaultTypeProcessors(ps), serialize, node, typeName, hasErrors)
        == Typed(c.result.value, hasErrors || c.raised)
    ensures TranslateType(DefaultTypeProcessors(ps.(objectProcessor := objectProcessor)), serialize, node, typeName, hasErrors)
      == TranslateType(DefaultTypeProcessors(ps), serialize, node, typeName, hasErrors)
  {
  }
}
