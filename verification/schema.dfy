/**
 * Tool-schema generation (`generate_tool_schema` in chat.py).
 *
 * Reflection over a Python function is replaced by its metadata: the function's
 * `__name__`, its cleaned docstring (empty when it has none) and its parameters
 * in declaration order, each with or without a default value.
 */
module ToolSchema {
  import opened Strings

  /** One declared parameter: its name and whether it has a default value. */
  datatype Param = Param(name: string, hasDefault: bool)

  predicate DistinctNames(ps: seq<Param>)
  {
    forall i, j :: 0 <= i < j < |ps| ==> ps[i].name != ps[j].name
  }

  /** A Python signature never declares two parameters of the same name. */
  type Signature = ps: seq<Param> | DistinctNames(ps) witness []

  /** What reflection reads of a function. */
  datatype FuncMeta = FuncMeta(name: string, doc: string, params: Signature)

  /** One entry of `input_schema.properties`: a parameter name and its JSON type. */
  datatype Property = Property(name: string, jsonType: string)

  /** The schema advertised to the model for one tool. */
  datatype Schema = Schema(
    name: string,
    description: string,
    inputType: string,
    properties: seq<Property>,
    required: seq<string>)

  /** The implicit receiver of a bound method, which is never advertised. */
  const Receiver := "self"
  /** Every parameter is advertised as a string. */
  const ParamType := "string"
  const InputType := "object"

  /** The advertised properties of the parameters `ps`, in declaration order. */
  function PropertiesOf(ps: seq<Param>): (r: seq<Property>)
    ensures |r| <= |ps|
  {
    if ps == [] then []
    else
      var p := ps[|ps| - 1];
      PropertiesOf(ps[..|ps| - 1]) + (if p.name == Receiver then [] else [Property(p.name, ParamType)])
  }

  /** The names of the parameters `ps` a call must supply, in declaration order. */
  function RequiredOf(ps: seq<Param>): seq<string>
  {
    if ps == [] then []
    else
      var p := ps[|ps| - 1];
      RequiredOf(ps[..|ps| - 1]) + (if p.name == Receiver || p.hasDefault then [] else [p.name])
  }

  function PropertyNames(props: seq<Property>): (r: seq<string>)
    ensures |r| == |props| && forall i :: 0 <= i < |props| ==> r[i] == props[i].name
  {
    if props == [] then [] else PropertyNames(props[..|props| - 1]) + [props[|props| - 1].name]
  }

  function ParamNames(ps: seq<Param>): seq<string>
  {
    seq(|ps|, i requires 0 <= i < |ps| => ps[i].name)
  }

  /** The description: the docstring's first line, or `Execute <name>` without a docstring. */
  function Description(meta: FuncMeta): (r: string)
    ensures meta.doc == [] ==> r == "Execute " + meta.name
    ensures meta.doc != [] ==> '\n' !in r && |r| <= |meta.doc| && r == meta.doc[..|r|] && (r == meta.doc || meta.doc[|r|] == '\n')
  {
    if meta.doc == [] then "Execute " + meta.name else FirstLine(meta.doc)
  }

  /** The schema `generate_tool_schema` returns for a function with metadata `meta`. */
  function SchemaOf(meta: FuncMeta): Schema
  {
    Schema(meta.name, Description(meta), InputType, PropertiesOf(meta.params), RequiredOf(meta.params))
  }

  /** `generate_tool_schema`: one pass over the parameters, skipping the receiver. */
  method GenerateToolSchema(meta: FuncMeta) returns (schema: Schema)
    ensures schema == SchemaOf(meta)
    ensures schema.name == meta.name && schema.inputType == InputType
    ensures |schema.properties| <= |meta.params|
  {
    var ps := meta.params;
    var properties: seq<Property> := [];
    var required: seq<string> := [];
    var i := 0;
    while i < |ps|
      invariant 0 <= i <= |ps|
      invariant properties == PropertiesOf(ps[..i])
      invariant required == RequiredOf(ps[..i])
    {
      var p := ps[i];
      assert ps[..i + 1][..i] == ps[..i];
      if p.name != Receiver {
        properties := properties + [Property(p.name, ParamType)];
        if !p.hasDefault {
          required := required + [p.name];
        }
      }
      i := i + 1;
    }
    assert ps[..i] == ps;
    schema := Schema(meta.name, Description(meta), InputType, properties, required);
  }

  /** Every advertised property is string-typed and is not the receiver. */
  lemma {:induction false} PropertiesAreStrings(ps: seq<Param>)
    ensures forall k :: 0 <= k < |PropertiesOf(ps)| ==>
      PropertiesOf(ps)[k].jsonType == ParamType && PropertiesOf(ps)[k].name != Receiver
  {
    if ps != [] {
      var init, p := ps[..|ps| - 1], ps[|ps| - 1];
      PropertiesAreStrings(init);
      assert PropertiesOf(ps) == PropertiesOf(init) + (if p.name == Receiver then [] else [Property(p.name, ParamType)]);
    }
  }

  /** The properties follow the declaration order of the parameters. */
  lemma {:induction false} PropertiesInDeclarationOrder(ps: seq<Param>)
    ensures IsSubsequence(PropertyNames(PropertiesOf(ps)), ParamNames(ps))
  {
    if ps != [] {
      var init, p := ps[..|ps| - 1], ps[|ps| - 1];
      PropertiesInDeclarationOrder(init);
      var names := PropertyNames(PropertiesOf(init));
      assert ParamNames(ps) == ParamNames(init) + [p.name];
      if p.name == Receiver {
        assert PropertiesOf(ps) == PropertiesOf(init);
        SubsequenceExtend(names, ParamNames(init), p.name);
      } else {
        assert PropertiesOf(ps) == PropertiesOf(init) + [Property(p.name, ParamType)];
        assert PropertyNames(PropertiesOf(ps)) == names + [p.name];
        assert (names + [p.name])[..|names|] == names;
        assert ParamNames(ps)[..|ps| - 1] == ParamNames(init);
      }
    }
  }

  /** A name is advertised exactly when some parameter other than the receiver has it. */
  lemma {:induction false} PropertiesExact(ps: seq<Param>, n: string)
    ensures n in PropertyNames(PropertiesOf(ps)) <==> n != Receiver && n in ParamNames(ps)
  {
    if ps != [] {
      var init, p := ps[..|ps| - 1], ps[|ps| - 1];
      PropertiesExact(init, n);
      assert ParamNames(ps) == ParamNames(init) + [p.name];
      if p.name != Receiver {
        assert PropertiesOf(ps) == PropertiesOf(init) + [Property(p.name, ParamType)];
        assert PropertyNames(PropertiesOf(ps)) == PropertyNames(PropertiesOf(init)) + [p.name];
      } else {
        assert PropertiesOf(ps) == PropertiesOf(init);
      }
    }
  }

  /** A name is required exactly when a parameter other than the receiver has it and no default. */
  lemma {:induction false} RequiredExact(ps: seq<Param>, n: string)
    ensures n in RequiredOf(ps) <==>
      n != Receiver && exists i :: 0 <= i < |ps| && ps[i].name == n && !ps[i].hasDefault
  {
    if ps != [] {
      var init, p := ps[..|ps| - 1], ps[|ps| - 1];
      RequiredExact(init, n);
      if exists i :: 0 <= i < |ps| && ps[i].name == n && !ps[i].hasDefault {
        var i :| 0 <= i < |ps| && ps[i].name == n && !ps[i].hasDefault;
        if i < |init| {
          assert init[i] == ps[i];
        }
      }
      if exists i :: 0 <= i < |init| && init[i].name == n && !init[i].hasDefault {
        var i :| 0 <= i < |init| && init[i].name == n && !init[i].hasDefault;
        assert ps[i] == init[i];
      }
    }
  }

  /** `required` lists the required names in the order the properties list them. */
  lemma {:induction false} RequiredInPropertyOrder(ps: seq<Param>)
    ensures IsSubsequence(RequiredOf(ps), PropertyNames(PropertiesOf(ps)))
  {
    if ps != [] {
      var init, p := ps[..|ps| - 1], ps[|ps| - 1];
      RequiredInPropertyOrder(init);
      var names := PropertyNames(PropertiesOf(init));
      if p.name == Receiver {
        assert PropertiesOf(ps) == PropertiesOf(init);
        assert RequiredOf(ps) == RequiredOf(init);
      } else {
        assert PropertiesOf(ps) == PropertiesOf(init) + [Property(p.name, ParamType)];
        assert PropertyNames(PropertiesOf(ps)) == names + [p.name];
        if p.hasDefault {
          assert RequiredOf(ps) == RequiredOf(init);
          SubsequenceExtend(RequiredOf(init), names, p.name);
        } else {
          var req := RequiredOf(ps);
          assert req == RequiredOf(init) + [p.name];
          assert req[..|req| - 1] == RequiredOf(init);
          assert (names + [p.name])[..|names|] == names;
        }
      }
    }
  }

  /** The schema of a function names it, and its properties and `required` list follow its parameters. */
  lemma SchemaOfFunction(meta: FuncMeta, n: string)
    ensures SchemaOf(meta).name == meta.name && SchemaOf(meta).inputType == InputType
    ensures n in PropertyNames(SchemaOf(meta).properties) <==> n != Receiver && n in ParamNames(meta.params)
    ensures n in SchemaOf(meta).required <==>
      n != Receiver && exists i :: 0 <= i < |meta.params| && meta.params[i].name == n && !meta.params[i].hasDefault
    ensures IsSubsequence(SchemaOf(meta).required, PropertyNames(SchemaOf(meta).properties))
  {
    PropertiesExact(meta.params, n);
    RequiredExact(meta.params, n);
    RequiredInPropertyOrder(meta.params);
  }
}
