/** Translation of tool schemas into the provider's strict function-calling
    format: one function entry per tool, a closed parameters object, and a
    `required` list that names every property. */
module OpenAIToolConverter {
  import opened Enums
  import opened ToolBase

  /** `input_type_to_openai_type`: the JSON-schema type name of an input type. */
  function OpenAITypeOf(t: InputType): (r: string)
    ensures r in {"string", "integer", "number", "boolean", "array", "object"}
    ensures r == "string" <==> t == String || t == Any
    ensures r == "object" <==> t == Dict
    ensures r == "array" <==> t == List
  {
    match t
    case String => "string"
    case Integer => "integer"
    case Float => "number"
    case Boolean => "boolean"
    case List => "array"
    case Dict => "object"
    case Any => "string"
  }

  /** Two input types map to the same schema type exactly when they are equal,
      or both are among STRING and ANY. */
  lemma OpenAITypeOfCollapsesOnlyAnyToString(t: InputType, u: InputType)
    ensures OpenAITypeOf(t) == OpenAITypeOf(u) <==> t == u || (t in {String, Any} && u in {String, Any})
    ensures OpenAITypeOf(t) in {"string", "integer", "number", "boolean", "array", "object"}
  {
  }

  /** The keys a property carries beyond `type` and `description`:
      `additionalProperties: false` with `properties: {}` for objects,
      `items: {type: "string"}` for arrays. */
  datatype PropertyExtra = NoExtra | ClosedObject | StringItems

  datatype Property = Property(jsonType: string, description: string, extra: PropertyExtra)

  /** A `properties` dict: keys in insertion order. */
  type Properties = seq<(string, Property)>

  datatype Parameters = Parameters(schemaType: string, properties: Properties, required: seq<string>, additionalProperties: bool)

  datatype FunctionDef = FunctionDef(name: string, description: string, parameters: Parameters)

  /** One entry of the converted tool list; name, description and parameters are
      repeated at top level beside the nested `function` record. */
  datatype OpenAIFunction = OpenAIFunction(
    kind: string, def: FunctionDef, name: string, description: string, parameters: Parameters, strict: bool)

  /** The property one input contributes. */
  function PropertyFor(input: ToolInput): Property
  {
    var jsonType := OpenAITypeOf(input.inputType);
    Property(jsonType, input.description,
             if jsonType == "object" then ClosedObject else if jsonType == "array" then StringItems else NoExtra)
  }

  /** A property is well shaped when it carries the object extras exactly when it
      is an object and the array extras exactly when it is an array. */
  predicate WellShaped(p: Property)
  {
    && (p.extra == ClosedObject <==> p.jsonType == "object")
    && (p.extra == StringItems <==> p.jsonType == "array")
  }

  function Keys(props: Properties): (ks: seq<string>)
    ensures |ks| == |props| && forall j :: 0 <= j < |props| ==> ks[j] == props[j].0
  {
    seq(|props|, j requires 0 <= j < |props| => props[j].0)
  }

  function Names(inputs: seq<ToolInput>): (ns: seq<string>)
    ensures |ns| == |inputs| && forall i :: 0 <= i < |inputs| ==> ns[i] == inputs[i].name
  {
    seq(|inputs|, i requires 0 <= i < |inputs| => inputs[i].name)
  }

  predicate NoDuplicates(s: seq<string>)
  {
    forall i, j :: 0 <= i < j < |s| ==> s[i] != s[j]
  }

  /** The position of the first occurrence of `k` in `s`. */
  function IndexOf(s: seq<string>, k: string): (i: nat)
    requires k in s
    ensures i < |s| && s[i] == k && forall j :: 0 <= j < i ==> s[j] != k
  {
    if s[0] == k then 0 else 1 + IndexOf(s[1..], k)
  }

  /** Dict assignment `props[k] = v`: an existing key keeps its position and takes
      the new value; a new key goes at the end. */
  function Put(props: Properties, k: string, v: Property): Properties
  {
    var ks := Keys(props);
    if k in ks then props[IndexOf(ks, k) := (k, v)] else props + [(k, v)]
  }

  /** The `properties` dict built from the inputs, one assignment per input in order. */
  function PropertiesOf(inputs: seq<ToolInput>): Properties
  {
    if inputs == [] then []
    else
      var last := inputs[|inputs| - 1];
      Put(PropertiesOf(inputs[..|inputs| - 1]), last.name, PropertyFor(last))
  }

  /** The converted entry for one tool. */
  function FunctionFor(tool: Tool): OpenAIFunction
  {
    var properties := PropertiesOf(tool.inputs);
    var parameters := Parameters("object", properties, Keys(properties), false);
    OpenAIFunction("function", FunctionDef(tool.name, tool.description, parameters),
                   tool.name, tool.description, parameters, true)
  }

  /** The converted list, entry by entry. */
  function ConvertAll(tools: seq<Tool>): (r: seq<OpenAIFunction>)
    ensures |r| == |tools| && forall i :: 0 <= i < |tools| ==> r[i] == FunctionFor(tools[i])
  {
    seq(|tools|, i requires 0 <= i < |tools| => FunctionFor(tools[i]))
  }

  /** The shape of one converted entry: a strict function whose name and
      description are the tool's, repeated beside the nested record, over a
      closed object schema that requires every property it declares. */
  predicate EntryFor(f: OpenAIFunction, tool: Tool)
  {
    && f.kind == "function" && f.strict
    && f.name == f.def.name == tool.name
    && f.description == f.def.description == tool.description
    && f.parameters == f.def.parameters
    && f.parameters.schemaType == "object" && !f.parameters.additionalProperties
    && f.parameters.properties == PropertiesOf(tool.inputs)
    && f.parameters.required == Keys(f.parameters.properties)
  }

  /** `convert_tools_to_openai`. */
  method ConvertToolsToOpenAI(tools: seq<Tool>) returns (r: seq<OpenAIFunction>)
    ensures |r| == |tools| && forall i :: 0 <= i < |tools| ==> EntryFor(r[i], tools[i])
    ensures r == ConvertAll(tools)
  {
    r := [];
    for t := 0 to |tools|
      invariant |r| == t
      invariant forall i :: 0 <= i < t ==> r[i] == FunctionFor(tools[i])
    {
      var tool := tools[t];
      var properties: Properties := [];
      for j := 0 to |tool.inputs|
        invariant properties == PropertiesOf(tool.inputs[..j])
      {
        var input := tool.inputs[j];
        var openaiType := OpenAITypeOf(input.inputType);
        var extra := NoExtra;
        if openaiType == "object" {
          extra := ClosedObject;
        } else if openaiType == "array" {
          extra := StringItems;
        }
        assert Property(openaiType, input.description, extra) == PropertyFor(input);
        PropertiesOfPrefix(tool.inputs, j);
        properties := Put(properties, input.name, Property(openaiType, input.description, extra));
      }
      assert tool.inputs[..|tool.inputs|] == tool.inputs;
      var required := Keys(properties);
      var parameters := Parameters("object", properties, required, false);
      r := r + [OpenAIFunction("function", FunctionDef(tool.name, tool.description, parameters),
                               tool.name, tool.description, parameters, true)];
    }
  }

  /** One more input is one more assignment to the dict. */
  lemma PropertiesOfPrefix(inputs: seq<ToolInput>, j: int)
    requires 0 <= j < |inputs|
    ensures PropertiesOf(inputs[..j + 1]) == Put(PropertiesOf(inputs[..j]), inputs[j].name, PropertyFor(inputs[j]))
  {
    assert inputs[..j + 1][..j] == inputs[..j];
  }

  // ---------------------------------------------------------------------------
  // Properties of the `properties` dict

  lemma PutKeys(props: Properties, k: string, v: Property)
    ensures Keys(Put(props, k, v)) == if k in Keys(props) then Keys(props) else Keys(props) + [k]
  {
  }

  /** The keys of the dict are the names of the first occurrences, in order. */
  function FirstOccurrences(s: seq<string>): seq<string>
  {
    if s == [] then []
    else
      var init := s[..|s| - 1];
      FirstOccurrences(init) + if s[|s| - 1] in init then [] else [s[|s| - 1]]
  }

  lemma {:induction false} FirstOccurrencesMembers(s: seq<string>)
    ensures forall k :: k in FirstOccurrences(s) <==> k in s
    ensures NoDuplicates(FirstOccurrences(s))
  {
    if s != [] {
      var init := s[..|s| - 1];
      FirstOccurrencesMembers(init);
      assert s == init + [s[|s| - 1]];
    }
  }

  /** The keys of the dict follow the input names, first occurrences only. */
  lemma {:induction false} KeysFollowNames(inputs: seq<ToolInput>)
    ensures Keys(PropertiesOf(inputs)) == FirstOccurrences(Names(inputs))
  {
    if inputs != [] {
      var n := |inputs| - 1;
      var init := inputs[..n];
      var names, before := Names(inputs), Names(init);
      KeysFollowNames(init);
      FirstOccurrencesMembers(before);
      assert before == names[..n];
      PutKeys(PropertiesOf(init), inputs[n].name, PropertyFor(inputs[n]));
      assert FirstOccurrences(names) == FirstOccurrences(before) + if names[n] in before then [] else [names[n]];
    }
  }

  /** Duplicate input names collapse to one key, kept at the position of the
      first occurrence; every declared name is a key, and no key appears twice. */
  lemma PropertyKeysAreFirstOccurrences(inputs: seq<ToolInput>)
    ensures Keys(PropertiesOf(inputs)) == FirstOccurrences(Names(inputs))
    ensures NoDuplicates(Keys(PropertiesOf(inputs)))
    ensures forall k :: k in Keys(PropertiesOf(inputs)) <==> exists i :: 0 <= i < |inputs| && inputs[i].name == k
  {
    var names := Names(inputs);
    KeysFollowNames(inputs);
    FirstOccurrencesMembers(names);
    forall k
      ensures k in names <==> exists i :: 0 <= i < |inputs| && inputs[i].name == k
    {
      if k in names {
        var i :| 0 <= i < |names| && names[i] == k;
        assert inputs[i].name == k;
      }
    }
  }

  /** The largest index of an input with name `k`, or -1. */
  function LastNamed(inputs: seq<ToolInput>, k: string): (i: int)
    ensures -1 <= i < |inputs|
    ensures i >= 0 ==> inputs[i].name == k
    ensures forall j :: i < j < |inputs| ==> inputs[j].name != k
  {
    if inputs == [] then -1
    else if inputs[|inputs| - 1].name == k then |inputs| - 1
    else LastNamed(inputs[..|inputs| - 1], k)
  }

  /** Assigning `k` on a dict without duplicate keys: the entry for `k` holds `v`
      and every other entry stays where it was. */
  lemma PutEntries(props: Properties, k: string, v: Property)
    requires NoDuplicates(Keys(props))
    ensures forall j :: 0 <= j < |Put(props, k, v)| ==>
      && (Put(props, k, v)[j].0 == k ==> Put(props, k, v)[j].1 == v)
      && (Put(props, k, v)[j].0 != k ==> j < |props| && Put(props, k, v)[j] == props[j])
  {
  }

  lemma PropertyForIsWellShaped(input: ToolInput)
    ensures WellShaped(PropertyFor(input))
  {
  }

  /** Each key holds the property of the LAST input with that name (later
      assignments overwrite earlier ones), and every property is well shaped. */
  lemma {:induction false} PropertyValuesAreLastWrites(inputs: seq<ToolInput>)
    ensures forall j :: 0 <= j < |PropertiesOf(inputs)| ==>
      var i := LastNamed(inputs, PropertiesOf(inputs)[j].0);
      0 <= i && PropertiesOf(inputs)[j].1 == PropertyFor(inputs[i]) && WellShaped(PropertiesOf(inputs)[j].1)
  {
    if inputs != [] {
      var n := |inputs| - 1;
      var init := inputs[..n];
      PropertyValuesAreLastWrites(init);
      PropertyKeysAreFirstOccurrences(init);
      var before := PropertiesOf(init);
      var after := PropertiesOf(inputs);
      PutEntries(before, inputs[n].name, PropertyFor(inputs[n]));
      PropertyForIsWellShaped(inputs[n]);
      forall j | 0 <= j < |after|
        ensures var i := LastNamed(inputs, after[j].0);
                0 <= i && after[j].1 == PropertyFor(inputs[i]) && WellShaped(after[j].1)
      {
        var key := after[j].0;
        if key != inputs[n].name {
          assert after[j] == before[j];
          assert LastNamed(inputs, key) == LastNamed(init, key);
        }
      }
    }
  }

  /** With distinct input names, the dict has one entry per input, in input order. */
  lemma {:induction false} DistinctNamesKeepEveryInput(inputs: seq<ToolInput>)
    requires NoDuplicates(Names(inputs))
    ensures |PropertiesOf(inputs)| == |inputs|
    ensures forall i :: 0 <= i < |inputs| ==> PropertiesOf(inputs)[i] == (inputs[i].name, PropertyFor(inputs[i]))
  {
    if inputs != [] {
      var n := |inputs| - 1;
      var init := inputs[..n];
      assert Names(init) == Names(inputs)[..n];
      DistinctNamesKeepEveryInput(init);
      assert Keys(PropertiesOf(init)) == Names(init);
      assert forall j :: 0 <= j < n ==> Names(init)[j] != inputs[n].name by {
        forall j | 0 <= j < n ensures Names(init)[j] != inputs[n].name {
          assert Names(inputs)[j] != Names(inputs)[n];
        }
      }
    }
  }

  /** The `required` flags play no part in the conversion: tools that differ only
      in those flags convert to the same entry, whose `required` lists every key. */
  lemma {:induction false} RequiredFlagIsIgnored(a: seq<ToolInput>, b: seq<ToolInput>)
    requires |a| == |b|
    requires forall i :: 0 <= i < |a| ==> a[i].(required := true) == b[i].(required := true)
    ensures PropertiesOf(a) == PropertiesOf(b)
  {
    if a != [] {
      var n := |a| - 1;
      RequiredFlagIsIgnored(a[..n], b[..n]);
      assert a[n].name == b[n].name && PropertyFor(a[n]) == PropertyFor(b[n]) by {
        assert a[n].(required := true) == b[n].(required := true);
      }
    }
  }

  /** Converting tools whose inputs differ only in `required` flags gives equal
      lists; every converted entry requires exactly its property keys. */
  lemma ConversionIgnoresRequiredFlags(s: seq<Tool>, t: seq<Tool>)
    requires |s| == |t|
    requires forall i :: 0 <= i < |s| ==>
      && s[i].name == t[i].name && s[i].description == t[i].description
      && |s[i].inputs| == |t[i].inputs|
      && forall j :: 0 <= j < |s[i].inputs| ==> s[i].inputs[j].(required := true) == t[i].inputs[j].(required := true)
    ensures ConvertAll(s) == ConvertAll(t)
    ensures forall i :: 0 <= i < |s| ==> ConvertAll(s)[i].parameters.required == Keys(ConvertAll(s)[i].parameters.properties)
  {
    forall i | 0 <= i < |s| ensures FunctionFor(s[i]) == FunctionFor(t[i]) {
      RequiredFlagIsIgnored(s[i].inputs, t[i].inputs);
    }
  }
}
