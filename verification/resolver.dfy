/**
  The Tekton resolver: parameter validation, and resolution, which fetches a
  template, turns the request's parameters into the template namespace and
  renders the template against it.
 */
module Resolver {
  import opened Wrappers
  import opened Strings
  import opened Model
  import opened Utils
  import opened Template

  const RepositoryParam := "repository"
  const PathParam := "path"

  // =====================================================================
  // ValidateParams
  // =====================================================================

  /** Whether some parameter carries the name. */
  predicate HasParam(params: seq<Param>, name: string)
  {
    exists i :: 0 <= i < |params| && params[i].name == name
  }

  /** The verdict of ValidateParams: repository is checked before path. */
  function Validate(params: seq<Param>): (r: Outcome<string>)
    ensures r.Pass? <==> HasParam(params, RepositoryParam) && HasParam(params, PathParam)
    ensures !HasParam(params, RepositoryParam) ==> r == Fail("missing required parameter: repository")
    ensures HasParam(params, RepositoryParam) && !HasParam(params, PathParam) ==>
      r == Fail("missing required parameter: path")
  {
    if !HasParam(params, RepositoryParam) then Fail("missing required parameter: repository")
    else if !HasParam(params, PathParam) then Fail("missing required parameter: path")
    else Pass
  }

  /** ValidateParams: collects the names, then checks the two required ones. */
  method ValidateParams(params: seq<Param>) returns (r: Outcome<string>)
    ensures r == Validate(params)
  {
    var names: set<string> := {};
    for i := 0 to |params|
      invariant names == set j | 0 <= j < i :: params[j].name
    {
      names := names + {params[i].name};
    }
    if RepositoryParam !in names {
      assert !HasParam(params, RepositoryParam);
      return Fail("missing required parameter: repository");
    }
    if PathParam !in names {
      assert !HasParam(params, PathParam);
      return Fail("missing required parameter: path");
    }
    return Pass;
  }

  // =====================================================================
  // The first pass over the parameters: repository and path
  // =====================================================================

  /** param.Value.StringVal of the last parameter with the name, if any. */
  function LastValue(params: seq<Param>, name: string): (r: Option<string>)
    ensures r.None? <==> !HasParam(params, name)
  {
    if params == [] then None
    else if params[|params| - 1].name == name then Some(params[|params| - 1].value.StringOf())
    else
      var r := LastValue(params[..|params| - 1], name);
      assert HasParam(params, name) <==> HasParam(params[..|params| - 1], name) by {
        if HasParam(params, name) {
          var i :| 0 <= i < |params| && params[i].name == name;
          assert params[..|params| - 1][i].name == name;
        }
        if HasParam(params[..|params| - 1], name) {
          var i :| 0 <= i < |params| - 1 && params[..|params| - 1][i].name == name;
          assert params[i].name == name;
        }
      }
      r
  }

  /** The local variable the first pass leaves: the value, or "" when absent. */
  function ValueOr(params: seq<Param>, name: string): string
  {
    match LastValue(params, name)
    case None => ""
    case Some(v) => v
  }

  /** The namespace after the first pass: one Text entry per required name present. */
  function Seed(params: seq<Param>): (data: Namespace)
    ensures data.Keys == (if HasParam(params, RepositoryParam) then {RepositoryParam} else {})
                       + (if HasParam(params, PathParam) then {PathParam} else {})
    ensures RepositoryParam in data ==> data[RepositoryParam] == Text(ValueOr(params, RepositoryParam))
    ensures PathParam in data ==> data[PathParam] == Text(ValueOr(params, PathParam))
  {
    var withRepository: Namespace :=
      if HasParam(params, RepositoryParam) then map[RepositoryParam := Text(ValueOr(params, RepositoryParam))]
      else map[];
    if HasParam(params, PathParam) then withRepository[PathParam := Text(ValueOr(params, PathParam))]
    else withRepository
  }

  // =====================================================================
  // The second pass: one namespace update per parameter
  // =====================================================================

  /** The JSON array text the array items are joined into. */
  function JsonArrayText(items: seq<string>): (text: string)
    ensures |text| >= 2 && text[0] == '[' && text[|text| - 1] == ']'
    ensures text[1..|text| - 1] == Join(items, ",")
  {
    "[" + Join(items, ",") + "]"
  }

  /** Only names mentioning steps or tasks try the structured JSON reading. */
  predicate IsStructuredName(name: string)
  {
    Contains(name, "steps") || Contains(name, "tasks")
  }

  /** The items that decode as YAML mappings holding a "name" key, in order. */
  function NamedRecords(items: seq<string>, codec: Codec): (tasks: seq<Record>)
    ensures |tasks| <= |items|
    ensures forall t :: t in tasks ==> "name" in t
  {
    if items == [] then []
    else
      var front := NamedRecords(items[..|items| - 1], codec);
      match codec.decodeYamlRecord(items[|items| - 1])
      case Failure(_) => front
      case Success(task) => if "name" in task then front + [task] else front
  }

  /** The string "name" fields of the records, in order. */
  function TaskNames(records: seq<Record>): (names: seq<string>)
    ensures |names| <= |records|
  {
    if records == [] then []
    else
      var front := TaskNames(records[..|records| - 1]);
      var last := records[|records| - 1];
      if "name" in last && last["name"].Str? then front + [last["name"].s] else front
  }

  /** The marshalled records, or `fallback` when marshalling fails. */
  function EncodedOr(records: seq<Record>, fallback: string, codec: Codec): string
  {
    match codec.encodeYamlRecords(records)
    case Success(y) => y
    case Failure(_) => fallback
  }

  /**
    The entries written for a parameter read as tasks: the text under the
    parameter's key, the records under <key>Objects, and, when some task has
    a string name, the names under <key>Names and the last one under <key>Name.
   */
  function StoreTasks(data: Namespace, camel: string, primary: string, records: seq<Record>): Namespace
  {
    var stored := data[camel := Text(primary)][camel + "Objects" := Records(records)];
    var names := TaskNames(records);
    if |names| > 0 then stored[camel + "Names" := TextList(names)][camel + "Name" := Text(names[|names| - 1])]
    else stored
  }

  /** An array parameter: the JSON reading, the per-item YAML reading, or the raw items. */
  function ProcessArray(data: Namespace, camel: string, name: string, items: seq<string>, codec: Codec): Namespace
  {
    var json := JsonArrayText(items);
    if IsStructuredName(name) && codec.decodeJsonRecords(json).Success? then
      var objects := codec.decodeJsonRecords(json).value;
      StoreTasks(data, camel, EncodedOr(objects, json, codec), objects)
    else
      var tasks := NamedRecords(items, codec);
      if |tasks| > 0 then StoreTasks(data, camel, EncodedOr(tasks, "", codec), tasks)
      else data[camel := TextList(items)]
  }

  /** A string parameter: verbatim unless it mentions "name:" and decodes as a task list. */
  function ProcessString(data: Namespace, camel: string, s: string, codec: Codec): Namespace
  {
    if !Contains(s, "name:") then data[camel := Text(s)]
    else
      match codec.decodeYamlRecords(s)
      case Failure(_) => data[camel := Text(s)]
      case Success(tasks) =>
        if |tasks| > 0 then StoreTasks(data, camel, EncodedOr(tasks, s, codec), tasks)
        else data[camel := Text("")]
  }

  /** Whether the second pass leaves the namespace alone for this parameter. */
  predicate Skipped(data: Namespace, p: Param)
  {
    p.name == RepositoryParam || p.name == PathParam || CamelCase(p.name) in data
  }

  /** The update one parameter's value makes under its derived key. */
  function ProcessValue(data: Namespace, camel: string, name: string, value: ParamValue, codec: Codec): Namespace
  {
    match value
    case ArrayVal(items) => ProcessArray(data, camel, name, items, codec)
    case ObjectVal(fields) => data[camel := StringMap(fields)]
    case StringVal(s) => ProcessString(data, camel, s, codec)
  }

  /** One iteration of the second pass. */
  function Process(data: Namespace, p: Param, codec: Codec): Namespace
  {
    if Skipped(data, p) then data
    else ProcessValue(data, CamelCase(p.name), p.name, p.value, codec)
  }

  /** The second pass over a prefix of the parameters. */
  function Build(data: Namespace, params: seq<Param>, codec: Codec): Namespace
  {
    if params == [] then data
    else Process(Build(data, params[..|params| - 1], codec), params[|params| - 1], codec)
  }

  /** The namespace the template is rendered against. */
  function TemplateData(params: seq<Param>, codec: Codec): Namespace
  {
    Build(Seed(params), params, codec)
  }

  /** What Resolve returns. */
  function Resolution(params: seq<Param>, fetcher: Fetcher, engine: TemplateEngine, codec: Codec)
    : Result<ResolvedResource, string>
  {
    var repository := ValueOr(params, RepositoryParam);
    var path := ValueOr(params, PathParam);
    match fetcher(repository, path)
    case Failure(e) => Failure("failed to fetch template: " + e)
    case Success(content) =>
      match Render(content, TemplateData(params, codec), engine)
      case Failure(e) => Failure("failed to render template: " + e)
      case Success(out) =>
        Success(ResolvedResource(out, RefSource(repository, map["sha1" := "unknown"], path)))
  }

  // =====================================================================
  // The loops of Resolve
  // =====================================================================

  /** Builds the JSON array text item by item. */
  method JoinJsonArray(items: seq<string>) returns (allItemsJSON: string)
    ensures allItemsJSON == JsonArrayText(items)
  {
    allItemsJSON := "[";
    for i := 0 to |items|
      invariant i == 0 ==> allItemsJSON == "["
      invariant i > 0 ==> allItemsJSON == "[" + Join(items[..i], ",")
    {
      if i > 0 {
        allItemsJSON := allItemsJSON + ",";
        JoinSnoc(items[..i], items[i], ",");
        assert items[..i + 1] == items[..i] + [items[i]];
      } else {
        assert Join(items[..1], ",") == items[0];
      }
      allItemsJSON := allItemsJSON + items[i];
    }
    if items == [] {
      assert Join(items, ",") == "";
    } else {
      assert items[..|items|] == items;
    }
    allItemsJSON := allItemsJSON + "]";
  }

  /** The fallback loop: items that decode and carry a "name" key. */
  method CollectNamedRecords(items: seq<string>, codec: Codec) returns (tasks: seq<Record>)
    ensures tasks == NamedRecords(items, codec)
  {
    tasks := [];
    for i := 0 to |items|
      invariant tasks == NamedRecords(items[..i], codec)
    {
      assert items[..i + 1][..i] == items[..i];
      var decoded := codec.decodeYamlRecord(items[i]);
      if decoded.Success? && "name" in decoded.value {
        tasks := tasks + [decoded.value];
      }
    }
    assert items[..|items|] == items;
  }

  /** The name-extraction loop. */
  method CollectTaskNames(records: seq<Record>) returns (taskNames: seq<string>)
    ensures taskNames == TaskNames(records)
  {
    taskNames := [];
    for i := 0 to |records|
      invariant taskNames == TaskNames(records[..i])
    {
      assert records[..i + 1][..i] == records[..i];
      var task := records[i];
      if "name" in task && task["name"].Str? {
        taskNames := taskNames + [task["name"].s];
      }
    }
    assert records[..|records|] == records;
  }

  /** The entries for a parameter read as tasks. */
  method StoreTaskEntries(data: Namespace, camel: string, primary: string, records: seq<Record>)
    returns (out: Namespace)
    ensures out == StoreTasks(data, camel, primary, records)
  {
    out := data[camel := Text(primary)];
    out := out[camel + "Objects" := Records(records)];
    var taskNames := CollectTaskNames(records);
    if |taskNames| > 0 {
      out := out[camel + "Names" := TextList(taskNames)];
      out := out[camel + "Name" := Text(taskNames[|taskNames| - 1])];
    }
  }

  /** The array case of the second loop. */
  method ProcessArrayParam(data: Namespace, camelName: string, name: string, items: seq<string>, codec: Codec)
    returns (out: Namespace)
    ensures out == ProcessArray(data, camelName, name, items, codec)
  {
    if Contains(name, "steps") || Contains(name, "tasks") {
      var allItemsJSON := JoinJsonArray(items);
      var taskObjects := codec.decodeJsonRecords(allItemsJSON);
      if taskObjects.Success? {
        var yamlBytes := codec.encodeYamlRecords(taskObjects.value);
        var primary := if yamlBytes.Success? then yamlBytes.value else allItemsJSON;
        out := StoreTaskEntries(data, camelName, primary, taskObjects.value);
        return out;
      }
    }
    var tasks := CollectNamedRecords(items, codec);
    if |tasks| > 0 {
      var yamlBytes := codec.encodeYamlRecords(tasks);
      var primary := if yamlBytes.Success? then yamlBytes.value else "";
      out := StoreTaskEntries(data, camelName, primary, tasks);
    } else {
      out := data[camelName := TextList(items)];
    }
  }

  /** The string case of the second loop. */
  method ProcessStringParam(data: Namespace, camelName: string, paramVal: string, codec: Codec)
    returns (out: Namespace)
    ensures out == ProcessString(data, camelName, paramVal, codec)
  {
    if Contains(paramVal, "name:") {
      var tasks := codec.decodeYamlRecords(paramVal);
      if tasks.Failure? {
        out := data[camelName := Text(paramVal)];
      } else if |tasks.value| > 0 {
        var yamlBytes := codec.encodeYamlRecords(tasks.value);
        var primary := if yamlBytes.Success? then yamlBytes.value else paramVal;
        out := StoreTaskEntries(data, camelName, primary, tasks.value);
      } else {
        out := data[camelName := Text("")];
      }
    } else {
      out := data[camelName := Text(paramVal)];
    }
  }

  /** The second loop's dispatch on the parameter's kind. */
  method ProcessValueParam(data: Namespace, camelName: string, name: string, value: ParamValue, codec: Codec)
    returns (out: Namespace)
    ensures out == ProcessValue(data, camelName, name, value, codec)
  {
    match value {
      case ArrayVal(items) =>
        out := ProcessArrayParam(data, camelName, name, items, codec);
      case ObjectVal(fields) =>
        out := data[camelName := StringMap(fields)];
      case StringVal(paramVal) =>
        out := ProcessStringParam(data, camelName, paramVal, codec);
    }
  }

  /** The body of the second loop of Resolve, for one parameter. */
  method ProcessParam(data: Namespace, p: Param, codec: Codec) returns (out: Namespace)
    ensures out == Process(data, p, codec)
  {
    var camelName := ToCamelCase(p.name);
    if p.name == RepositoryParam || p.name == PathParam {
      return data;
    }
    if camelName in data {
      return data;
    }
    out := ProcessValueParam(data, camelName, p.name, p.value, codec);
  }

  /** The first loop of Resolve: the required values and their namespace entries. */
  method ExtractRequired(params: seq<Param>) returns (repository: string, path: string, templateData: Namespace)
    ensures repository == ValueOr(params, RepositoryParam)
    ensures path == ValueOr(params, PathParam)
    ensures templateData == Seed(params)
  {
    repository, path := "", "";
    templateData := map[];
    for i := 0 to |params|
      invariant repository == ValueOr(params[..i], RepositoryParam)
      invariant path == ValueOr(params[..i], PathParam)
      invariant templateData == Seed(params[..i])
    {
      var prefix := params[..i + 1];
      assert prefix[..i] == params[..i];
      assert prefix[i] == params[i];
      var param := params[i];
      if param.name == RepositoryParam {
        repository := param.value.StringOf();
        templateData := templateData[RepositoryParam := Text(repository)];
      } else if param.name == PathParam {
        path := param.value.StringOf();
        templateData := templateData[PathParam := Text(path)];
      }
      assert HasParam(prefix, RepositoryParam) <==> HasParam(params[..i], RepositoryParam) || param.name == RepositoryParam;
      assert HasParam(prefix, PathParam) <==> HasParam(params[..i], PathParam) || param.name == PathParam;
    }
    assert params[..|params|] == params;
  }

  /**
    Resolve: the two passes over the parameters around the fetch, then the
    render; the rendered text comes back with the repository and path as
    its provenance.
   */
  method Resolve(params: seq<Param>, fetcher: Fetcher, engine: TemplateEngine, codec: Codec)
    returns (r: Result<ResolvedResource, string>)
    ensures r == Resolution(params, fetcher, engine, codec)
  {
    var repository, path, templateData := ExtractRequired(params);
    var templateContent := fetcher(repository, path);
    if templateContent.Failure? {
      return Failure("failed to fetch template: " + templateContent.error);
    }
    for i := 0 to |params|
      invariant templateData == Build(Seed(params), params[..i], codec)
    {
      assert params[..i + 1][..i] == params[..i];
      templateData := ProcessParam(templateData, params[i], codec);
    }
    assert params[..|params|] == params;
    var renderedTemplate, suspects := RenderTemplate(templateContent.value, templateData, engine, codec);
    if renderedTemplate.Failure? {
      return Failure("failed to render template: " + renderedTemplate.error);
    }
    r := Success(ResolvedResource(renderedTemplate.value,
      RefSource(repository, map["sha1" := "unknown"], path)));
  }
}
