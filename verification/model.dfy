/**
  The values the resolver works on: Tekton parameters, the generic trees the
  YAML and JSON decoders produce, the template namespace, the collaborators
  that are foreign code (codecs, fetcher, template engine), and the resolved
  resource handed back to the pipeline engine.
 */
module Model {
  import opened Wrappers

  /** A decoded YAML/JSON document: the interface{} trees of the decoders. */
  datatype Value =
    | Null
    | Bool(b: bool)
    | Number(n: int)
    | Str(s: string)
    | List(items: seq<Value>)
    | Object(fields: map<string, Value>)

  /** A decoded map[string]interface{}: one task-like record or any mapping. */
  type Record = map<string, Value>

  /** The value of a Tekton parameter: exactly one of its three kinds. */
  datatype ParamValue =
    | StringVal(s: string)
    | ArrayVal(items: seq<string>)
    | ObjectVal(fields: map<string, string>)
  {
    /** param.Value.StringVal: the empty string unless the kind is string. */
    function StringOf(): string
    {
      if StringVal? then s else ""
    }
  }

  /** A Tekton parameter as the resolution request carries it. */
  datatype Param = Param(name: string, value: ParamValue)

  /** A value stored in the template namespace. */
  datatype Entry =
    | Text(text: string)                  // a plain string
    | TextList(texts: seq<string>)        // a raw array parameter, or extracted names
    | Records(records: seq<Record>)       // parsed task-like records
    | StringMap(fields: map<string, string>)  // an object parameter, verbatim

  /** The namespace the template is executed against (templateData). */
  type Namespace = map<string, Entry>

  /**
    The YAML and JSON libraries, as functions of their inputs. A decoder
    yields the decoded value or the library's error message; an encoder
    yields the encoded text or the library's error message.
   */
  datatype Codec = Codec(
    // json.Unmarshal into []map[string]interface{}
    decodeJsonRecords: string -> Result<seq<Record>, string>,
    // yaml.Unmarshal into map[string]interface{}
    decodeYamlRecord: string -> Result<Record, string>,
    // yaml.Unmarshal into []map[string]interface{}
    decodeYamlRecords: string -> Result<seq<Record>, string>,
    // yaml.Unmarshal into interface{}
    decodeYamlValue: string -> Result<Value, string>,
    // yaml.Marshal of one map[string]interface{}
    encodeYamlRecord: Record -> Result<string, string>,
    // yaml.Marshal of a []map[string]interface{}
    encodeYamlRecords: seq<Record> -> Result<string, string>,
    // yaml.Marshal of an interface{}
    encodeYamlValue: Value -> Result<string, string>)

  /**
    Go's text/template: parsing the template text (with the helper functions
    registered), then executing it against a namespace.
   */
  datatype TemplateEngine = TemplateEngine(
    parse: string -> Outcome<string>,
    execute: (string, Namespace) -> Result<string, string>)

  /** The fetch capability: FetchTemplate(repository, path). */
  type Fetcher = (string, string) -> Result<string, string>

  /** The provenance of a resolved template (Tekton's RefSource). */
  datatype RefSource = RefSource(uri: string, digest: map<string, string>, entryPoint: string)

  /** The rendered template with its provenance (templateResource). */
  datatype ResolvedResource = ResolvedResource(data: string, source: RefSource)
  {
    /** Annotations(): the resource never carries any. */
    function Annotations(): map<string, string>
    {
      map[]
    }
  }
}
