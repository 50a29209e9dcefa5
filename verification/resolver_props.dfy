/**
  What the resolver guarantees about the namespace it builds and the result
  it returns, stated over the specification functions of module Resolver.
 */
module ResolverProps {
  import opened Wrappers
  import opened Strings
  import opened Model
  import opened Utils
  import opened Template
  import opened Resolver

  // =====================================================================
  // Validation
  // =====================================================================

  /** Validation depends on which names occur, not on order or repetition. */
  lemma ValidateIgnoresOrder(params: seq<Param>, others: seq<Param>)
    requires (set p | p in params :: p.name) == (set p | p in others :: p.name)
    ensures Validate(params) == Validate(others)
  {
    var names := set p | p in params :: p.name;
    forall name | HasParam(params, name)
      ensures HasParam(others, name)
    {
      var i :| 0 <= i < |params| && params[i].name == name;
      assert params[i] in params;
      assert name in names;
      var q :| q in others && q.name == name;
      var j :| 0 <= j < |others| && others[j] == q;
    }
    forall name | HasParam(others, name)
      ensures HasParam(params, name)
    {
      var i :| 0 <= i < |others| && others[i].name == name;
      assert others[i] in others;
      assert name in names;
      var q :| q in params && q.name == name;
      var j :| 0 <= j < |params| && params[j] == q;
    }
  }

  /** Extra parameters, wherever they appear, never make a valid request invalid. */
  lemma ValidateIgnoresExtras(params: seq<Param>, before: seq<Param>, after: seq<Param>)
    requires Validate(params).Pass?
    ensures Validate(before + params + after).Pass?
  {
    var all := before + params + after;
    var i :| 0 <= i < |params| && params[i].name == RepositoryParam;
    var j :| 0 <= j < |params| && params[j].name == PathParam;
    assert all[|before| + i] == params[i];
    assert all[|before| + j] == params[j];
  }

  // =====================================================================
  // The keys one parameter may touch
  // =====================================================================

  /** The keys written beside a parameter's own key when it is read as tasks. */
  function CompanionKeys(camel: string): set<string>
  {
    {camel + "Objects", camel + "Names", camel + "Name"}
  }

  /** The companion keys of a task update. */
  lemma StoreTasksFrame(data: Namespace, camel: string, primary: string, records: seq<Record>)
    ensures var r := StoreTasks(data, camel, primary, records);
      r.Keys == data.Keys + {camel, camel + "Objects"}
        + (if TaskNames(records) == [] then {} else {camel + "Names", camel + "Name"})
      && r[camel] == Text(primary)
      && r[camel + "Objects"] == Records(records)
      && forall k :: k in data && k !in CompanionKeys(camel) && k != camel ==> r[k] == data[k]
  {
    assert camel != camel + "Objects" by {
      assert |camel + "Objects"| > |camel|;
    }
  }

  /**
    One parameter adds at most its own key and its companion keys; its own
    key is present afterwards whenever it was processed; every other entry,
    and its own key's entry if it already existed, is left alone.
   */
  lemma ProcessFrame(data: Namespace, p: Param, codec: Codec)
    ensures var r := Process(data, p, codec); var camel := CamelCase(p.name);
      data.Keys <= r.Keys
      && r.Keys <= data.Keys + {camel} + CompanionKeys(camel)
      && (!Skipped(data, p) ==> camel in r)
      && forall k :: k in data && k !in CompanionKeys(camel) ==> r[k] == data[k]
  {
    var camel := CamelCase(p.name);
    if !Skipped(data, p) {
      match p.value
      case ArrayVal(items) => ArrayFrame(data, camel, p.name, items, codec);
      case ObjectVal(_) =>
      case StringVal(s) => StringFrame(data, camel, s, codec);
    }
  }

  /** The frame of an array parameter's update. */
  lemma ArrayFrame(data: Namespace, camel: string, name: string, items: seq<string>, codec: Codec)
    requires camel !in data
    ensures var r := ProcessArray(data, camel, name, items, codec);
      data.Keys <= r.Keys
      && r.Keys <= data.Keys + {camel} + CompanionKeys(camel)
      && camel in r
      && forall k :: k in data && k !in CompanionKeys(camel) ==> r[k] == data[k]
  {
    var json := JsonArrayText(items);
    if IsStructuredName(name) && codec.decodeJsonRecords(json).Success? {
      var objects := codec.decodeJsonRecords(json).value;
      StoreTasksFrame(data, camel, EncodedOr(objects, json, codec), objects);
    } else {
      var tasks := NamedRecords(items, codec);
      StoreTasksFrame(data, camel, EncodedOr(tasks, "", codec), tasks);
    }
  }

  /** The frame of a string parameter's update. */
  lemma StringFrame(data: Namespace, camel: string, s: string, codec: Codec)
    requires camel !in data
    ensures var r := ProcessString(data, camel, s, codec);
      data.Keys <= r.Keys
      && r.Keys <= data.Keys + {camel} + CompanionKeys(camel)
      && camel in r
      && forall k :: k in data && k !in CompanionKeys(camel) ==> r[k] == data[k]
  {
    if Contains(s, "name:") && codec.decodeYamlRecords(s).Success? {
      var tasks := codec.decodeYamlRecords(s).value;
      StoreTasksFrame(data, camel, EncodedOr(tasks, s, codec), tasks);
    }
  }

  /** Keys are never removed by the second pass. */
  lemma {:induction false} BuildKeepsKeys(data: Namespace, params: seq<Param>, codec: Codec)
    ensures data.Keys <= Build(data, params, codec).Keys
  {
    if params != [] {
      var front := params[..|params| - 1];
      BuildKeepsKeys(data, front, codec);
      ProcessFrame(Build(data, front, codec), params[|params| - 1], codec);
    }
  }

  /** The keys the parameters may add in the second pass. */
  function DerivedKeys(params: seq<Param>): set<string>
  {
    set i, k | 0 <= i < |params| && k in {CamelCase(params[i].name)} + CompanionKeys(CamelCase(params[i].name)) :: k
  }

  /** Every key after the second pass was there before or derives from a parameter name. */
  lemma {:induction false} BuildKeysBound(data: Namespace, params: seq<Param>, codec: Codec)
    ensures Build(data, params, codec).Keys <= data.Keys + DerivedKeys(params)
  {
    if params != [] {
      var front := params[..|params| - 1];
      var p := params[|params| - 1];
      BuildKeysBound(data, front, codec);
      ProcessFrame(Build(data, front, codec), p, codec);
      forall k | k in DerivedKeys(front)
        ensures k in DerivedKeys(params)
      {
        var i :| 0 <= i < |front| && k in {CamelCase(front[i].name)} + CompanionKeys(CamelCase(front[i].name));
        assert params[i] == front[i];
      }
      forall k | k in {CamelCase(p.name)} + CompanionKeys(CamelCase(p.name))
        ensures k in DerivedKeys(params)
      {
        assert params[|params| - 1] == p;
      }
    }
  }

  /**
    An entry survives the second pass unchanged unless its key is a
    companion key of some parameter: a parameter never overwrites the entry
    under its own key once that key exists.
   */
  lemma {:induction false} BuildKeepsEntries(data: Namespace, params: seq<Param>, codec: Codec, k: string)
    requires k in data
    requires forall i :: 0 <= i < |params| ==> k !in CompanionKeys(CamelCase(params[i].name))
    ensures k in Build(data, params, codec) && Build(data, params, codec)[k] == data[k]
  {
    if params != [] {
      var front := params[..|params| - 1];
      assert forall i :: 0 <= i < |front| ==> front[i] == params[i];
      BuildKeepsEntries(data, front, codec, k);
      ProcessFrame(Build(data, front, codec), params[|params| - 1], codec);
    }
  }

  /**
    First writer wins: once a parameter other than repository or path has
    been seen, a later parameter with the same derived key changes nothing.
   */
  lemma LaterDuplicateSkipped(data: Namespace, params: seq<Param>, codec: Codec, i: nat, j: nat)
    requires i < j < |params|
    requires params[i].name != RepositoryParam && params[i].name != PathParam
    requires CamelCase(params[i].name) == CamelCase(params[j].name)
    ensures Build(data, params[..j + 1], codec) == Build(data, params[..j], codec)
  {
    var camel := CamelCase(params[i].name);
    BuildStep(data, params, codec, i);
    ProcessFrame(Build(data, params[..i], codec), params[i], codec);
    BuildPrefixKeepsKeys(data, params, codec, i + 1, j);
    BuildStep(data, params, codec, j);
    SkippedUnchanged(Build(data, params[..j], codec), params[j], codec);
  }

  /** One more parameter is one more iteration of the second pass. */
  lemma BuildStep(data: Namespace, params: seq<Param>, codec: Codec, n: nat)
    requires n < |params|
    ensures Build(data, params[..n + 1], codec) == Process(Build(data, params[..n], codec), params[n], codec)
  {
    assert params[..n + 1][..n] == params[..n];
  }

  /** A parameter whose derived key already exists leaves the namespace as it is. */
  lemma SkippedUnchanged(data: Namespace, p: Param, codec: Codec)
    requires CamelCase(p.name) in data
    ensures Process(data, p, codec) == data
  {
  }

  /** A longer prefix of the parameters leaves at least the keys of a shorter one. */
  lemma {:induction false} BuildPrefixKeepsKeys(data: Namespace, params: seq<Param>, codec: Codec, a: nat, b: nat)
    requires a <= b <= |params|
    ensures Build(data, params[..a], codec).Keys <= Build(data, params[..b], codec).Keys
    decreases b - a
  {
    if a < b {
      BuildPrefixKeepsKeys(data, params, codec, a, b - 1);
      assert params[..b][..b - 1] == params[..b - 1];
      ProcessFrame(Build(data, params[..b - 1], codec), params[b - 1], codec);
    }
  }

  /** The second pass over a concatenation is the second pass over each part in turn. */
  lemma {:induction false} BuildSplits(data: Namespace, a: seq<Param>, b: seq<Param>, codec: Codec)
    ensures Build(data, a + b, codec) == Build(Build(data, a, codec), b, codec)
  {
    if b == [] {
      assert a + b == a;
    } else {
      var front := b[..|b| - 1];
      BuildSplits(data, a, front, codec);
      assert (a + b)[..|a + b| - 1] == a + front;
      assert (a + b)[|a + b| - 1] == b[|b| - 1];
    }
  }

  // =====================================================================
  // The required entries
  // =====================================================================

  /** A derived key never starts with a lower-case letter, and no companion key ends like the two literal keys. */
  lemma RequiredKeysNeverDerived(name: string)
    ensures RepositoryParam != CamelCase(name) && PathParam != CamelCase(name)
    ensures RepositoryParam !in CompanionKeys(CamelCase(name))
    ensures PathParam !in CompanionKeys(CamelCase(name))
  {
    CamelCaseNotLowerInitial(name);
    var camel := CamelCase(name);
    assert RepositoryParam[0] == 'r' && PathParam[0] == 'p';
    forall suffix | suffix in {"Objects", "Names", "Name"}
      ensures RepositoryParam != camel + suffix && PathParam != camel + suffix
    {
      assert (camel + suffix)[|camel + suffix| - 1] == suffix[|suffix| - 1];
    }
  }

  /**
    repository and path reach the template exactly when the request carries
    them, each with the value of its last occurrence, whatever the other
    parameters are called.
   */
  lemma RequiredEntriesReachTemplate(params: seq<Param>, codec: Codec)
    ensures RepositoryParam in TemplateData(params, codec) <==> HasParam(params, RepositoryParam)
    ensures PathParam in TemplateData(params, codec) <==> HasParam(params, PathParam)
    ensures HasParam(params, RepositoryParam) ==>
      TemplateData(params, codec)[RepositoryParam] == Text(ValueOr(params, RepositoryParam))
    ensures HasParam(params, PathParam) ==>
      TemplateData(params, codec)[PathParam] == Text(ValueOr(params, PathParam))
  {
    var seed := Seed(params);
    forall i | 0 <= i < |params|
      ensures RepositoryParam !in CompanionKeys(CamelCase(params[i].name))
      ensures PathParam !in CompanionKeys(CamelCase(params[i].name))
      ensures RepositoryParam != CamelCase(params[i].name) && PathParam != CamelCase(params[i].name)
    {
      RequiredKeysNeverDerived(params[i].name);
    }
    BuildKeysBound(seed, params, codec);
    assert RepositoryParam !in DerivedKeys(params) && PathParam !in DerivedKeys(params);
    if HasParam(params, RepositoryParam) {
      BuildKeepsEntries(seed, params, codec, RepositoryParam);
    }
    if HasParam(params, PathParam) {
      BuildKeepsEntries(seed, params, codec, PathParam);
    }
  }

  // =====================================================================
  // Array parameters
  // =====================================================================

  /** The JSON text holds the items between the brackets, comma-separated and recoverable. */
  lemma JsonArrayTextItems(items: seq<string>)
    requires items != []
    requires forall i :: 0 <= i < |items| ==> ',' !in items[i]
    ensures var text := JsonArrayText(items); Split(text[1..|text| - 1], ',') == items
  {
    SplitJoin(items, ',');
  }

  /** Only names mentioning steps or tasks ever consult the JSON decoder. */
  lemma JsonReadingOnlyForStructuredNames(data: Namespace, camel: string, name: string, items: seq<string>,
                                          codec: Codec, other: string -> Result<seq<Record>, string>)
    requires !IsStructuredName(name)
    ensures ProcessArray(data, camel, name, items, codec)
         == ProcessArray(data, camel, name, items, codec.(decodeJsonRecords := other))
  {
    var codec' := codec.(decodeJsonRecords := other);
    assert NamedRecords(items, codec) == NamedRecords(items, codec') by {
      NamedRecordsIgnoresJson(items, codec, other);
    }
  }

  /** The per-item reading uses the single-record YAML decoder only. */
  lemma {:induction false} NamedRecordsIgnoresJson(items: seq<string>, codec: Codec,
                                                   other: string -> Result<seq<Record>, string>)
    ensures NamedRecords(items, codec) == NamedRecords(items, codec.(decodeJsonRecords := other))
  {
    if items != [] {
      NamedRecordsIgnoresJson(items[..|items| - 1], codec, other);
    }
  }

  /**
    The per-item reading keeps exactly the items that decode to a mapping
    with a "name" key, in their order.
   */
  lemma {:induction false} NamedRecordsExact(items: seq<string>, codec: Codec)
    ensures forall t :: t in NamedRecords(items, codec) <==>
      exists i :: 0 <= i < |items| && codec.decodeYamlRecord(items[i]) == Success(t) && "name" in t
  {
    if items != [] {
      var front := items[..|items| - 1];
      NamedRecordsExact(front, codec);
      forall t | (exists i :: 0 <= i < |items| && codec.decodeYamlRecord(items[i]) == Success(t) && "name" in t)
        ensures t in NamedRecords(items, codec)
      {
        var i :| 0 <= i < |items| && codec.decodeYamlRecord(items[i]) == Success(t) && "name" in t;
        if i < |front| {
          assert front[i] == items[i];
        }
      }
      forall t | t in NamedRecords(front, codec)
        ensures exists i :: 0 <= i < |items| && codec.decodeYamlRecord(items[i]) == Success(t) && "name" in t
      {
        var i :| 0 <= i < |front| && codec.decodeYamlRecord(front[i]) == Success(t) && "name" in t;
        assert items[i] == front[i];
      }
    }
  }

  /** No item decodes to a named mapping: nothing is kept. */
  lemma {:induction false} NamedRecordsNone(items: seq<string>, codec: Codec)
    requires forall i :: 0 <= i < |items| ==>
      codec.decodeYamlRecord(items[i]).Failure? || "name" !in codec.decodeYamlRecord(items[i]).value
    ensures NamedRecords(items, codec) == []
  {
    if items != [] {
      var front := items[..|items| - 1];
      assert forall i :: 0 <= i < |front| ==> front[i] == items[i];
      NamedRecordsNone(front, codec);
    }
  }

  /** One item: kept exactly when it decodes to a mapping with a "name" key. */
  lemma NamedRecordsOfOne(item: string, codec: Codec)
    ensures NamedRecords([item], codec) ==
      match codec.decodeYamlRecord(item)
      case Success(r) => if "name" in r then [r] else []
      case Failure(_) => []
  {
    assert [item][..0] == [];
  }

  /** The records kept from concatenated items are those of each part in turn: item order and repetitions are kept. */
  lemma {:induction false} NamedRecordsAppend(a: seq<string>, b: seq<string>, codec: Codec)
    ensures NamedRecords(a + b, codec) == NamedRecords(a, codec) + NamedRecords(b, codec)
    decreases |b|
  {
    if b == [] {
      assert a + b == a;
    } else {
      var front := b[..|b| - 1];
      assert (a + b)[..|a + b| - 1] == a + front;
      assert (a + b)[|a + b| - 1] == b[|b| - 1];
      NamedRecordsAppend(a, front, codec);
    }
  }

  /**
    An array parameter none of whose items is a named task (and which is not
    read as a JSON task list) is stored as the raw items, with no companion
    entries.
   */
  lemma RawArrayFallback(data: Namespace, p: Param, codec: Codec)
    requires !Skipped(data, p) && p.value.ArrayVal?
    requires !IsStructuredName(p.name) || codec.decodeJsonRecords(JsonArrayText(p.value.items)).Failure?
    requires forall i :: 0 <= i < |p.value.items| ==>
      codec.decodeYamlRecord(p.value.items[i]).Failure? || "name" !in codec.decodeYamlRecord(p.value.items[i]).value
    ensures Process(data, p, codec) == data[CamelCase(p.name) := TextList(p.value.items)]
  {
    var items := p.value.items;
    NamedRecordsNone(items, codec);
  }

  // =====================================================================
  // Task names
  // =====================================================================

  /** When every record has a string name, the names are those, one per record, in order. */
  lemma {:induction false} TaskNamesAllNamed(records: seq<Record>)
    requires forall i :: 0 <= i < |records| ==> "name" in records[i] && records[i]["name"].Str?
    ensures TaskNames(records) == seq(|records|, i requires 0 <= i < |records| => records[i]["name"].s)
  {
    if records != [] {
      TaskNamesAllNamed(records[..|records| - 1]);
    }
  }

  /** Records without a string name contribute nothing, and every name comes from some record. */
  lemma {:induction false} TaskNamesSound(records: seq<Record>)
    ensures forall n :: n in TaskNames(records) ==>
      exists i :: 0 <= i < |records| && "name" in records[i] && records[i]["name"] == Str(n)
    ensures (forall i :: 0 <= i < |records| ==> "name" !in records[i] || !records[i]["name"].Str?) ==>
      TaskNames(records) == []
  {
    if records != [] {
      var front := records[..|records| - 1];
      TaskNamesSound(front);
      forall n | n in TaskNames(front)
        ensures exists i :: 0 <= i < |records| && "name" in records[i] && records[i]["name"] == Str(n)
      {
        var i :| 0 <= i < |front| && "name" in front[i] && front[i]["name"] == Str(n);
        assert records[i] == front[i];
      }
    }
  }

  /** The first pass keeps the value of the last parameter with the name: no later one carries it. */
  lemma {:induction false} LastValueIsLastOccurrence(params: seq<Param>, name: string)
    requires HasParam(params, name)
    ensures exists i :: (0 <= i < |params| && params[i].name == name
      && LastValue(params, name) == Some(params[i].value.StringOf())
      && (forall j :: i < j < |params| ==> params[j].name != name))
  {
    var n := |params| - 1;
    if params[n].name == name {
      assert LastValue(params, name) == Some(params[n].value.StringOf());
    } else {
      var front := params[..n];
      assert LastValue(params, name) == LastValue(front, name);
      var k :| 0 <= k < |params| && params[k].name == name;
      assert front[k].name == name;
      LastValueIsLastOccurrence(front, name);
      var i :| 0 <= i < |front| && front[i].name == name
        && LastValue(front, name) == Some(front[i].value.StringOf())
        && (forall j :: i < j < |front| ==> front[j].name != name);
      assert params[i] == front[i];
      forall j | i < j < |params|
        ensures params[j].name != name
      {
        if j < n {
          assert params[j] == front[j];
        }
      }
    }
  }

  /** The names of concatenated records are the names of each part in turn: source order is kept. */
  lemma {:induction false} TaskNamesAppend(a: seq<Record>, b: seq<Record>)
    ensures TaskNames(a + b) == TaskNames(a) + TaskNames(b)
    decreases |b|
  {
    if b == [] {
      assert a + b == a;
    } else {
      var front := b[..|b| - 1];
      assert (a + b)[..|a + b| - 1] == a + front;
      assert (a + b)[|a + b| - 1] == b[|b| - 1];
      TaskNamesAppend(a, front);
    }
  }

  /**
    When names were found, <key>Name holds the last entry of <key>Names,
    and <key>Names lists exactly the names found.
   */
  lemma StoreTasksLastName(data: Namespace, camel: string, primary: string, records: seq<Record>)
    requires TaskNames(records) != []
    ensures var r := StoreTasks(data, camel, primary, records);
      camel + "Names" in r && camel + "Name" in r
      && r[camel + "Names"] == TextList(TaskNames(records))
      && r[camel + "Name"] == Text(r[camel + "Names"].texts[|r[camel + "Names"].texts| - 1])
  {
    assert camel + "Names" != camel + "Name" by {
      assert |camel + "Names"| != |camel + "Name"|;
    }
  }

  // =====================================================================
  // String and object parameters
  // =====================================================================

  /**
    A string parameter is stored verbatim unless it mentions "name:" and
    decodes as a list of mappings; an empty list stores the empty string.
   */
  lemma StringParamCases(data: Namespace, p: Param, codec: Codec)
    requires !Skipped(data, p) && p.value.StringVal?
    ensures var s := p.value.s; var camel := CamelCase(p.name); var r := Process(data, p, codec);
      && (!Contains(s, "name:") || codec.decodeYamlRecords(s).Failure? ==> r == data[camel := Text(s)])
      && (Contains(s, "name:") && codec.decodeYamlRecords(s) == Success([]) ==> r == data[camel := Text("")])
      && (Contains(s, "name:") && codec.decodeYamlRecords(s).Success? && codec.decodeYamlRecords(s).value != [] ==>
            r[camel] == Text(EncodedOr(codec.decodeYamlRecords(s).value, s, codec))
            && r[camel + "Objects"] == Records(codec.decodeYamlRecords(s).value))
  {
    var s := p.value.s;
    if Contains(s, "name:") && codec.decodeYamlRecords(s).Success? && codec.decodeYamlRecords(s).value != [] {
      var tasks := codec.decodeYamlRecords(s).value;
      StoreTasksFrame(data, CamelCase(p.name), EncodedOr(tasks, s, codec), tasks);
    }
  }

  /** A string that cannot mention "name:" is never decoded. */
  lemma ShortStringVerbatim(data: Namespace, p: Param, codec: Codec)
    requires !Skipped(data, p) && p.value.StringVal? && ':' !in p.value.s
    ensures Process(data, p, codec) == data[CamelCase(p.name) := Text(p.value.s)]
  {
    NoColonNoNameMarker(p.value.s);
  }

  /** A string without ':' does not contain "name:". */
  lemma {:induction false} NoColonNoNameMarker(s: string)
    requires ':' !in s
    ensures !Contains(s, "name:")
    decreases |s|
  {
    if |s| >= 5 {
      assert s[..5][4] == s[4] && s[4] != ':';
      assert "name:"[4] == ':';
    }
    if s != [] {
      NoColonNoNameMarker(s[1..]);
    }
  }

  // =====================================================================
  // Resolution
  // =====================================================================

  /**
    The outcome of Resolve: the fetch failure or render failure wrapped with
    its context, or the engine's output with the repository and path as
    provenance and a fixed placeholder digest.
   */
  lemma ResolutionOutcome(params: seq<Param>, fetcher: Fetcher, engine: TemplateEngine, codec: Codec)
    ensures var r := Resolution(params, fetcher, engine, codec);
      var fetched := fetcher(ValueOr(params, RepositoryParam), ValueOr(params, PathParam));
      && (fetched.Failure? ==> r == Failure("failed to fetch template: " + fetched.error))
      && (fetched.Success? && Render(fetched.value, TemplateData(params, codec), engine).Failure? ==>
            r == Failure("failed to render template: " + Render(fetched.value, TemplateData(params, codec), engine).error))
      && (r.Success? ==>
            fetched.Success?
            && r.value.data == engine.execute(fetched.value, TemplateData(params, codec)).value
            && r.value.source.uri == ValueOr(params, RepositoryParam)
            && r.value.source.entryPoint == ValueOr(params, PathParam)
            && r.value.source.digest == map["sha1" := "unknown"]
            && r.value.Annotations() == map[])
  {
  }

  /** A resolution request's provenance names the last repository and path given. */
  lemma ResolutionProvenance(params: seq<Param>, fetcher: Fetcher, engine: TemplateEngine, codec: Codec,
                             repository: string, path: string)
    requires Validate(params).Pass?
    requires LastValue(params, RepositoryParam) == Some(repository)
    requires LastValue(params, PathParam) == Some(path)
    requires Resolution(params, fetcher, engine, codec).Success?
    ensures Resolution(params, fetcher, engine, codec).value.source == RefSource(repository, map["sha1" := "unknown"], path)
    ensures fetcher(repository, path).Success?
  {
  }
}
