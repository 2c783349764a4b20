/** The EDA metadata ("EDAM") descriptor handed to the tool runner, the builder
    that accumulates it by chained calls, and the composition that builds one
    from a core's fileset. */
module EdamBuilding {
  import opened Wrappers
  import opened PyValues
  import opened Paths
  import opened FileRecords
  import opened FusesocFileset
  import Sorting

  /** A file entry of the descriptor. The `is_include_file` key is present
      (and `True`) exactly when `isIncludeFile` holds. */
  datatype EdamFile = EdamFile(
    name: string,
    fileType: string,                 // key 'file_type'
    isIncludeFile: bool,
    includePath: Option<string>,
    logicalName: Option<Value>)

  /** Tool name to that tool's option bag. */
  type ToolOptions = map<string, map<string, Value>>

  datatype Edam = Edam(
    name: string,
    files: seq<EdamFile>,
    parameters: map<string, Value>,
    toolOptions: ToolOptions,
    flowOptions: map<string, Value>,
    toplevel: Value)

  /** The descriptor a new builder starts from; the toplevel is an empty list
      until it is set. */
  function Initial(name: string): Edam {
    Edam(name, [], map[], map[], map[], List([]))
  }

  /** The flow's file type categories and the descriptor's type for each. */
  const FlowToEdamType: map<string, string> := map[
    "verilog" := "verilogSource",
    "systemverilog" := "systemVerilogSource",
    "vhdl" := "vhdlSource",
    "vhdl-2008" := "vhdlSource-2008",
    "constraint" := "user",
    "xdc" := "xdc",
    "sdc" := "SDC",
    "ucf" := "UCF",
    "tcl" := "tclSource",
    "user" := "user"
  ]

  /** Total lookup: the table's type, and 'user' for any tag it does not list. */
  function MapFileType(tag: string): (r: string)
    ensures tag in FlowToEdamType ==> r == FlowToEdamType[tag]
    ensures tag !in FlowToEdamType ==> r == "user"
    ensures r in FlowToEdamType.Values
    ensures r == "user" <==> tag !in FlowToEdamType || tag == "constraint" || tag == "user"
  {
    if tag in FlowToEdamType then FlowToEdamType[tag]
    else assert FlowToEdamType["user"] == "user"; "user"
  }

  /** The descriptor's datatype for a plain value. */
  function InferDatatype(v: Value): (r: string)
    ensures r in {"bool", "int", "real", "str"}
    ensures r == "bool" <==> v.Bool?
    ensures r == "int" <==> v.Int?
    ensures r == "real" <==> v.Float?
  {
    match v
    case Bool(_) => "bool"
    case Int(_) => "int"
    case Float(_) => "real"
    case _ => "str"
  }

  /** The parameter record built for a plain value. */
  function ParamRecord(v: Value, paramtype: string): Value {
    Dict(map["datatype" := Str(InferDatatype(v)), "default" := v, "paramtype" := Str(paramtype)])
  }

  /** One flow file record as a descriptor file entry. The name is the record's
      path, else its name; the optional attributes are carried only when truthy. */
  function ToEdamFile(fi: DvFile): (e: EdamFile)
    ensures e.name == if fi.path.Some? then fi.path.value else if fi.name.Some? then fi.name.value else "None"
    ensures e.fileType == MapFileType(fi.fileType.GetOr("user"))
    ensures e.isIncludeFile <==> fi.isInclude.Some? && Truthy(fi.isInclude.value)
    ensures e.includePath.Some? <==> fi.includePath.Some? && fi.includePath.value.Truthy()
    ensures e.includePath.Some? ==> e.includePath.value == fi.includePath.value.ToString()
    ensures e.logicalName.Some? <==> fi.library.Some? && Truthy(fi.library.value)
    ensures e.logicalName.Some? ==> e.logicalName == fi.library
  {
    EdamFile(
      name := if fi.path.Some? then fi.path.value else if fi.name.Some? then fi.name.value else "None",
      fileType := MapFileType(fi.fileType.GetOr("user")),
      isIncludeFile := fi.isInclude.Some? && Truthy(fi.isInclude.value),
      includePath := if fi.includePath.Some? && fi.includePath.value.Truthy()
                     then Some(fi.includePath.value.ToString()) else None,
      logicalName := if fi.library.Some? && Truthy(fi.library.value) then fi.library else None)
  }

  /** `add_files`: one entry per record appended, in order; nothing else changes. */
  function AddedFiles(e: Edam, files: seq<DvFile>): (r: Edam)
    ensures r.(files := e.files) == e
    ensures |r.files| == |e.files| + |files|
    ensures r.files[..|e.files|] == e.files
    ensures forall i :: 0 <= i < |files| ==> r.files[|e.files| + i] == ToEdamFile(files[i])
  {
    e.(files := e.files + seq(|files|, i requires 0 <= i < |files| => ToEdamFile(files[i])))
  }

  /** Adding one more record appends its entry. */
  lemma AddedFilesSnoc(e: Edam, files: seq<DvFile>, i: nat)
    requires i < |files|
    ensures var before := AddedFiles(e, files[..i]);
            AddedFiles(e, files[..i + 1]) == before.(files := before.files + [ToEdamFile(files[i])])
  {
    var before := AddedFiles(e, files[..i]);
    var after := AddedFiles(e, files[..i + 1]);
    assert after.files == before.files + [ToEdamFile(files[i])] by {
      assert |after.files| == |before.files| + 1;
      forall j | 0 <= j < |after.files|
        ensures after.files[j] == (before.files + [ToEdamFile(files[i])])[j]
      {
        if j < |e.files| {
          assert after.files[j] == after.files[..|e.files|][j];
          assert before.files[j] == before.files[..|e.files|][j];
        } else if j < |e.files| + i {
          assert files[..i + 1][j - |e.files|] == files[..i][j - |e.files|];
        }
      }
    }
  }

  /** The argument of `set_toplevel`: one name, or a list of names. */
  datatype ToplevelArg = Name(name: string) | Names(names: seq<string>)

  /** `set_toplevel`: the toplevel always ends up a single string. */
  function WithToplevel(e: Edam, arg: ToplevelArg): (r: Edam)
    ensures r.(toplevel := e.toplevel) == e
    ensures r.toplevel.Str?
    ensures arg.Name? ==> r.toplevel.s == arg.name
    ensures arg.Names? && arg.names != [] ==> r.toplevel.s == arg.names[0]
    ensures arg.Names? && arg.names == [] ==> r.toplevel.s == ""
  {
    match arg
    case Names(names) => e.(toplevel := Str(if names != [] then names[0] else ""))
    case Name(name) => e.(toplevel := Str(name))
  }

  /** What `add_parameters` stores for a value: a dictionary as it is, any other
      value as a Verilog parameter with an inferred datatype. */
  function ParameterEntry(v: Value): Value {
    if v.Dict? then v else ParamRecord(v, "vlogparam")
  }

  /** A parameter table after writing `params` into it: every given name
      holds its entry, every other name keeps its value. */
  function WrittenParameters(table: map<string, Value>, params: map<string, Value>): (r: map<string, Value>)
    ensures r.Keys == table.Keys + params.Keys
    ensures forall k :: k in params ==> r[k] == ParameterEntry(params[k])
    ensures forall k :: k in table && k !in params ==> r[k] == table[k]
  {
    table + map k | k in params :: ParameterEntry(params[k])
  }

  /** `add_parameters`: every given name is written, later writes win, other
      names are kept. */
  function AddedParameters(e: Edam, params: map<string, Value>): (r: Edam)
    ensures r.(parameters := e.parameters) == e
    ensures r.parameters.Keys == e.parameters.Keys + params.Keys
    ensures forall k :: k in params && params[k].Dict? ==> r.parameters[k] == params[k]
    ensures forall k :: k in params && !params[k].Dict? ==> r.parameters[k] == ParamRecord(params[k], "vlogparam")
    ensures forall k :: k in e.parameters && k !in params ==> r.parameters[k] == e.parameters[k]
  {
    e.(parameters := WrittenParameters(e.parameters, params))
  }

  /** What `add_plusargs` stores for a value. */
  function PlusargEntry(v: Value): Value {
    ParamRecord(v, "plusarg")
  }

  /** A parameter table after writing `plusargs` into it as plusarg records. */
  function WrittenPlusargs(table: map<string, Value>, plusargs: map<string, Value>): (r: map<string, Value>)
    ensures r.Keys == table.Keys + plusargs.Keys
    ensures forall k :: k in plusargs ==> r[k] == PlusargEntry(plusargs[k])
    ensures forall k :: k in table && k !in plusargs ==> r[k] == table[k]
  {
    table + map k | k in plusargs :: PlusargEntry(plusargs[k])
  }

  /** `add_plusargs`: like `add_parameters`, but every value becomes a plusarg
      record, dictionaries included. */
  function AddedPlusargs(e: Edam, plusargs: map<string, Value>): (r: Edam)
    ensures r.(parameters := e.parameters) == e
    ensures r.parameters.Keys == e.parameters.Keys + plusargs.Keys
    ensures forall k :: k in plusargs ==> r.parameters[k] == PlusargEntry(plusargs[k])
    ensures forall k :: k in e.parameters && k !in plusargs ==> r.parameters[k] == e.parameters[k]
  {
    e.(parameters := WrittenPlusargs(e.parameters, plusargs))
  }

  /** The option bag of `tool`, empty when the tool has none yet. */
  function BagOf(to: ToolOptions, tool: string): map<string, Value> {
    if tool in to then to[tool] else map[]
  }

  /** `set_tool_options`: merges into that tool's bag only. */
  function WithToolOptions(e: Edam, tool: string, options: map<string, Value>): (r: Edam)
    ensures r.(toolOptions := e.toolOptions) == e
    ensures r.toolOptions.Keys == e.toolOptions.Keys + {tool}
    ensures forall t :: t in e.toolOptions && t != tool ==> r.toolOptions[t] == e.toolOptions[t]
    ensures r.toolOptions[tool].Keys == BagOf(e.toolOptions, tool).Keys + options.Keys
    ensures forall k :: k in options ==> r.toolOptions[tool][k] == options[k]
    ensures forall k :: k in BagOf(e.toolOptions, tool) && k !in options ==>
              r.toolOptions[tool][k] == BagOf(e.toolOptions, tool)[k]
  {
    e.(toolOptions := e.toolOptions[tool := BagOf(e.toolOptions, tool) + options])
  }

  /** `set_flow_options`: merges into the flow option bag. */
  function WithFlowOptions(e: Edam, options: map<string, Value>): (r: Edam)
    ensures r.(flowOptions := e.flowOptions) == e
    ensures r.flowOptions.Keys == e.flowOptions.Keys + options.Keys
    ensures forall k :: k in options ==> r.flowOptions[k] == options[k]
    ensures forall k :: k in e.flowOptions && k !in options ==> r.flowOptions[k] == e.flowOptions[k]
  {
    e.(flowOptions := e.flowOptions + options)
  }

  /** Icarus syntax: a separate '-I' before each directory. */
  function IcarusFlags(dirs: seq<string>): (r: seq<Value>)
    ensures |r| == 2 * |dirs|
    ensures forall i :: 0 <= i < |dirs| ==> r[2 * i] == Str("-I") && r[2 * i + 1] == Str(dirs[i])
  {
    if dirs == [] then []
    else IcarusFlags(dirs[..|dirs| - 1]) + [Str("-I"), Str(dirs[|dirs| - 1])]
  }

  /** Verilator syntax: '-I' glued to each directory. */
  function VerilatorFlags(dirs: seq<string>): (r: seq<Value>)
    ensures |r| == |dirs|
    ensures forall i :: 0 <= i < |dirs| ==> r[i] == Str("-I" + dirs[i])
  {
    if dirs == [] then []
    else VerilatorFlags(dirs[..|dirs| - 1]) + [Str("-I" + dirs[|dirs| - 1])]
  }

  lemma IcarusFlagsSnoc(dirs: seq<string>, i: nat)
    requires i < |dirs|
    ensures IcarusFlags(dirs[..i + 1]) == IcarusFlags(dirs[..i]) + [Str("-I"), Str(dirs[i])]
  {
    assert dirs[..i + 1][..i] == dirs[..i];
  }

  lemma VerilatorFlagsSnoc(dirs: seq<string>, i: nat)
    requires i < |dirs|
    ensures VerilatorFlags(dirs[..i + 1]) == VerilatorFlags(dirs[..i]) + [Str("-I" + dirs[i])]
  {
    assert dirs[..i + 1][..i] == dirs[..i];
  }

  /** Creates the tool's bag and the option as an empty list, where missing. */
  function WithOptionList(to: ToolOptions, tool: string, key: string): (r: ToolOptions)
    ensures tool in r && key in r[tool]
    ensures r.Keys == to.Keys + {tool}
    ensures forall t :: t in to && t != tool ==> r[t] == to[t]
    ensures r[tool].Keys == BagOf(to, tool).Keys + {key}
    ensures forall k :: k in BagOf(to, tool) ==> r[tool][k] == BagOf(to, tool)[k]
    ensures key !in BagOf(to, tool) ==> r[tool][key] == List([])
  {
    var bag := BagOf(to, tool);
    to[tool := if key in bag then bag else bag[key := List([])]]
  }

  /** Appends `items` to a list-valued option. */
  function AppendToOption(to: ToolOptions, tool: string, key: string, items: seq<Value>): ToolOptions
    requires tool in to && key in to[tool] && to[tool][key].List?
  {
    to[tool := to[tool][key := List(to[tool][key].items + items)]]
  }

  /** An option that `extend`/`append` can grow, or one that will be created. */
  predicate ListOrAbsent(to: ToolOptions, tool: string, key: string) {
    key in BagOf(to, tool) ==> BagOf(to, tool)[key].List?
  }

  /** The list held by an option, empty when it is absent. */
  function ItemsOf(to: ToolOptions, tool: string, key: string): seq<Value>
    requires ListOrAbsent(to, tool, key)
  {
    if key in BagOf(to, tool) then BagOf(to, tool)[key].items else []
  }

  /** Option bags after growing one option, and whether that returned
      normally rather than raising. */
  datatype Grown = Grown(ok: bool, options: ToolOptions)

  /** Ensure the option list exists, then `extend` it by `items`. Extending a
      value that is not a list raises; the bag and the empty list created
      before that stay in place. */
  function GrowOption(to: ToolOptions, tool: string, key: string, items: seq<Value>): (g: Grown)
    ensures g.ok <==> items == [] || ListOrAbsent(to, tool, key)
    ensures g.options.Keys == to.Keys + {tool}
    ensures forall t :: t in to && t != tool ==> g.options[t] == to[t]
    ensures g.options[tool].Keys == BagOf(to, tool).Keys + {key}
    ensures forall k :: k in BagOf(to, tool) && k != key ==> g.options[tool][k] == BagOf(to, tool)[k]
    ensures ListOrAbsent(to, tool, key) ==> g.options[tool][key] == List(ItemsOf(to, tool, key) + items)
    ensures !ListOrAbsent(to, tool, key) ==> g.options[tool][key] == to[tool][key]
  {
    var t1 := WithOptionList(to, tool, key);
    var current := t1[tool][key];
    if !current.List? then Grown(items == [], t1)
    else Grown(true, AppendToOption(t1, tool, key, items))
  }

  /** The descriptor after an operation, and whether it returned normally
      rather than raising. A raising operation may leave a partly updated
      descriptor behind. */
  datatype Update = Update(ok: bool, after: Edam)

  /** `add_include_dirs`: for icarus then verilator, ensure the option list
      exists, then grow it by each directory in that tool's syntax. Growing an
      option that holds something other than a list raises; when verilator's
      does, icarus has already been updated. */
  function IncludeDirsAdded(e: Edam, dirs: seq<string>): (u: Update)
    ensures u.after.(toolOptions := e.toolOptions) == e
  {
    var icarus := GrowOption(e.toolOptions, "icarus", "iverilog_options", IcarusFlags(dirs));
    if !icarus.ok then Update(false, e.(toolOptions := icarus.options))
    else
      assert BagOf(icarus.options, "verilator") == BagOf(e.toolOptions, "verilator");
      var verilator := GrowOption(icarus.options, "verilator", "verilator_options", VerilatorFlags(dirs));
      Update(verilator.ok, e.(toolOptions := verilator.options))
  }

  /** `add_include_dirs` raises exactly when there are directories and one of
      the two options already holds something other than a list. */
  lemma IncludeDirsAddedRaises(e: Edam, dirs: seq<string>)
    ensures IncludeDirsAdded(e, dirs).ok <==>
              dirs == [] ||
              (ListOrAbsent(e.toolOptions, "icarus", "iverilog_options") &&
               ListOrAbsent(e.toolOptions, "verilator", "verilator_options"))
  {
    var icarus := GrowOption(e.toolOptions, "icarus", "iverilog_options", IcarusFlags(dirs));
    assert BagOf(icarus.options, "verilator") == BagOf(e.toolOptions, "verilator");
  }

  /** The icarus option grows by two entries per directory, '-I' then the
      directory; the verilator option by one '-I<dir>' per directory. */
  lemma IncludeDirsAddedFlags(e: Edam, dirs: seq<string>)
    ensures var u := IncludeDirsAdded(e, dirs);
            ListOrAbsent(e.toolOptions, "icarus", "iverilog_options") ==>
              u.after.toolOptions["icarus"]["iverilog_options"] ==
              List(ItemsOf(e.toolOptions, "icarus", "iverilog_options") + IcarusFlags(dirs))
    ensures var u := IncludeDirsAdded(e, dirs);
            u.ok && ListOrAbsent(e.toolOptions, "verilator", "verilator_options") ==>
              u.after.toolOptions["verilator"]["verilator_options"] ==
              List(ItemsOf(e.toolOptions, "verilator", "verilator_options") + VerilatorFlags(dirs))
  {
    var icarus := GrowOption(e.toolOptions, "icarus", "iverilog_options", IcarusFlags(dirs));
    assert BagOf(icarus.options, "verilator") == BagOf(e.toolOptions, "verilator");
    if icarus.ok {
      var verilator := GrowOption(icarus.options, "verilator", "verilator_options", VerilatorFlags(dirs));
      assert IncludeDirsAdded(e, dirs) == Update(verilator.ok, e.(toolOptions := verilator.options));
      assert verilator.options["icarus"] == icarus.options["icarus"];
    } else {
      assert IncludeDirsAdded(e, dirs) == Update(false, e.(toolOptions := icarus.options));
    }
  }

  /** No tool other than icarus and verilator is touched. */
  lemma IncludeDirsAddedOtherTools(e: Edam, dirs: seq<string>)
    ensures var u := IncludeDirsAdded(e, dirs);
            forall t :: t in e.toolOptions && t != "icarus" && t != "verilator" ==>
              t in u.after.toolOptions && u.after.toolOptions[t] == e.toolOptions[t]
    ensures var u := IncludeDirsAdded(e, dirs);
            u.ok ==> u.after.toolOptions.Keys == e.toolOptions.Keys + {"icarus", "verilator"}
  {
    var icarus := GrowOption(e.toolOptions, "icarus", "iverilog_options", IcarusFlags(dirs));
    if icarus.ok {
      var verilator := GrowOption(icarus.options, "verilator", "verilator_options", VerilatorFlags(dirs));
      assert IncludeDirsAdded(e, dirs).after.toolOptions == verilator.options;
    }
  }

  /** Of the two tools' bags, only the include option changes. */
  lemma IncludeDirsAddedOtherOptions(e: Edam, dirs: seq<string>)
    requires IncludeDirsAdded(e, dirs).ok
    ensures var after := IncludeDirsAdded(e, dirs).after.toolOptions;
            forall k :: k in BagOf(e.toolOptions, "icarus") && k != "iverilog_options" ==>
              after["icarus"][k] == BagOf(e.toolOptions, "icarus")[k]
    ensures var after := IncludeDirsAdded(e, dirs).after.toolOptions;
            forall k :: k in BagOf(e.toolOptions, "verilator") && k != "verilator_options" ==>
              after["verilator"][k] == BagOf(e.toolOptions, "verilator")[k]
  {
    var icarus := GrowOption(e.toolOptions, "icarus", "iverilog_options", IcarusFlags(dirs));
    assert BagOf(icarus.options, "verilator") == BagOf(e.toolOptions, "verilator");
    var verilator := GrowOption(icarus.options, "verilator", "verilator_options", VerilatorFlags(dirs));
    assert IncludeDirsAdded(e, dirs).after.toolOptions == verilator.options;
    assert verilator.options["icarus"] == icarus.options["icarus"];
  }

  /** Growing an option of a tool that has no bag yet creates the bag with
      just that option, holding exactly the new items. */
  lemma GrowOptionFresh(to: ToolOptions, tool: string, key: string, items: seq<Value>)
    requires tool !in to
    ensures GrowOption(to, tool, key, items) == Grown(true, to[tool := map[key := List(items)]])
  {
    var t1 := WithOptionList(to, tool, key);
    assert t1 == to[tool := map[key := List([])]];
    assert [] + items == items;
    assert t1[tool][key := List(items)] == map[key := List(items)];
  }

  /** On a descriptor without tool options, the call cannot raise and leaves
      exactly the two include options behind. */
  lemma IncludeDirsAddedFresh(e: Edam, dirs: seq<string>)
    requires e.toolOptions == map[]
    ensures IncludeDirsAdded(e, dirs).ok
    ensures IncludeDirsAdded(e, dirs).after.toolOptions ==
              map["icarus" := map["iverilog_options" := List(IcarusFlags(dirs))],
                  "verilator" := map["verilator_options" := List(VerilatorFlags(dirs))]]
  {
    GrowOptionFresh(e.toolOptions, "icarus", "iverilog_options", IcarusFlags(dirs));
    var icarus := GrowOption(e.toolOptions, "icarus", "iverilog_options", IcarusFlags(dirs));
    GrowOptionFresh(icarus.options, "verilator", "verilator_options", VerilatorFlags(dirs));
  }

  /** `build`: fails exactly when the name is empty, and otherwise hands back
      the accumulated descriptor as it is. */
  function Built(e: Edam): (r: Result<Edam, string>)
    ensures r.Failure? <==> e.name == ""
    ensures r.Success? ==> r.value == e
  {
    if e.name == "" then Failure("EDAM 'name' is required") else Success(e)
  }

  /** The per-name facts about writing parameters determine the whole table. */
  lemma WrittenParametersDetermined(table: map<string, Value>, params: map<string, Value>, p: map<string, Value>)
    requires forall k :: k in p <==> k in table || k in params
    requires forall k :: k in params ==> p[k] == ParameterEntry(params[k])
    requires forall k :: k in table && k !in params ==> p[k] == table[k]
    ensures p == WrittenParameters(table, params)
  {
    var q := WrittenParameters(table, params);
    forall k | k in p
      ensures p[k] == q[k]
    {
    }
  }

  /** The per-name facts about writing plusargs determine the whole table. */
  lemma WrittenPlusargsDetermined(table: map<string, Value>, plusargs: map<string, Value>, p: map<string, Value>)
    requires forall k :: k in p <==> k in table || k in plusargs
    requires forall k :: k in plusargs ==> p[k] == PlusargEntry(plusargs[k])
    requires forall k :: k in table && k !in plusargs ==> p[k] == table[k]
    ensures p == WrittenPlusargs(table, plusargs)
  {
    var q := WrittenPlusargs(table, plusargs);
    forall k | k in p
      ensures p[k] == q[k]
    {
    }
  }

  /** Chained calls that write different parts of the descriptor can be made
      in either order: every pair among `add_files`, `set_toplevel`, the two
      parameter writers (which share the parameter table), `set_tool_options`
      and `set_flow_options`. */
  lemma DisjointCallsCommute(e: Edam, files: seq<DvFile>, arg: ToplevelArg, params: map<string, Value>,
                             plusargs: map<string, Value>, tool: string, options: map<string, Value>,
                             flow: map<string, Value>)
    ensures AddedFiles(WithToplevel(e, arg), files) == WithToplevel(AddedFiles(e, files), arg)
    ensures AddedFiles(AddedParameters(e, params), files) == AddedParameters(AddedFiles(e, files), params)
    ensures AddedFiles(AddedPlusargs(e, plusargs), files) == AddedPlusargs(AddedFiles(e, files), plusargs)
    ensures AddedFiles(WithToolOptions(e, tool, options), files) == WithToolOptions(AddedFiles(e, files), tool, options)
    ensures AddedFiles(WithFlowOptions(e, flow), files) == WithFlowOptions(AddedFiles(e, files), flow)
    ensures WithToplevel(AddedParameters(e, params), arg) == AddedParameters(WithToplevel(e, arg), params)
    ensures WithToplevel(AddedPlusargs(e, plusargs), arg) == AddedPlusargs(WithToplevel(e, arg), plusargs)
    ensures WithToplevel(WithToolOptions(e, tool, options), arg) == WithToolOptions(WithToplevel(e, arg), tool, options)
    ensures WithToplevel(WithFlowOptions(e, flow), arg) == WithFlowOptions(WithToplevel(e, arg), flow)
    ensures AddedParameters(WithToolOptions(e, tool, options), params) == WithToolOptions(AddedParameters(e, params), tool, options)
    ensures AddedParameters(WithFlowOptions(e, flow), params) == WithFlowOptions(AddedParameters(e, params), flow)
    ensures AddedPlusargs(WithToolOptions(e, tool, options), plusargs) == WithToolOptions(AddedPlusargs(e, plusargs), tool, options)
    ensures AddedPlusargs(WithFlowOptions(e, flow), plusargs) == WithFlowOptions(AddedPlusargs(e, plusargs), flow)
    ensures WithToolOptions(WithFlowOptions(e, flow), tool, options) == WithFlowOptions(WithToolOptions(e, tool, options), flow)
  {
  }

  /** `add_include_dirs` touches only the tool options: made before or after
      any call that writes another part of the descriptor, it raises in the
      same cases and leaves the same descriptor. */
  lemma IncludeDirsAddedCommutes(e: Edam, dirs: seq<string>, files: seq<DvFile>, arg: ToplevelArg,
                                 params: map<string, Value>, plusargs: map<string, Value>, flow: map<string, Value>)
    ensures var u := IncludeDirsAdded(e, dirs);
            && IncludeDirsAdded(AddedFiles(e, files), dirs) == Update(u.ok, AddedFiles(u.after, files))
            && IncludeDirsAdded(WithToplevel(e, arg), dirs) == Update(u.ok, WithToplevel(u.after, arg))
            && IncludeDirsAdded(AddedParameters(e, params), dirs) == Update(u.ok, AddedParameters(u.after, params))
            && IncludeDirsAdded(AddedPlusargs(e, plusargs), dirs) == Update(u.ok, AddedPlusargs(u.after, plusargs))
            && IncludeDirsAdded(WithFlowOptions(e, flow), dirs) == Update(u.ok, WithFlowOptions(u.after, flow))
  {
  }

  /** Accumulates one descriptor through chained calls; every call updates
      `edam` in place. */
  class EdamBuilder {
    var edam: Edam

    /** A fresh descriptor: the given name, no files, parameters or options,
        and no toplevel yet (an empty list). */
    constructor (name: string)
      ensures edam.name == name
      ensures edam.files == [] && edam.parameters == map[]
      ensures edam.toolOptions == map[] && edam.flowOptions == map[]
      ensures edam.toplevel == List([])
    {
      edam := Initial(name);
    }

    method AddFiles(files: seq<DvFile>)
      modifies this
      ensures edam == AddedFiles(old(edam), files)
    {
      ghost var start := edam;
      for i := 0 to |files|
        invariant edam == AddedFiles(start, files[..i])
      {
        AddedFilesSnoc(start, files, i);
        edam := edam.(files := edam.files + [ToEdamFile(files[i])]);
      }
      assert files[..|files|] == files;
    }

    method SetToplevel(toplevel: ToplevelArg)
      modifies this
      ensures edam == WithToplevel(old(edam), toplevel)
    {
      match toplevel
      case Names(names) =>
        edam := edam.(toplevel := Str(if names != [] then names[0] else ""));
      case Name(name) =>
        edam := edam.(toplevel := Str(name));
    }

    method AddParameters(parameters: map<string, Value>)
      modifies this
      ensures edam == AddedParameters(old(edam), parameters)
    {
      var table := WriteParameters(edam.parameters, parameters);
      edam := edam.(parameters := table);
    }

    /** The loop of `add_parameters`, name by name. The table is updated as a
        local value and stored once; nothing reads it in between. */
    static method WriteParameters(table: map<string, Value>, parameters: map<string, Value>)
      returns (r: map<string, Value>)
      ensures r == WrittenParameters(table, parameters)
    {
      r := table;
      var remaining := parameters.Keys;
      while remaining != {}
        invariant remaining <= parameters.Keys
        invariant forall k :: k in r <==> k in table || (k in parameters && k !in remaining)
        invariant forall k :: k in parameters && k !in remaining ==> r[k] == ParameterEntry(parameters[k])
        invariant forall k :: k in table && (k !in parameters || k in remaining) ==> r[k] == table[k]
        decreases |remaining|
      {
        var name :| name in remaining;
        var value := parameters[name];
        if value.Dict? {
          r := r[name := value];
        } else {
          r := r[name := ParamRecord(value, "vlogparam")];
        }
        remaining := remaining - {name};
      }
      WrittenParametersDetermined(table, parameters, r);
    }

    method AddPlusargs(plusargs: map<string, Value>)
      modifies this
      ensures edam == AddedPlusargs(old(edam), plusargs)
    {
      var table := WritePlusargs(edam.parameters, plusargs);
      edam := edam.(parameters := table);
    }

    /** The loop of `add_plusargs`, name by name. */
    static method WritePlusargs(table: map<string, Value>, plusargs: map<string, Value>)
      returns (r: map<string, Value>)
      ensures r == WrittenPlusargs(table, plusargs)
    {
      r := table;
      var remaining := plusargs.Keys;
      while remaining != {}
        invariant remaining <= plusargs.Keys
        invariant forall k :: k in r <==> k in table || (k in plusargs && k !in remaining)
        invariant forall k :: k in plusargs && k !in remaining ==> r[k] == PlusargEntry(plusargs[k])
        invariant forall k :: k in table && (k !in plusargs || k in remaining) ==> r[k] == table[k]
        decreases |remaining|
      {
        var name :| name in remaining;
        r := r[name := PlusargEntry(plusargs[name])];
        remaining := remaining - {name};
      }
      WrittenPlusargsDetermined(table, plusargs, r);
    }

    method SetToolOptions(tool: string, options: map<string, Value>)
      modifies this
      ensures edam == WithToolOptions(old(edam), tool, options)
    {
      if tool !in edam.toolOptions {
        edam := edam.(toolOptions := edam.toolOptions[tool := map[]]);
      }
      edam := edam.(toolOptions := edam.toolOptions[tool := edam.toolOptions[tool] + options]);
    }

    method SetFlowOptions(options: map<string, Value>)
      modifies this
      ensures edam == WithFlowOptions(old(edam), options)
    {
      edam := edam.(flowOptions := edam.flowOptions + options);
    }

    /** Returns false where the source raises; the descriptor then keeps the
        changes made before the failing step. */
    method AddIncludeDirs(includeDirs: seq<string>) returns (ok: bool)
      modifies this
      ensures Update(ok, edam) == IncludeDirsAdded(old(edam), includeDirs)
    {
      ghost var start := edam;
      ok := GrowIncludeOption("icarus", "iverilog_options", includeDirs, true);
      if !ok {
        return;
      }
      ok := GrowIncludeOption("verilator", "verilator_options", includeDirs, false);
    }

    /** One tool's share of `add_include_dirs`: ensure the option list, then
        add each directory in that tool's syntax. */
    method GrowIncludeOption(tool: string, key: string, includeDirs: seq<string>, separate: bool)
      returns (ok: bool)
      modifies this
      ensures var flags := if separate then IcarusFlags(includeDirs) else VerilatorFlags(includeDirs);
              Update(ok, edam) == Update(GrowOption(old(edam).toolOptions, tool, key, flags).ok,
                                         old(edam).(toolOptions := GrowOption(old(edam).toolOptions, tool, key, flags).options))
    {
      if tool !in edam.toolOptions {
        edam := edam.(toolOptions := edam.toolOptions[tool := map[]]);
      }
      if key !in edam.toolOptions[tool] {
        edam := edam.(toolOptions := edam.toolOptions[tool := edam.toolOptions[tool][key := List([])]]);
      }
      assert edam.toolOptions == WithOptionList(old(edam).toolOptions, tool, key);
      var current := edam.toolOptions[tool][key];
      if !current.List? {
        ok := includeDirs == [];
        return;
      }
      ok := true;
      // The list is grown in place in the source; here its items are grown
      // and written back once, which nothing in between can observe.
      var items := ExtendedByFlags(current.items, includeDirs, separate);
      edam := edam.(toolOptions := edam.toolOptions[tool := edam.toolOptions[tool][key := List(items)]]);
    }

    /** The per-directory loop of `add_include_dirs`: icarus gets '-I' and the
        directory as two items, verilator one item with '-I' in front. */
    static method ExtendedByFlags(items: seq<Value>, includeDirs: seq<string>, separate: bool)
      returns (r: seq<Value>)
      ensures r == items + if separate then IcarusFlags(includeDirs) else VerilatorFlags(includeDirs)
    {
      r := items;
      if separate {
        for i := 0 to |includeDirs|
          invariant r == items + IcarusFlags(includeDirs[..i])
        {
          IcarusFlagsSnoc(includeDirs, i);
          r := r + [Str("-I"), Str(includeDirs[i])];
        }
      } else {
        for i := 0 to |includeDirs|
          invariant r == items + VerilatorFlags(includeDirs[..i])
        {
          VerilatorFlagsSnoc(includeDirs, i);
          r := r + [Str("-I" + includeDirs[i])];
        }
      }
      assert includeDirs[..|includeDirs|] == includeDirs;
    }

    method Build() returns (r: Result<Edam, string>)
      ensures r == Built(edam)
    {
      if edam.name == "" {
        return Failure("EDAM 'name' is required");
      }
      return Success(edam);
    }
  }
}
