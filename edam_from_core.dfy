/** Building a whole descriptor from a core's fileset: convert the files,
    collect their include directories, and feed both to a builder together
    with the toplevel, the tool and any parameters and plusargs. */
module EdamFromCore {
  import opened Wrappers
  import opened PyValues
  import opened Paths
  import opened FileRecords
  import opened FusesocFileset
  import opened EdamBuilding
  import Sorting

  /** What the core manager reports for one core: its name, the directory of
      its core file, the root its file names are relative to, and its files. */
  datatype CoreFileSet = CoreFileSet(name: string, coreRoot: Path, filesRoot: Path, files: seq<CoreFile>)

  /** The descriptor type a core file ends up with: the converter's category,
      then the builder's descriptor type for that category. */
  function ComposedType(fileType: Option<string>): (r: string)
    ensures r in FlowToEdamType.Values
    ensures fileType.None? ==> r == "user"
  {
    MapFileType(ConvertedType(fileType))
  }

  /** The round trip through the flow's categories for each tag the core
      manager knows: the 2008 revision of VHDL becomes plain VHDL, and every
      constraint format becomes 'user'. */
  lemma ComposedTypeTable()
    ensures ComposedType(Some("verilogSource")) == "verilogSource"
    ensures ComposedType(Some("systemVerilogSource")) == "systemVerilogSource"
    ensures ComposedType(Some("vhdlSource")) == "vhdlSource"
    ensures ComposedType(Some("vhdlSource-2008")) == "vhdlSource"
    ensures ComposedType(Some("tclSource")) == "tclSource"
    ensures ComposedType(Some("user")) == "user"
    ensures forall t :: t in {"xdc", "SDC", "UCF", "PCF", "LPF"} ==> ComposedType(Some(t)) == "user"
  {
  }

  /** A core file keeps its type tag through the composition exactly when the
      tag is one of these five; every other tag is changed. */
  lemma {:induction false} ComposedTypeFixedPoints(t: string)
    ensures ComposedType(Some(t)) == t <==>
            t in {"verilogSource", "systemVerilogSource", "vhdlSource", "tclSource", "user"}
  {
    if t in FileTypeMap {
      assert ConvertedType(Some(t)) == FileTypeMap[t];
    } else {
      assert ConvertedType(Some(t)) == t;
      if t in FlowToEdamType {
        assert FlowToEdamType[t] != t;
      }
    }
  }

  /** The descriptor entry a named core file becomes. */
  lemma CoreFileToEdamFile(roots: Roots, fs: FileSystem, fi: CoreFile)
    requires HasName(fi)
    ensures var e := ToEdamFile(ConvertFile(roots, fs, fi).value);
            && e.name == ResolveFilePath(roots, fs, fi.name.value)
            && e.fileType == ComposedType(fi.fileType)
            && (e.isIncludeFile <==> fi.isIncludeFile.Some? && Truthy(fi.isIncludeFile.value))
            && (e.logicalName.Some? <==> fi.logicalName.Some? && Truthy(fi.logicalName.value))
  {
  }

  /** The descriptor after the unconditional calls: files, toplevel and the
      tool as flow option. */
  ghost function Staged(fs: FileSystem, core: CoreFileSet, toplevel: string, tool: string): Edam {
    var roots := Roots(core.coreRoot, core.filesRoot);
    var e1 := AddedFiles(Initial(core.name), ConvertAll(roots, fs, core.files));
    var e2 := WithToplevel(e1, Name(toplevel));
    WithFlowOptions(e2, map["tool" := Str(tool)])
  }

  /** The conditional calls, in the source's order: include directories
      only when there are some, parameters and plusargs only when non-empty. */
  function Finished(e: Edam, dirs: seq<string>, parameters: map<string, Value>, plusargs: map<string, Value>): Edam {
    var e4 := if dirs != [] then IncludeDirsAdded(e, dirs).after else e;
    var e5 := if parameters != map[] then AddedParameters(e4, parameters) else e4;
    if plusargs != map[] then AddedPlusargs(e5, plusargs) else e5
  }

  /** The descriptor `build_edam_from_core` accumulates before building it.
      Empty `parameters` or `plusargs` stand for both the missing and the
      empty dictionary, which the source treats alike. */
  ghost function AssembledFromCore(fs: FileSystem, core: CoreFileSet, toplevel: string, tool: string,
                                   parameters: map<string, Value>, plusargs: map<string, Value>): Edam
  {
    var dirs := Sorting.SortedOf(IncludeDirSet(Roots(core.coreRoot, core.filesRoot), fs, core.files));
    Finished(Staged(fs, core, toplevel, tool), dirs, parameters, plusargs)
  }

  /** `build_edam_from_core`, as a function of the fileset and the call's
      arguments. */
  ghost function BuiltFromCore(fs: FileSystem, core: CoreFileSet, toplevel: string, tool: string,
                               parameters: map<string, Value>, plusargs: map<string, Value>): Result<Edam, string>
  {
    Built(AssembledFromCore(fs, core, toplevel, tool, parameters, plusargs))
  }

  /** The conditional calls change only the tool options and the parameters. */
  lemma FinishedKeeps(e: Edam, dirs: seq<string>, parameters: map<string, Value>, plusargs: map<string, Value>)
    ensures Finished(e, dirs, parameters, plusargs).(toolOptions := e.toolOptions, parameters := e.parameters) == e
  {
    var e4 := if dirs != [] then IncludeDirsAdded(e, dirs).after else e;
    assert e4.(toolOptions := e.toolOptions) == e;
    var e5 := if parameters != map[] then AddedParameters(e4, parameters) else e4;
    assert e5.(parameters := e4.parameters) == e4;
    var e6 := if plusargs != map[] then AddedPlusargs(e5, plusargs) else e5;
    assert e6.(parameters := e5.parameters) == e5;
  }

  /** Starting without tool options: none when there are no directories,
      otherwise exactly the two include options. */
  lemma FinishedToolOptions(e: Edam, dirs: seq<string>, parameters: map<string, Value>, plusargs: map<string, Value>)
    requires e.toolOptions == map[]
    ensures var to := Finished(e, dirs, parameters, plusargs).toolOptions;
            && (dirs == [] ==> to == map[])
            && (dirs != [] ==>
                  to == map["icarus" := map["iverilog_options" := List(IcarusFlags(dirs))],
                            "verilator" := map["verilator_options" := List(VerilatorFlags(dirs))]])
  {
    var e4 := if dirs != [] then IncludeDirsAdded(e, dirs).after else e;
    if dirs != [] {
      IncludeDirsAddedFresh(e, dirs);
    }
    var e5 := if parameters != map[] then AddedParameters(e4, parameters) else e4;
    assert e5.toolOptions == e4.toolOptions;
    var e6 := if plusargs != map[] then AddedPlusargs(e5, plusargs) else e5;
    assert e6.toolOptions == e4.toolOptions;
  }

  /** Starting without parameters: the parameters and plusargs side by side,
      a plusarg replacing a parameter of the same name. */
  lemma FinishedParameters(e: Edam, dirs: seq<string>, parameters: map<string, Value>, plusargs: map<string, Value>)
    requires e.parameters == map[]
    ensures Finished(e, dirs, parameters, plusargs).parameters ==
            WrittenPlusargs(WrittenParameters(map[], parameters), plusargs)
  {
    var e4 := if dirs != [] then IncludeDirsAdded(e, dirs).after else e;
    assert e4.parameters == map[];
    var e5 := if parameters != map[] then AddedParameters(e4, parameters) else e4;
    if parameters == map[] {
      WrittenParametersDetermined(map[], parameters, map[]);
    }
    assert e5.parameters == WrittenParameters(map[], parameters);
    if plusargs == map[] {
      WrittenPlusargsDetermined(e5.parameters, plusargs, e5.parameters);
    }
  }

  /** The call fails exactly when the core has no name; otherwise the
      descriptor carries the core's name, the toplevel and the tool. */
  lemma BuiltFromCoreHeader(fs: FileSystem, core: CoreFileSet, toplevel: string, tool: string,
                            parameters: map<string, Value>, plusargs: map<string, Value>)
    ensures BuiltFromCore(fs, core, toplevel, tool, parameters, plusargs).Failure? <==> core.name == ""
    ensures var e := AssembledFromCore(fs, core, toplevel, tool, parameters, plusargs);
            && e.name == core.name
            && e.toplevel == Str(toplevel)
            && e.flowOptions == map["tool" := Str(tool)]
  {
    var dirs := Sorting.SortedOf(IncludeDirSet(Roots(core.coreRoot, core.filesRoot), fs, core.files));
    var e3 := Staged(fs, core, toplevel, tool);
    FinishedKeeps(e3, dirs, parameters, plusargs);
    assert e3.flowOptions == map["tool" := Str(tool)];
  }

  /** One descriptor entry per named core file, in the core's order, each the
      converted record of that file. */
  lemma BuiltFromCoreFiles(fs: FileSystem, core: CoreFileSet, toplevel: string, tool: string,
                           parameters: map<string, Value>, plusargs: map<string, Value>)
    ensures var e := AssembledFromCore(fs, core, toplevel, tool, parameters, plusargs);
            var converted := ConvertAll(Roots(core.coreRoot, core.filesRoot), fs, core.files);
            && |e.files| == CountNamed(core.files)
            && |e.files| == |converted|
            && forall i :: 0 <= i < |e.files| ==> e.files[i] == ToEdamFile(converted[i])
  {
    var roots := Roots(core.coreRoot, core.filesRoot);
    var dirs := Sorting.SortedOf(IncludeDirSet(roots, fs, core.files));
    var e3 := Staged(fs, core, toplevel, tool);
    FinishedKeeps(e3, dirs, parameters, plusargs);
    assert e3.files == AddedFiles(Initial(core.name), ConvertAll(roots, fs, core.files)).files;
    ConvertAllCount(roots, fs, core.files);
  }

  /** Tool options are created only for include directories: none at all
      when the core has none, otherwise exactly the icarus and verilator
      include flags for the sorted directories. */
  lemma BuiltFromCoreToolOptions(fs: FileSystem, core: CoreFileSet, toplevel: string, tool: string,
                                 parameters: map<string, Value>, plusargs: map<string, Value>)
    ensures var dirSet := IncludeDirSet(Roots(core.coreRoot, core.filesRoot), fs, core.files);
            var to := AssembledFromCore(fs, core, toplevel, tool, parameters, plusargs).toolOptions;
            && (dirSet == {} ==> to == map[])
            && (dirSet != {} ==>
                  to == map["icarus" := map["iverilog_options" := List(IcarusFlags(Sorting.SortedOf(dirSet)))],
                            "verilator" := map["verilator_options" := List(VerilatorFlags(Sorting.SortedOf(dirSet)))]])
  {
    var dirSet := IncludeDirSet(Roots(core.coreRoot, core.filesRoot), fs, core.files);
    var dirs := Sorting.SortedOf(dirSet);
    var e3 := Staged(fs, core, toplevel, tool);
    assert e3.toolOptions == map[];
    if dirSet == {} {
      assert dirs == [];
    } else {
      var x :| x in dirSet;
      assert x in dirs;
    }
    FinishedToolOptions(e3, dirs, parameters, plusargs);
  }

  /** Writing parameters and then plusargs into an empty table. */
  lemma ParametersThenPlusargs(parameters: map<string, Value>, plusargs: map<string, Value>)
    ensures var ps := WrittenPlusargs(WrittenParameters(map[], parameters), plusargs);
            && ps.Keys == parameters.Keys + plusargs.Keys
            && (forall k :: k in plusargs ==> ps[k] == PlusargEntry(plusargs[k]))
            && (forall k :: k in parameters && k !in plusargs ==> ps[k] == ParameterEntry(parameters[k]))
  {
    assert WrittenParameters(map[], parameters).Keys == parameters.Keys;
  }

  /** Parameters and plusargs end up side by side in one table; a plusarg
      replaces a parameter of the same name. */
  lemma BuiltFromCoreParameters(fs: FileSystem, core: CoreFileSet, toplevel: string, tool: string,
                                parameters: map<string, Value>, plusargs: map<string, Value>)
    ensures var ps := AssembledFromCore(fs, core, toplevel, tool, parameters, plusargs).parameters;
            && ps.Keys == parameters.Keys + plusargs.Keys
            && (forall k :: k in plusargs ==> ps[k] == PlusargEntry(plusargs[k]))
            && (forall k :: k in parameters && k !in plusargs ==> ps[k] == ParameterEntry(parameters[k]))
  {
    var dirs := Sorting.SortedOf(IncludeDirSet(Roots(core.coreRoot, core.filesRoot), fs, core.files));
    var e3 := Staged(fs, core, toplevel, tool);
    assert e3.parameters == map[];
    FinishedParameters(e3, dirs, parameters, plusargs);
    ParametersThenPlusargs(parameters, plusargs);
  }

  method BuildEdamFromCore(fs: FileSystem, core: CoreFileSet, toplevel: string, tool: string,
                           parameters: map<string, Value>, plusargs: map<string, Value>)
    returns (r: Result<Edam, string>)
    ensures r == BuiltFromCore(fs, core, toplevel, tool, parameters, plusargs)
  {
    var converter := new FilesetConverter(core.coreRoot, Some(core.filesRoot), fs);
    var convertedFiles := converter.ConvertFiles(core.files);
    var includeDirs := converter.ExtractIncludeDirs(core.files);

    var builder := new EdamBuilder(core.name);
    builder.AddFiles(convertedFiles);
    builder.SetToplevel(Name(toplevel));
    builder.SetFlowOptions(map["tool" := Str(tool)]);
    if includeDirs != [] {
      IncludeDirsAddedFresh(builder.edam, includeDirs);
      var ok := builder.AddIncludeDirs(includeDirs);
      assert ok;
    }
    if parameters != map[] {
      builder.AddParameters(parameters);
    }
    if plusargs != map[] {
      builder.AddPlusargs(plusargs);
    }
    r := builder.Build();
  }
}
