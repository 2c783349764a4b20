# dv-flow-libfusesoc in Dafny

This project models the two conversion components of dv-flow-libfusesoc, the
bridge between FuseSoC cores and the DV Flow build system, and proves
properties about the model.

- **The fileset converter** (`FilesetConverter`). It takes the file records
  a core reports and turns them into the flow's neutral file records:
  - It maps FuseSoC type tags to flow categories, and passes unknown tags
    through unchanged.
  - It renames the optional attributes.
  - It drops records without a name.
  - It resolves relative names against the core root, then the files root,
    and falls back to the core root.
  - It collects the sorted, duplicate-free include directories.
  - It filters records by category.
- **The descriptor builder** (`EdamBuilder`). It holds one EDAM descriptor,
  the EDA metadata Edalize consumes, and its chained calls update that
  descriptor in place:
  - append file entries;
  - normalise the toplevel to a string;
  - write parameters and plusargs, inferring their datatype;
  - merge tool and flow option bags;
  - add include flags in icarus syntax (`-I`, `dir`) and verilator syntax
    (`-Idir`);
  - refuse to build a descriptor without a name.
- **`build_edam_from_core`**, which composes the two.

Modules, one per concern:

- `Wrappers` (`wrappers.dfy`): `Option` and `Result`.
- `PyValues` (`py_values.dfy`): the Python values that occur in records and
  parameters, and Python truthiness.
- `Paths` (`paths.dfy`): POSIX paths as strings. The disk is an abstract
  snapshot, `FileSystem`: the set of paths that exist, plus the map that
  `Path.resolve()` applies.
- `Sorting` (`sorting.dfy`): `sorted()` on strings, which compares by code
  point. It is specified by `SortedOf` and implemented by insertion.
- `FileRecords` (`file_records.dfy`): the core's file records and the
  flow's file records. Each is a dictionary whose optional keys are
  `Option` fields.
- `FusesocFileset` (`fusesoc_fileset.dfy`): the converter. Pure
  specification functions, plus the class `FilesetConverter`, whose loop
  methods are proved equal to those functions.
- `EdamBuilding` (`edam_builder.dfy`): the descriptor, one specification
  function per builder call, and the class `EdamBuilder`, whose field
  `edam` every method updates.
- `EdamFromCore` (`edam_from_core.dfy`): `build_edam_from_core` and what
  the composition of the two type tables does to each tag.

Where the source raises, the model returns an error value:

- `build` returns `Failure` for an empty name.
- `add_include_dirs` returns `ok == false` when there is at least one
  directory and an existing include option is not a list, so that
  `extend`/`append` would raise `AttributeError`. With no directories the
  loops do not run, and nothing raises.
  The descriptor then keeps the changes made before that step.

A file whose tag is one of the eleven the converter's table lists ends up
with one of five descriptor types. A core file keeps its tag through the
composition only for `verilogSource`, `systemVerilogSource`, `vhdlSource`,
`tclSource` and `user`:

- `vhdlSource-2008` becomes `vhdlSource`;
- every constraint format becomes `user`.

An unlisted tag passes through the converter unchanged and is then looked
up in the builder's table. So `sdc` becomes `SDC`, `ucf` becomes `UCF` and
`vhdl-2008` becomes `vhdlSource-2008`; a tag neither table lists becomes
`user`.

## Model

| member | source | states |
|---|---|---|
| Paths.IsAbs | src/dv_flow/libfusesoc/fusesoc_fileset.py:130 | `os.path.isabs` on POSIX: the path starts with a separator |
| Paths.Join | src/dv_flow/libfusesoc/fusesoc_fileset.py:134 | `root / f` starts with the root and ends with the name; an empty root (the current directory) gives the name itself; absolute iff the root is, for a relative name |
| Paths.Parent | src/dv_flow/libfusesoc/fusesoc_fileset.py:170 | the text before the last separator; "/" directly under the root; "." for a bare name |
| Sorting.Below | src/dv_flow/libfusesoc/fusesoc_fileset.py:172 | Python's `<` on strings: lexicographic by code point, a proper prefix first |
| Sorting.Insert | src/dv_flow/libfusesoc/fusesoc_fileset.py:172 | inserting into a strictly sorted list keeps it strictly sorted and adds exactly the new element |
| Sorting.SortedOf | src/dv_flow/libfusesoc/fusesoc_fileset.py:172 | strictly increasing in code-point order, with exactly the elements of the set |
| Sorting.SortedUnique | src/dv_flow/libfusesoc/fusesoc_fileset.py:172 | two strictly sorted lists with the same elements are equal, so the sorted list of a set is unique |
| Sorting.SortedList | src/dv_flow/libfusesoc/fusesoc_fileset.py:172 | `sorted(list(s))` returns the unique strictly sorted list of the set's elements |
| PyValues.Truthy | src/dv_flow/libfusesoc/fusesoc_fileset.py:166 | Python truthiness: `None`, `False`, zero and empty strings and containers are false |
| FusesocFileset.ConvertedType | src/dv_flow/libfusesoc/fusesoc_fileset.py:93-94 | an absent tag gives 'user'; a listed tag gives its table category; an unlisted tag comes back unchanged |
| FusesocFileset.HasName | src/dv_flow/libfusesoc/fusesoc_fileset.py:85-87 | a record is converted only when its name is present and non-empty |
| FusesocFileset.Candidates | src/dv_flow/libfusesoc/fusesoc_fileset.py:133-142 | the core-root path, then the files-root path only when the files root differs |
| FusesocFileset.FirstExisting | src/dv_flow/libfusesoc/fusesoc_fileset.py:133-145 | the first candidate that exists, with no earlier one existing; the fallback when none exists |
| FusesocFileset.ResolveFilePath | src/dv_flow/libfusesoc/fusesoc_fileset.py:120-145 | an absolute name is returned unchanged; a relative one is the resolved first existing candidate, falling back to the core root |
| FusesocFileset.ResolvePreference | src/dv_flow/libfusesoc/fusesoc_fileset.py:133-145 | the core root wins when the file exists there; the files root wins only when it differs and the file exists there; otherwise the core root path |
| FusesocFileset.ConvertFile | src/dv_flow/libfusesoc/fusesoc_fileset.py:75-118 | skipped exactly when the name is missing or empty; otherwise the resolved path, mapped type and name, with each optional attribute copied under its new key and `include_path` resolved |
| FusesocFileset.RenamedKey | src/dv_flow/libfusesoc/fusesoc_fileset.py:104-116 | each optional key present in the input appears under its new name |
| FusesocFileset.RenamedFrom | src/dv_flow/libfusesoc/fusesoc_fileset.py:104-116 | each renamed key comes from an optional key present in the input |
| FusesocFileset.RenamedKeysByTable | src/dv_flow/libfusesoc/fusesoc_fileset.py:104-116 | the renamed optional keys are those obtained from the input's keys through the rename table |
| FusesocFileset.ConvertedKeys | src/dv_flow/libfusesoc/fusesoc_fileset.py:97-116 | a converted record has `path`, `type` and `name` plus exactly the renamed optional keys of its input |
| FusesocFileset.ConvertAll | src/dv_flow/libfusesoc/fusesoc_fileset.py:66-73 | never longer than its input; every record has a non-empty name, a path and a type |
| FusesocFileset.ConvertAllCount | src/dv_flow/libfusesoc/fusesoc_fileset.py:66-87 | exactly one output record per named input |
| FusesocFileset.ConvertAllConcat | src/dv_flow/libfusesoc/fusesoc_fileset.py:68-71 | converting a concatenation concatenates the conversions, so input order is kept |
| FusesocFileset.ConvertAllAt | src/dv_flow/libfusesoc/fusesoc_fileset.py:68-71 | the i-th input, when named, is converted at the index that counts the named inputs before it |
| FusesocFileset.IncludeDirsOf | src/dv_flow/libfusesoc/fusesoc_fileset.py:159-170 | one record's directories: its resolved `include_path`, and the parent of its resolved name when it is a truthily flagged, named include file |
| FusesocFileset.IncludeDirSet | src/dv_flow/libfusesoc/fusesoc_fileset.py:157-170 | the union of every record's directories, the reference for the collecting loop |
| FusesocFileset.IncludeDirSetMembers | src/dv_flow/libfusesoc/fusesoc_fileset.py:157-170 | a directory is collected iff some record's resolved `include_path` is that directory, or some flagged include file's resolved name has it as parent |
| FusesocFileset.HasType | src/dv_flow/libfusesoc/fusesoc_fileset.py:185 | a record has a `type` and it is one of the listed ones |
| FusesocFileset.FilterByType | src/dv_flow/libfusesoc/fusesoc_fileset.py:185 | never longer than its input; a record is kept iff it is in the input and its type is listed |
| FusesocFileset.FilterByTypeConcat | src/dv_flow/libfusesoc/fusesoc_fileset.py:185 | filtering a concatenation concatenates the filtered parts, so order is kept |
| FusesocFileset.GetSourceFiles | src/dv_flow/libfusesoc/fusesoc_fileset.py:187-198 | the filter for 'verilog', 'systemverilog' and 'vhdl': exactly the input records of those types |
| FusesocFileset.FilesetConverter.constructor | src/dv_flow/libfusesoc/fusesoc_fileset.py:45-54 | without a files root, the files root is the core root |
| FusesocFileset.FilesetConverter.ConvertFiles | src/dv_flow/libfusesoc/fusesoc_fileset.py:56-73 | the loop returns the converted records of the named inputs in order (`ConvertAll`) |
| FusesocFileset.FilesetConverter.ExtractIncludeDirs | src/dv_flow/libfusesoc/fusesoc_fileset.py:147-172 | the loop returns the sorted, duplicate-free list of the collected directories |
| EdamBuilding.Initial | src/dv_flow/libfusesoc/edam_builder.py:38-45 | a new descriptor: the name, no files, parameters or options, and an empty-list toplevel |
| EdamBuilding.MapFileType | src/dv_flow/libfusesoc/edam_builder.py:207-221 | a listed tag gives its table type and an unlisted one 'user'; so the result is always one of the table's types, and 'user' iff the tag is unlisted, 'constraint' or 'user' |
| EdamBuilding.InferDatatype | src/dv_flow/libfusesoc/edam_builder.py:223-232 | one of four tags: 'bool' iff a bool, 'int' iff an int, 'real' iff a float, otherwise 'str' |
| EdamBuilding.ToEdamFile | src/dv_flow/libfusesoc/edam_builder.py:58-71 | the entry is named by the path, else the name, else "None"; its type is the mapped type; each optional attribute is present iff the input's is truthy |
| EdamBuilding.AddedFiles | src/dv_flow/libfusesoc/edam_builder.py:57-73 | one entry per input is appended, in order; earlier entries and the other fields are unchanged |
| EdamBuilding.WithToplevel | src/dv_flow/libfusesoc/edam_builder.py:88-91 | the toplevel is always a string: the name, the first element of a list, or "" for an empty list; nothing else changes |
| EdamBuilding.ParamRecord | src/dv_flow/libfusesoc/edam_builder.py:110-114 | the record built for a plain value: its inferred datatype, the value as default, and the given parameter type |
| EdamBuilding.ParameterEntry | src/dv_flow/libfusesoc/edam_builder.py:105-114 | a dictionary is stored as it is, any other value as a 'vlogparam' record |
| EdamBuilding.PlusargEntry | src/dv_flow/libfusesoc/edam_builder.py:128-132 | every value, dictionaries included, as a 'plusarg' record |
| EdamBuilding.WrittenParameters | src/dv_flow/libfusesoc/edam_builder.py:104-114 | the table holds the old names and the given ones; each given name holds its entry (a dict as is, otherwise a 'vlogparam' record); other names keep their values |
| EdamBuilding.AddedParameters | src/dv_flow/libfusesoc/edam_builder.py:104-114 | every given name is written: a dict verbatim, a plain value as a 'vlogparam' record; other names and fields are unchanged |
| EdamBuilding.WrittenPlusargs | src/dv_flow/libfusesoc/edam_builder.py:127-132 | the table holds the old names and the given ones; each given name holds a 'plusarg' record; other names keep their values |
| EdamBuilding.AddedPlusargs | src/dv_flow/libfusesoc/edam_builder.py:127-132 | every given name is written as a 'plusarg' record; other names and fields are unchanged |
| EdamBuilding.WithToolOptions | src/dv_flow/libfusesoc/edam_builder.py:146-148 | only that tool's bag changes: the given keys overwrite, other keys and other tools are kept |
| EdamBuilding.WithFlowOptions | src/dv_flow/libfusesoc/edam_builder.py:161 | the given keys overwrite, the other flow options are kept |
| EdamBuilding.IcarusFlags | src/dv_flow/libfusesoc/edam_builder.py:183-184 | two items per directory, '-I' then the directory, in order |
| EdamBuilding.VerilatorFlags | src/dv_flow/libfusesoc/edam_builder.py:189-190 | one item '-I' followed by the directory per directory, in order |
| EdamBuilding.WithOptionList | src/dv_flow/libfusesoc/edam_builder.py:177-182 | the tool's bag and the option exist afterwards; existing values are kept and a missing option is an empty list |
| EdamBuilding.GrowOption | src/dv_flow/libfusesoc/edam_builder.py:177-190 | raises iff there are items and the option holds a non-list; a list option is extended by the items; no other option or tool changes |
| EdamBuilding.IncludeDirsAdded | src/dv_flow/libfusesoc/edam_builder.py:176-190 | only the tool options change |
| EdamBuilding.IncludeDirsAddedRaises | src/dv_flow/libfusesoc/edam_builder.py:176-190 | the call raises iff there are directories and either include option already holds something other than a list |
| EdamBuilding.IncludeDirsAddedFlags | src/dv_flow/libfusesoc/edam_builder.py:180-190 | the icarus option grows by the icarus flags and the verilator option by the verilator flags; existing entries are kept in front |
| EdamBuilding.IncludeDirsAddedOtherTools | src/dv_flow/libfusesoc/edam_builder.py:176-190 | no other tool is touched; on success, exactly the icarus and verilator bags are added |
| EdamBuilding.IncludeDirsAddedOtherOptions | src/dv_flow/libfusesoc/edam_builder.py:176-190 | within the two bags, only the include option changes |
| EdamBuilding.GrowOptionFresh | src/dv_flow/libfusesoc/edam_builder.py:177-184 | for a tool without a bag, the new bag holds just the option with exactly the new items |
| EdamBuilding.IncludeDirsAddedFresh | src/dv_flow/libfusesoc/edam_builder.py:176-190 | without prior tool options the call cannot raise, and it leaves exactly the two include options |
| EdamBuilding.Built | src/dv_flow/libfusesoc/edam_builder.py:202-205 | fails iff the name is empty, and otherwise returns the descriptor unchanged |
| EdamBuilding.WrittenParametersDetermined | src/dv_flow/libfusesoc/edam_builder.py:104-114 | any table with the right names, the new entries for the given names and the old values elsewhere is the written table |
| EdamBuilding.WrittenPlusargsDetermined | src/dv_flow/libfusesoc/edam_builder.py:127-132 | any table with the right names, the plusarg records for the given names and the old values elsewhere is the written table |
| EdamBuilding.DisjointCallsCommute | src/dv_flow/libfusesoc/edam_builder.py:47-162 | every pair among `add_files`, `set_toplevel`, `add_parameters` or `add_plusargs`, `set_tool_options` and `set_flow_options` that write different fields commutes (14 pairs) |
| EdamBuilding.IncludeDirsAddedCommutes | src/dv_flow/libfusesoc/edam_builder.py:47-191 | `add_include_dirs` commutes with `add_files`, `set_toplevel`, `add_parameters`, `add_plusargs` and `set_flow_options`: same outcome, same descriptor |
| EdamBuilding.EdamBuilder.constructor | src/dv_flow/libfusesoc/edam_builder.py:31-45 | the given name, no files, parameters or options, and an empty-list toplevel |
| EdamBuilding.EdamBuilder.AddFiles | src/dv_flow/libfusesoc/edam_builder.py:47-75 | the loop leaves `AddedFiles` of the old descriptor |
| EdamBuilding.EdamBuilder.SetToplevel | src/dv_flow/libfusesoc/edam_builder.py:77-92 | leaves `WithToplevel` of the old descriptor |
| EdamBuilding.EdamBuilder.AddParameters | src/dv_flow/libfusesoc/edam_builder.py:94-115 | leaves `AddedParameters` of the old descriptor |
| EdamBuilding.EdamBuilder.WriteParameters | src/dv_flow/libfusesoc/edam_builder.py:104-114 | the loop over the names, in any order, yields the written table |
| EdamBuilding.EdamBuilder.AddPlusargs | src/dv_flow/libfusesoc/edam_builder.py:117-133 | leaves `AddedPlusargs` of the old descriptor |
| EdamBuilding.EdamBuilder.WritePlusargs | src/dv_flow/libfusesoc/edam_builder.py:127-132 | the loop over the names, in any order, yields the written table |
| EdamBuilding.EdamBuilder.SetToolOptions | src/dv_flow/libfusesoc/edam_builder.py:135-149 | leaves `WithToolOptions` of the old descriptor |
| EdamBuilding.EdamBuilder.SetFlowOptions | src/dv_flow/libfusesoc/edam_builder.py:151-162 | leaves `WithFlowOptions` of the old descriptor |
| EdamBuilding.EdamBuilder.AddIncludeDirs | src/dv_flow/libfusesoc/edam_builder.py:164-192 | the outcome and the new descriptor are `IncludeDirsAdded` of the old one, including the partial update when verilator's option raises |
| EdamBuilding.EdamBuilder.GrowIncludeOption | src/dv_flow/libfusesoc/edam_builder.py:177-190 | one tool's share of the call: the outcome and options of `GrowOption` with that tool's flags |
| EdamBuilding.EdamBuilder.ExtendedByFlags | src/dv_flow/libfusesoc/edam_builder.py:183-190 | the per-directory loop appends exactly that tool's flags after the existing items |
| EdamBuilding.EdamBuilder.Build | src/dv_flow/libfusesoc/edam_builder.py:194-205 | fails iff the name is empty, otherwise returns the current descriptor |
| EdamFromCore.ComposedType | src/dv_flow/libfusesoc/edam_builder.py:259-264 | a core file's descriptor type is one of the builder's types, and 'user' when the tag is absent |
| EdamFromCore.ComposedTypeTable | src/dv_flow/libfusesoc/fusesoc_fileset.py:31-43 | the outcome for every tag the core manager knows: the four source kinds and 'user' return, the 2008 VHDL tag becomes 'vhdlSource', constraint formats become 'user' |
| EdamFromCore.ComposedTypeFixedPoints | src/dv_flow/libfusesoc/edam_builder.py:209-221 | a tag survives both tables iff it is one of those five |
| EdamFromCore.CoreFileToEdamFile | src/dv_flow/libfusesoc/edam_builder.py:259-264 | a named core file becomes an entry named by its resolved path, typed by the composed type, with its include flag and library carried when truthy |
| EdamFromCore.Staged | src/dv_flow/libfusesoc/edam_builder.py:254-266 | the descriptor after the unconditional calls: converted files added, toplevel set, tool written as flow option |
| EdamFromCore.Finished | src/dv_flow/libfusesoc/edam_builder.py:268-275 | the conditional calls in order: include directories when there are any, then non-empty parameters, then non-empty plusargs |
| EdamFromCore.AssembledFromCore | src/dv_flow/libfusesoc/edam_builder.py:254-275 | the descriptor before `build`: the staged descriptor finished with the sorted include directories |
| EdamFromCore.BuiltFromCore | src/dv_flow/libfusesoc/edam_builder.py:254-277 | `build` of the assembled descriptor, the reference the method is proved equal to |
| EdamFromCore.FinishedKeeps | src/dv_flow/libfusesoc/edam_builder.py:268-275 | the conditional calls change only the tool options and the parameters |
| EdamFromCore.FinishedToolOptions | src/dv_flow/libfusesoc/edam_builder.py:268-269 | starting without tool options: none without directories, otherwise exactly the two include options |
| EdamFromCore.FinishedParameters | src/dv_flow/libfusesoc/edam_builder.py:271-275 | starting without parameters: the parameters are written, then the plusargs over them |
| EdamFromCore.ParametersThenPlusargs | src/dv_flow/libfusesoc/edam_builder.py:271-275 | parameters then plusargs in an empty table: both sets of names, a plusarg winning over a parameter of the same name |
| EdamFromCore.BuiltFromCoreHeader | src/dv_flow/libfusesoc/edam_builder.py:263-277 | the call fails iff the core has no name; the descriptor has the core's name, the toplevel and exactly the tool as flow option |
| EdamFromCore.BuiltFromCoreFiles | src/dv_flow/libfusesoc/edam_builder.py:259-264 | one entry per named core file, each the entry of the converted record at the same position |
| EdamFromCore.BuiltFromCoreToolOptions | src/dv_flow/libfusesoc/edam_builder.py:260-269 | no tool options when there are no include directories; otherwise exactly the icarus and verilator include flags of the sorted directories |
| EdamFromCore.BuiltFromCoreParameters | src/dv_flow/libfusesoc/edam_builder.py:271-275 | the parameters are those given and the plusargs; a plusarg replaces a parameter of the same name |
| EdamFromCore.BuildEdamFromCore | src/dv_flow/libfusesoc/edam_builder.py:235-277 | converter, builder calls and build in the source's order give `BuiltFromCore` of the inputs |

## Left out

- The task wrappers `edalize_sim.py` and `fusesoc_core_resolve.py` are not part of this model. They are async glue around external libraries, exception catching and scheduler records.
- `edalize_backend.py` is not part of this model. It drives edalize flows, subprocesses and directory clean-up.
- `fusesoc_manager.py` is not part of this model. It wraps FuseSoC's core and library managers, which are foreign code.
- Disk state is a parameter. `Path.exists()` is membership in a fixed set of paths, and `Path.resolve()` is an arbitrary function. Symlinks, `..` and the working directory are not modelled.
- Joining is textual. pathlib's normalisation of doubled or trailing separators and of `.` components is not modelled, nor is the comparison of two roots that differ only in such spelling.
- `Paths.Parent` models `Path.parent` on the already resolved, normalised paths it receives. Trailing separators are not normalised.
- `str()` of a non-string value is not modelled. File names, include paths and directories are strings, or Path objects for a converted `include_path`.
- `EdamBuilding.EdamBuilder.SetToplevel`: a list argument is a list of strings. Elements of other types are not modelled.
- Floats are real numbers. Their rounding and NaN are not modelled.
- Python's separate `bool` and `int` types are disjoint constructors. So the check for bool before int in `_infer_datatype` holds by construction.
- Dictionary insertion order is not modelled; parameter and option tables are maps. Lists keep their order.
- `EdamBuilding.EdamBuilder.AddParameters`: the loop writes into a local copy of the table, which is stored once afterwards. Nothing reads the table in between, so the result is the same.
- `EdamBuilding.EdamBuilder.AddIncludeDirs`: the option lists are values. The aliasing of a list held both in the descriptor and elsewhere is not modelled. Each list is grown as a copy and written back once.
- `EdamBuilding.EdamBuilder.Build`: the returned descriptor is a value. The source hands back the builder's own dictionary, aliased.
- The builder methods return nothing. The source returns `self` for chaining; the calls are made one after another instead.
- `add_include_dirs` loops over the two tool names. The model makes the icarus step, then the verilator step.
- `EdamFromCore.BuildEdamFromCore`: the `core_files` dictionary is a record. A `KeyError` for a missing `name`, `core_root`, `files_root` or `files` key is not modelled.
- `EdamFromCore.BuildEdamFromCore`: the `tool` argument is explicit; its default `'icarus'` is a caller passing `"icarus"`.
- `EdamFromCore.BuildEdamFromCore`: `None` and an empty dictionary for `parameters` or `plusargs` are both the empty map. The source treats them alike.
- `sorted()` is modelled by insertion into a strictly sorted list. The proved result is the same list.
