/** Conversion of a core's fileset into the flow's file records: type tags,
    attribute names, path resolution against two roots, include directories
    and filtering by type. */
module FusesocFileset {
  import opened Wrappers
  import opened PyValues
  import opened Paths
  import opened FileRecords
  import Sorting

  /** The core manager's file type tags and the flow's category for each. */
  const FileTypeMap: map<string, string> := map[
    "verilogSource" := "verilog",
    "systemVerilogSource" := "systemverilog",
    "vhdlSource" := "vhdl",
    "vhdlSource-2008" := "vhdl",
    "tclSource" := "tcl",
    "user" := "user",
    "xdc" := "constraint",
    "SDC" := "constraint",
    "UCF" := "constraint",
    "PCF" := "constraint",
    "LPF" := "constraint"
  ]

  /** The flow categories the table produces. */
  const Categories: set<string> := {"verilog", "systemverilog", "vhdl", "tcl", "user", "constraint"}

  /** The `type` of a converted record, for the record's `file_type` (absent
      means 'user'): the table's category, or the tag itself when the table
      does not know it. */
  function ConvertedType(fileType: Option<string>): (r: string)
    ensures fileType.None? ==> r == "user"
    ensures fileType.Some? && fileType.value in FileTypeMap ==> r == FileTypeMap[fileType.value]
    ensures fileType.Some? && fileType.value !in FileTypeMap ==> r == fileType.value
    ensures r in Categories || (fileType.Some? && fileType.value !in FileTypeMap && r == fileType.value)
  {
    var tag := fileType.GetOr("user");
    if tag in FileTypeMap then FileTypeMap[tag] else tag
  }

  /** The two roots a converter resolves relative names against. */
  datatype Roots = Roots(coreRoot: Path, filesRoot: Path)

  /** The first candidate that exists, or `fallback` when none does. */
  function FirstExisting(fs: FileSystem, candidates: seq<Path>, fallback: Path): (r: Path)
    ensures (forall i :: 0 <= i < |candidates| ==> !fs.Exists(candidates[i])) ==> r == fallback
    ensures (exists i :: 0 <= i < |candidates| && fs.Exists(candidates[i])) ==>
              exists i :: 0 <= i < |candidates| && r == candidates[i] && fs.Exists(r) &&
                          forall j :: 0 <= j < i ==> !fs.Exists(candidates[j])
  {
    if candidates == [] then fallback
    else if fs.Exists(candidates[0]) then candidates[0]
    else
      var r := FirstExisting(fs, candidates[1..], fallback);
      assert forall i :: 0 < i < |candidates| ==> candidates[i] == candidates[1..][i - 1];
      r
  }

  /** Where a relative name may live, in order of preference: under the core
      root, then under the files root when that is a different directory. */
  function Candidates(roots: Roots, filename: string): seq<Path> {
    if roots.filesRoot == roots.coreRoot then [Join(roots.coreRoot, filename)]
    else [Join(roots.coreRoot, filename), Join(roots.filesRoot, filename)]
  }

  /** An absolute name is kept as it is; a relative one is resolved under the
      first root where it exists, falling back to the core root (the file may
      be generated later). Never fails. */
  function ResolveFilePath(roots: Roots, fs: FileSystem, filename: string): (r: Path)
    ensures IsAbs(filename) ==> r == filename
    ensures !IsAbs(filename) ==>
              r == fs.Resolve(FirstExisting(fs, Candidates(roots, filename), Join(roots.coreRoot, filename)))
  {
    if IsAbs(filename) then filename
    else
      var corePath := Join(roots.coreRoot, filename);
      if fs.Exists(corePath) then fs.Resolve(corePath)
      else if roots.filesRoot != roots.coreRoot && fs.Exists(Join(roots.filesRoot, filename)) then
        fs.Resolve(Join(roots.filesRoot, filename))
      else fs.Resolve(corePath)
  }

  /** The preference order, case by case. */
  lemma ResolvePreference(roots: Roots, fs: FileSystem, filename: string)
    requires !IsAbs(filename)
    ensures var corePath, filesPath := Join(roots.coreRoot, filename), Join(roots.filesRoot, filename);
            var r := ResolveFilePath(roots, fs, filename);
            && (fs.Exists(corePath) ==> r == fs.Resolve(corePath))
            && (!fs.Exists(corePath) && roots.filesRoot != roots.coreRoot && fs.Exists(filesPath) ==>
                  r == fs.Resolve(filesPath))
            && (!fs.Exists(corePath) && (roots.filesRoot == roots.coreRoot || !fs.Exists(filesPath)) ==>
                  r == fs.Resolve(corePath))
  {
    var cands := Candidates(roots, filename);
    var corePath := Join(roots.coreRoot, filename);
    if !fs.Exists(corePath) && roots.filesRoot != roots.coreRoot {
      assert cands[1] == Join(roots.filesRoot, filename);
    }
  }

  predicate HasName(fi: CoreFile) {
    fi.name.Some? && fi.name.value != ""
  }

  /** One core file record in the flow's format; `None` for a record without
      a name, which is skipped. */
  function ConvertFile(roots: Roots, fs: FileSystem, fi: CoreFile): (r: Option<DvFile>)
    ensures r.Some? <==> HasName(fi)
    ensures r.Some? ==>
              && r.value.name == fi.name
              && r.value.path == Some(ResolveFilePath(roots, fs, fi.name.value))
              && r.value.fileType == Some(ConvertedType(fi.fileType))
              && r.value.isInclude == fi.isIncludeFile
              && r.value.library == fi.logicalName
              && r.value.copyto == fi.copyto
              && r.value.tags == fi.tags
              && (fi.includePath.None? ==> r.value.includePath.None?)
              && (fi.includePath.Some? ==>
                    r.value.includePath == Some(PathObject(ResolveFilePath(roots, fs, fi.includePath.value))))
  {
    if !HasName(fi) then None
    else
      var filename := fi.name.value;
      Some(DvFile(
        path := Some(ResolveFilePath(roots, fs, filename)),
        fileType := Some(ConvertedType(fi.fileType)),
        name := Some(filename),
        isInclude := fi.isIncludeFile,
        includePath := if fi.includePath.Some? then Some(PathObject(ResolveFilePath(roots, fs, fi.includePath.value))) else None,
        library := fi.logicalName,
        copyto := fi.copyto,
        tags := fi.tags))
  }

  /** The renamed optional attributes of `fi`, key by key. */
  function RenamedKeys(fi: CoreFile): set<string> {
    (if fi.isIncludeFile.Some? then {"is_include"} else {}) +
    (if fi.includePath.Some? then {"include_path"} else {}) +
    (if fi.logicalName.Some? then {"library"} else {}) +
    (if fi.copyto.Some? then {"copyto"} else {}) +
    (if fi.tags.Some? then {"tags"} else {})
  }

  /** Each optional key of the input lands under its new name. */
  lemma RenamedKey(fi: CoreFile, k: string)
    requires k in fi.Keys() && k in AttributeRenames
    ensures AttributeRenames[k] in RenamedKeys(fi)
  {
    if k == "is_include_file" {
      assert AttributeRenames[k] == "is_include" && fi.isIncludeFile.Some?;
    } else if k == "include_path" {
      assert AttributeRenames[k] == "include_path" && fi.includePath.Some?;
    } else if k == "logical_name" {
      assert AttributeRenames[k] == "library" && fi.logicalName.Some?;
    } else if k == "copyto" {
      assert AttributeRenames[k] == "copyto" && fi.copyto.Some?;
    } else {
      assert k == "tags";
      assert AttributeRenames[k] == "tags" && fi.tags.Some?;
    }
  }

  /** Each renamed key comes from an optional key of the input. */
  lemma RenamedFrom(fi: CoreFile, x: string) returns (k: string)
    requires x in RenamedKeys(fi)
    ensures k in fi.Keys() && k in AttributeRenames && AttributeRenames[k] == x
  {
    if x == "is_include" && fi.isIncludeFile.Some? {
      k := "is_include_file";
    } else if x == "include_path" && fi.includePath.Some? {
      k := "include_path";
    } else if x == "library" && fi.logicalName.Some? {
      k := "logical_name";
    } else if x == "copyto" && fi.copyto.Some? {
      k := "copyto";
    } else {
      assert x == "tags" && fi.tags.Some?;
      k := "tags";
    }
  }

  lemma RenamedKeysByTable(fi: CoreFile)
    ensures (set k | k in fi.Keys() && k in AttributeRenames :: AttributeRenames[k]) == RenamedKeys(fi)
  {
    var renamed := set k | k in fi.Keys() && k in AttributeRenames :: AttributeRenames[k];
    forall x | x in renamed
      ensures x in RenamedKeys(fi)
    {
      var k :| k in fi.Keys() && k in AttributeRenames && x == AttributeRenames[k];
      RenamedKey(fi, k);
    }
    forall x | x in RenamedKeys(fi)
      ensures x in renamed
    {
      var k := RenamedFrom(fi, x);
      assert AttributeRenames[k] in renamed;
    }
  }

  /** A converted record has the three fixed keys plus exactly the renamed
      optional attributes the input had. */
  lemma ConvertedKeys(roots: Roots, fs: FileSystem, fi: CoreFile)
    requires HasName(fi)
    ensures ConvertFile(roots, fs, fi).value.Keys() ==
            {"path", "type", "name"} + set k | k in fi.Keys() && k in AttributeRenames :: AttributeRenames[k]
  {
    RenamedKeysByTable(fi);
  }

  /** What `convert_files` returns: the converted records of the named inputs,
      in input order. */
  function ConvertAll(roots: Roots, fs: FileSystem, files: seq<CoreFile>): (r: seq<DvFile>)
    ensures |r| <= |files|
    ensures forall d :: d in r ==> d.name.Some? && d.name.value != "" && d.path.Some? && d.fileType.Some?
  {
    if files == [] then []
    else
      var init := ConvertAll(roots, fs, files[..|files| - 1]);
      match ConvertFile(roots, fs, files[|files| - 1])
      case Some(d) => init + [d]
      case None => init
  }

  function CountNamed(files: seq<CoreFile>): nat {
    if files == [] then 0
    else CountNamed(files[..|files| - 1]) + (if HasName(files[|files| - 1]) then 1 else 0)
  }

  /** Exactly one output record per named input. */
  lemma {:induction false} ConvertAllCount(roots: Roots, fs: FileSystem, files: seq<CoreFile>)
    ensures |ConvertAll(roots, fs, files)| == CountNamed(files)
  {
    if files != [] {
      ConvertAllCount(roots, fs, files[..|files| - 1]);
    }
  }

  /** Converting a concatenation converts each part: records are emitted in
      input order and independently of one another. */
  lemma {:induction false} ConvertAllConcat(roots: Roots, fs: FileSystem, a: seq<CoreFile>, b: seq<CoreFile>)
    ensures ConvertAll(roots, fs, a + b) == ConvertAll(roots, fs, a) + ConvertAll(roots, fs, b)
    decreases |b|
  {
    if b != [] {
      var b' := b[..|b| - 1];
      assert (a + b)[..|a + b| - 1] == a + b';
      assert (a + b)[|a + b| - 1] == b[|b| - 1];
      ConvertAllConcat(roots, fs, a, b');
    } else {
      assert a + b == a;
    }
  }

  /** The named input at index `i` becomes the output record at the index that
      counts the named inputs before it. */
  lemma {:induction false} ConvertAllAt(roots: Roots, fs: FileSystem, files: seq<CoreFile>, i: nat)
    requires i < |files| && HasName(files[i])
    ensures CountNamed(files[..i]) < |ConvertAll(roots, fs, files)|
    ensures ConvertAll(roots, fs, files)[CountNamed(files[..i])] == ConvertFile(roots, fs, files[i]).value
  {
    var pre, post := files[..i], files[i + 1..];
    assert files == pre + [files[i]] + post;
    ConvertAllConcat(roots, fs, pre + [files[i]], post);
    ConvertAllConcat(roots, fs, pre, [files[i]]);
    assert ConvertAll(roots, fs, [files[i]]) == [ConvertFile(roots, fs, files[i]).value] by {
      assert [files[i]][..0] == [];
    }
    ConvertAllCount(roots, fs, pre);
  }

  /** The include directories one record contributes: its resolved
      `include_path`, and the directory of its resolved name when it is
      flagged as an include file. */
  function IncludeDirsOf(roots: Roots, fs: FileSystem, fi: CoreFile): set<string> {
    (if fi.includePath.Some? then {ResolveFilePath(roots, fs, fi.includePath.value)} else {}) +
    (if fi.isIncludeFile.Some? && Truthy(fi.isIncludeFile.value) && HasName(fi)
     then {Parent(ResolveFilePath(roots, fs, fi.name.value))} else {})
  }

  function IncludeDirSet(roots: Roots, fs: FileSystem, files: seq<CoreFile>): set<string> {
    if files == [] then {}
    else IncludeDirSet(roots, fs, files[..|files| - 1]) + IncludeDirsOf(roots, fs, files[|files| - 1])
  }

  /** Every include directory comes from some record, and every record's
      directories are included. */
  lemma {:induction false} IncludeDirSetMembers(roots: Roots, fs: FileSystem, files: seq<CoreFile>, d: string)
    ensures d in IncludeDirSet(roots, fs, files) <==>
            exists i :: 0 <= i < |files| && d in IncludeDirsOf(roots, fs, files[i])
  {
    if files != [] {
      var init := files[..|files| - 1];
      IncludeDirSetMembers(roots, fs, init, d);
      if d in IncludeDirSet(roots, fs, init) {
        var i :| 0 <= i < |init| && d in IncludeDirsOf(roots, fs, init[i]);
        assert files[i] == init[i];
      }
      if exists i :: 0 <= i < |files| && d in IncludeDirsOf(roots, fs, files[i]) {
        var i :| 0 <= i < |files| && d in IncludeDirsOf(roots, fs, files[i]);
        if i < |init| { assert init[i] == files[i]; }
      }
    }
  }

  predicate HasType(f: DvFile, fileTypes: seq<string>) {
    f.fileType.Some? && f.fileType.value in fileTypes
  }

  /** The records whose `type` is one of `fileTypes`, in their original order. */
  function FilterByType(files: seq<DvFile>, fileTypes: seq<string>): (r: seq<DvFile>)
    ensures |r| <= |files|
    ensures forall f :: f in r <==> f in files && HasType(f, fileTypes)
  {
    if files == [] then []
    else
      var init := FilterByType(files[..|files| - 1], fileTypes);
      var last := files[|files| - 1];
      assert forall f :: f in files <==> f in files[..|files| - 1] || f == last;
      if HasType(last, fileTypes) then init + [last] else init
  }

  /** Filtering a concatenation filters each part, so kept records stay in order. */
  lemma {:induction false} FilterByTypeConcat(a: seq<DvFile>, b: seq<DvFile>, fileTypes: seq<string>)
    ensures FilterByType(a + b, fileTypes) == FilterByType(a, fileTypes) + FilterByType(b, fileTypes)
    decreases |b|
  {
    if b != [] {
      var b' := b[..|b| - 1];
      assert (a + b)[..|a + b| - 1] == a + b';
      assert (a + b)[|a + b| - 1] == b[|b| - 1];
      FilterByTypeConcat(a, b', fileTypes);
    } else {
      assert a + b == a;
    }
  }

  const SourceTypes: seq<string> := ["verilog", "systemverilog", "vhdl"]

  /** The HDL source records: constraints, scripts and other files are dropped. */
  function GetSourceFiles(files: seq<DvFile>): (r: seq<DvFile>)
    ensures r == FilterByType(files, SourceTypes)
    ensures forall f :: f in r <==>
              f in files && f.fileType in {Some("verilog"), Some("systemverilog"), Some("vhdl")}
  {
    FilterByType(files, SourceTypes)
  }

  /** A converter bound to a core's root directories and a snapshot of the disk. */
  class FilesetConverter {
    const coreRoot: Path
    const filesRoot: Path
    const fs: FileSystem

    /** Without a files root, files are looked up under the core root only. */
    constructor (coreRoot: Path, filesRoot: Option<Path>, fs: FileSystem)
      ensures this.coreRoot == coreRoot
      ensures this.filesRoot == if filesRoot.Some? then filesRoot.value else coreRoot
      ensures this.fs == fs
    {
      this.coreRoot := coreRoot;
      this.filesRoot := if filesRoot.Some? then filesRoot.value else coreRoot;
      this.fs := fs;
    }

    method ConvertFiles(files: seq<CoreFile>) returns (converted: seq<DvFile>)
      ensures converted == ConvertAll(Roots(coreRoot, filesRoot), fs, files)
    {
      converted := [];
      for i := 0 to |files|
        invariant converted == ConvertAll(Roots(coreRoot, filesRoot), fs, files[..i])
      {
        var c := ConvertFile(Roots(coreRoot, filesRoot), fs, files[i]);
        assert files[..i + 1][..i] == files[..i];
        if c.Some? {
          converted := converted + [c.value];
        }
      }
      assert files[..|files|] == files;
    }

    /** The include directories of `files`, sorted and without duplicates. */
    method ExtractIncludeDirs(files: seq<CoreFile>) returns (dirs: seq<string>)
      ensures dirs == Sorting.SortedOf(IncludeDirSet(Roots(coreRoot, filesRoot), fs, files))
    {
      var roots := Roots(coreRoot, filesRoot);
      var includeDirs: set<string> := {};
      for i := 0 to |files|
        invariant includeDirs == IncludeDirSet(roots, fs, files[..i])
      {
        var fi := files[i];
        assert files[..i + 1][..i] == files[..i];
        if fi.includePath.Some? {
          includeDirs := includeDirs + {ResolveFilePath(roots, fs, fi.includePath.value)};
        }
        if fi.isIncludeFile.Some? && Truthy(fi.isIncludeFile.value) {
          var filename := fi.name;
          if filename.Some? && filename.value != "" {
            includeDirs := includeDirs + {Parent(ResolveFilePath(roots, fs, filename.value))};
          }
        }
      }
      assert files[..|files|] == files;
      dirs := Sorting.SortedList(includeDirs);
    }
  }
}
