/** The two dictionary shapes of a file record: as the core manager reports it,
    and in the flow's neutral format. Each optional field stands for a key that
    may be absent from the dictionary. */
module FileRecords {
  import opened Wrappers
  import opened PyValues
  import opened Paths

  /** A file entry of a core's fileset, as the core manager lists it. */
  datatype CoreFile = CoreFile(
    name: Option<string>,
    fileType: Option<string>,         // key 'file_type'
    isIncludeFile: Option<Value>,     // key 'is_include_file'
    includePath: Option<string>,      // key 'include_path'
    logicalName: Option<Value>,       // key 'logical_name'
    copyto: Option<Value>,
    tags: Option<Value>)
  {
    /** The keys present in the dictionary. */
    function Keys(): set<string> {
      (if name.Some? then {"name"} else {}) +
      (if fileType.Some? then {"file_type"} else {}) +
      (if isIncludeFile.Some? then {"is_include_file"} else {}) +
      (if includePath.Some? then {"include_path"} else {}) +
      (if logicalName.Some? then {"logical_name"} else {}) +
      (if copyto.Some? then {"copyto"} else {}) +
      (if tags.Some? then {"tags"} else {})
    }
  }

  /** A file entry in the flow's format: what the fileset converter emits and
      what the descriptor builder accepts. */
  datatype DvFile = DvFile(
    path: Option<string>,
    fileType: Option<string>,         // key 'type'
    name: Option<string>,
    isInclude: Option<Value>,         // key 'is_include'
    includePath: Option<PathLike>,    // key 'include_path'
    library: Option<Value>,
    copyto: Option<Value>,
    tags: Option<Value>)
  {
    function Keys(): set<string> {
      (if path.Some? then {"path"} else {}) +
      (if fileType.Some? then {"type"} else {}) +
      (if name.Some? then {"name"} else {}) +
      (if isInclude.Some? then {"is_include"} else {}) +
      (if includePath.Some? then {"include_path"} else {}) +
      (if library.Some? then {"library"} else {}) +
      (if copyto.Some? then {"copyto"} else {}) +
      (if tags.Some? then {"tags"} else {})
    }
  }

  /** How the converter renames the optional attributes it carries over. */
  const AttributeRenames: map<string, string> := map[
    "is_include_file" := "is_include",
    "include_path" := "include_path",
    "logical_name" := "library",
    "copyto" := "copyto",
    "tags" := "tags"
  ]
}
