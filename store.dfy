/**
  The file store: `files.json` holds one object per link key; the relay only
  ever uses the key `"current"`, whose value is `{"file_id", "file_name"}`.
  A JSON file is read and written whole; a file that is missing or does not
  parse reads as the caller's default.
 */
module Store {
  import opened Wrappers

  /** What `json.load` finds on disk: nothing usable, or a parsed document. */
  datatype JsonFile<T> = Unreadable | Parsed(doc: T)

  /** `load_json(path, default)`: any failure to open or parse yields `default`. */
  function LoadJson<T>(f: JsonFile<T>, default: T): (r: T)
    ensures f.Unreadable? ==> r == default
    ensures f.Parsed? ==> r == f.doc
  {
    match f
    case Unreadable => default
    case Parsed(doc) => doc
  }

  /** One file record, a JSON object with string values. */
  type Meta = map<string, string>
  type FilesDoc = map<string, Meta>

  const CurrentKey := "current"
  const FileIdField := "file_id"
  const FileNameField := "file_name"

  /** `get_current_file_meta()`: the `"current"` record, if the store holds one. */
  function GetCurrentFileMeta(files: JsonFile<FilesDoc>): (m: Option<Meta>)
    ensures files.Unreadable? ==> m.None?
    ensures m.Some? <==> files.Parsed? && CurrentKey in files.doc
    ensures m.Some? ==> m.value == files.doc[CurrentKey]
  {
    var data := LoadJson(files, map[]);
    if CurrentKey in data then Some(data[CurrentKey]) else None
  }

  function MetaFor(fileId: string, fileName: string): Meta {
    map[FileIdField := fileId, FileNameField := fileName]
  }

  /**
    `save_current_file_meta(file_id, file_name)`: the new content of
    `files.json`, which replaces whatever was there before.
   */
  function SaveCurrentFileMeta(fileId: string, fileName: string): (f: JsonFile<FilesDoc>)
    ensures f.Parsed? && f.doc.Keys == {CurrentKey}
    ensures GetCurrentFileMeta(f) == Some(MetaFor(fileId, fileName))
  {
    Parsed(map[CurrentKey := MetaFor(fileId, fileName)])
  }

  /** `name or "file"`: the file name shown to downloaders, never empty. */
  function FileNameOr(name: Option<string>): (r: string)
    ensures r != []
    ensures name.Some? && name.value != [] ==> r == name.value
    ensures name.None? || name.value == [] ==> r == "file"
  {
    if name.Some? && name.value != [] then name.value else "file"
  }

  /** `meta.get(field)` */
  function Field(m: Meta, field: string): Option<string> {
    if field in m then Some(m[field]) else None
  }
}
