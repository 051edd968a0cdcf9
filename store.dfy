/**
 * The `data/` directory every dataset lives in: one metadata document
 * `data/<name>.meta.yaml` and one folder `data/<name>/` per dataset.
 * A folder maps file names to stored documents or to symbolic links
 * into another dataset's folder.
 */
module Store {
  import opened Wrappers
  import opened Values

  datatype Entry = Data(content: Value) | Link(folder: string, file: string)

  type Folder = map<string, Entry>

  const MetaSuffix: string := ".meta.yaml"

  class Disk {
    /** `data/<name>.meta.yaml`, by dataset name. */
    var metas: map<string, Value>
    /** `data/<name>/`, by dataset name. */
    var folders: map<string, Folder>

    constructor (metas: map<string, Value>, folders: map<string, Folder>)
      ensures this.metas == metas && this.folders == folders
    {
      this.metas := metas;
      this.folders := folders;
    }

    /** `yaml.dump(meta, open(data/<name>.meta.yaml, "w"))`. */
    method WriteMeta(name: string, meta: Value)
      modifies this
      ensures metas == old(metas)[name := meta]
      ensures folders == old(folders)
    {
      metas := metas[name := meta];
    }

    /** `os.remove(data/<name>.meta.yaml)`. */
    method RemoveMeta(name: string)
      modifies this
      ensures metas == old(metas) - {name}
      ensures folders == old(folders)
    {
      metas := metas - {name};
    }

    /** Writes one file into an existing folder. */
    method WriteFile(folder: string, file: string, e: Entry)
      requires folder in folders
      modifies this
      ensures folders == old(folders)[folder := old(folders)[folder][file := e]]
      ensures metas == old(metas)
    {
      folders := folders[folder := folders[folder][file := e]];
    }

    /** `yaml.dump(doc, open(data/<folder>/<file>, "w"))`, written through links. */
    method WriteDoc(folder: string, file: string, doc: Value) returns (r: Result<()>)
      modifies this
      ensures metas == old(metas)
      ensures r.Ok? <==> WriteTarget(old(folders), folder, file, |old(folders)|).Some?
      ensures r.Ok? ==>
        var t := WriteTarget(old(folders), folder, file, |old(folders)|).value;
        folders == old(folders)[t.0 := old(folders)[t.0][t.1 := Data(doc)]]
      ensures r.Err? ==> folders == old(folders)
    {
      var t := WriteTarget(folders, folder, file, |folders|);
      if t.None? {
        return Err(FileNotFoundError(folder + "/" + file));
      }
      folders := folders[t.value.0 := folders[t.value.0][t.value.1 := Data(doc)]];
      r := Ok(());
    }

    /** `os.mkdir(data/<name>)`. */
    method Mkdir(name: string) returns (r: Result<()>)
      modifies this
      ensures metas == old(metas)
      ensures r.Err? <==> name in old(folders)
      ensures r.Ok? ==> folders == old(folders)[name := map[]]
      ensures r.Err? ==> folders == old(folders) && r.error == FileExistsError(name)
    {
      if name in folders {
        return Err(FileExistsError(name));
      }
      folders := folders[name := map[]];
      r := Ok(());
    }

    /** `shutil.rmtree(data/<name>)`: links are removed, not followed. */
    method RemoveFolder(name: string)
      modifies this
      ensures folders == old(folders) - {name}
      ensures metas == old(metas)
    {
      folders := folders - {name};
    }
  }

  /**
   * The document a file holds, following links at most `fuel` times.
   * Every link the system creates points one dataset up its lineage, so
   * `|folders|` steps reach the end of any chain it builds.
   */
  function Resolve(folders: map<string, Folder>, e: Entry, fuel: nat): Option<Value>
    decreases fuel
  {
    match e
    case Data(v) => Some(v)
    case Link(f, n) =>
      if fuel == 0 || f !in folders || n !in folders[f] then None
      else Resolve(folders, folders[f][n], fuel - 1)
  }

  /** `open(data/<folder>/<file>)` for reading; `None` where `os.path.exists` is false. */
  function ReadFile(folders: map<string, Folder>, folder: string, file: string): Option<Value> {
    if folder in folders && file in folders[folder]
    then Resolve(folders, folders[folder][file], |folders|)
    else None
  }

  /**
   * Where `open(data/<folder>/<file>, "w")` writes: through links, to the
   * file they finally name; `None` when a directory on the way is missing.
   */
  function WriteTarget(folders: map<string, Folder>, folder: string, file: string, fuel: nat): (r: Option<(string, string)>)
    ensures r.Some? ==> r.value.0 in folders
    decreases fuel
  {
    if folder !in folders then None
    else if file in folders[folder] && folders[folder][file].Link? && fuel > 0 then
      WriteTarget(folders, folders[folder][file].folder, folders[folder][file].file, fuel - 1)
    else Some((folder, file))
  }

  /** The folders once `doc` is written at `folder/file`, through its links, into the file they finally name. */
  function WrittenThrough(folders: map<string, Folder>, folder: string, file: string, doc: Value): map<string, Folder>
    requires WriteTarget(folders, folder, file, |folders|).Some?
  {
    var t := WriteTarget(folders, folder, file, |folders|).value;
    folders[t.0 := folders[t.0][t.1 := Data(doc)]]
  }

  /** The file at a location, following links with the given fuel. */
  function ReadAt(folders: map<string, Folder>, folder: string, file: string, fuel: nat): Option<Value> {
    if folder in folders && file in folders[folder]
    then Resolve(folders, folders[folder][file], fuel)
    else None
  }

  /**
   * Writing through links and reading back along the same links returns
   * what was written, whether the path is a plain file, a missing file or
   * a chain of links.
   */
  lemma {:induction false} ReadAfterWrite(folders: map<string, Folder>, folder: string, file: string, fuel: nat, v: Value)
    requires WriteTarget(folders, folder, file, fuel).Some?
    ensures var t := WriteTarget(folders, folder, file, fuel).value;
      ReadAt(folders[t.0 := folders[t.0][t.1 := Data(v)]], folder, file, fuel) == Some(v)
    decreases fuel
  {
    var t := WriteTarget(folders, folder, file, fuel).value;
    var after := folders[t.0 := folders[t.0][t.1 := Data(v)]];
    if (folder, file) == t {
    } else {
      var e := folders[folder][file];
      assert e.Link? && fuel > 0;
      ReadAfterWrite(folders, e.folder, e.file, fuel - 1, v);
      assert after[folder][file] == e;
    }
  }
}
