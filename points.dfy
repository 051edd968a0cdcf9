/**
 * `Datapoint` and its kinds: one sample of an identity, stored as
 * `<identity>.<point>.<ext>`, with lazily loaded attributes in
 * `<identity>.<point>.yaml`.
 */
module Points {
  import opened Wrappers
  import opened Values
  import opened Text
  import opened PyLib
  import opened Store
  import opened Attributes

  /** The subclasses of `Datapoint`, in declaration order. */
  datatype PointKind = Image | PNGImage | Mocap | Video

  const Kinds: seq<PointKind> := [Image, PNGImage, Mocap, Video]

  /** `cls.ext`; `Video` inherits the base class's `"yaml"`. */
  function Ext(k: PointKind): string {
    match k
    case Image => "jpg"
    case PNGImage => "png"
    case Mocap => "mocap"
    case Video => "yaml"
  }

  function LastSegment(filename: string): string {
    var parts := Split(filename, '.');
    parts[|parts| - 1]
  }

  /** `cls.is_datapoint(filename)`: the last dot-separated segment is the kind's extension; `Video` claims nothing. */
  predicate IsDatapoint(k: PointKind, filename: string) {
    k != Video && LastSegment(filename) == Ext(k)
  }

  /** The one subclass whose `is_datapoint` accepts the file, if any. */
  function KindOf(filename: string): (r: Option<PointKind>)
    ensures r.Some? ==> IsDatapoint(r.value, filename)
    ensures r.None? ==> forall k :: !IsDatapoint(k, filename)
  {
    var e := LastSegment(filename);
    if e == "jpg" then Some(Image)
    else if e == "png" then Some(PNGImage)
    else if e == "mocap" then Some(Mocap)
    else None
  }

  /** At most one subclass claims a file, so the scan's inner loop adds it at most once. */
  lemma KindUnique(filename: string, k: PointKind)
    requires IsDatapoint(k, filename)
    ensures KindOf(filename) == Some(k)
  {
  }

  /** `["yaml"] + [cls.ext for cls in Datapoint.__subclasses__()]`. */
  function AllowedExt(): (r: seq<string>)
    ensures forall k :: Ext(k) in r
  {
    ["yaml", Ext(Kinds[0]), Ext(Kinds[1]), Ext(Kinds[2]), Ext(Kinds[3])]
  }

  /** `get_filename`: `<identity>.<point>.<ext>`. */
  function GetFilename(idname: string, pointname: string, k: PointKind): string {
    idname + "." + pointname + "." + Ext(k)
  }

  /**
   * A datapoint's file name splits back into its identity, point name and
   * extension, so scanning the folder finds the same point under the same
   * kind.
   */
  lemma {:induction false} FilenameRoundTrip(idname: string, pointname: string, k: PointKind)
    requires '.' !in idname && '.' !in pointname
    ensures Split(GetFilename(idname, pointname, k), '.') == [idname, pointname, Ext(k)]
    ensures k != Video ==> KindOf(GetFilename(idname, pointname, k)) == Some(k)
  {
    var parts := [idname, pointname, Ext(k)];
    assert Join(parts, '.') == GetFilename(idname, pointname, k) by {
      assert Join(parts[1..], '.') == pointname + "." + Ext(k) by {
        assert parts[1..][1..] == [Ext(k)];
      }
    }
    JoinSplit(parts, '.');
  }

  /**
   * The metadata a MOCAP point takes its column ranges from: the lineage
   * root's (`original_meta`) when the set is derived, else the set's own.
   */
  function RootMeta(setmeta: Config): Value {
    if "original_meta" in setmeta then setmeta["original_meta"] else Dict(setmeta)
  }

  /** `meta[key]` read as a `[start, stop]` column range. */
  function RangeOf(setmeta: Config, key: string): Result<(int, int)> {
    var meta := RootMeta(setmeta);
    if !meta.Dict? then Err(TypeError("metadata is not a mapping"))
    else if key !in meta.entries then Err(KeyError(key))
    else
      var range := meta.entries[key];
      if !range.List? || |range.items| < 2 then Err(IndexError)
      else if !range.items[0].Int? || !range.items[1].Int? then Err(TypeError("slice indices must be integers"))
      else Ok((range.items[0].i, range.items[1].i))
  }

  /**
   * `load_position` / `load_rotation`: the same window of columns of every
   * frame, `data[:, start:stop]`.
   */
  function LoadRange(data: seq<seq<real>>, setmeta: Config, key: string): (r: Result<seq<seq<real>>>)
    ensures r.Ok? <==> RangeOf(setmeta, key).Ok?
    ensures r.Ok? ==> |r.value| == |data|
    ensures r.Ok? ==> forall i :: 0 <= i < |data| ==>
      var (lo, hi) := (Clamp(RangeOf(setmeta, key).value.0, |data[i]|), Clamp(RangeOf(setmeta, key).value.1, |data[i]|));
      r.value[i] == if lo <= hi then data[i][lo..hi] else []
  {
    match RangeOf(setmeta, key)
    case Err(e) => Err(e)
    case Ok((a, b)) => Ok(seq(|data|, i requires 0 <= i < |data| => Slice(data[i], a, b)))
  }

  class Datapoint {
    const setpath: string
    const setmetadata: Config
    const idname: string
    const pointname: string
    const kind: PointKind
    var attr: Lazy

    /** `<identity>.<point>.yaml` */
    function AttrFile(): string {
      idname + "." + pointname + ".yaml"
    }

    /** `get_path`: the folder and the file name of the point's data. */
    function GetPath(): (string, string) {
      (setpath, GetFilename(idname, pointname, kind))
    }

    constructor (setpath: string, setmetadata: Config, idname: string, pointname: string, kind: PointKind)
      ensures this.setpath == setpath && this.setmetadata == setmetadata
      ensures this.idname == idname && this.pointname == pointname && this.kind == kind
      ensures attr == Unloaded
    {
      this.setpath := setpath;
      this.setmetadata := setmetadata;
      this.idname := idname;
      this.pointname := pointname;
      this.kind := kind;
      attr := Unloaded;
    }

    /** `load_attr`: reads the attribute file once; `{}` when it does not exist. */
    method LoadAttr(disk: Disk)
      modifies this
      ensures attr == AfterLoad(old(attr), disk.folders, setpath, AttrFile())
    {
      if attr.Unloaded? {
        attr := Loaded(DocOf(ReadFile(disk.folders, setpath, AttrFile())));
      }
    }

    /**
     * `point.<atr>`: the attribute's value, `None` when unset; a loaded
     * document that is not a mapping raises `TypeError` as `GetAttr` says.
     */
    method Get(disk: Disk, atr: string) returns (r: Result<Option<Value>>)
      modifies this
      ensures attr == AfterLoad(old(attr), disk.folders, setpath, AttrFile())
      ensures r == GetAttr(attr.doc, atr)
    {
      LoadAttr(disk);
      r := GetAttr(attr.doc, atr);
    }

    /**
     * `save_attr`: set one attribute and write the whole file. A loaded
     * document that is not a mapping raises `TypeError` before the write.
     */
    method SaveAttr(disk: Disk, key: string, value: Value) returns (r: Result<()>)
      modifies this, disk
      ensures var doc := AfterLoad(old(attr), old(disk.folders), setpath, AttrFile()).doc;
        attr == Loaded(if doc.Dict? then Dict(doc.entries[key := value]) else doc)
      ensures r.Ok? <==> (AfterLoad(old(attr), old(disk.folders), setpath, AttrFile()).doc.Dict? &&
        WriteTarget(old(disk.folders), setpath, AttrFile(), |old(disk.folders)|).Some?)
      ensures !AfterLoad(old(attr), old(disk.folders), setpath, AttrFile()).doc.Dict? ==>
        r.Err? && r.error.TypeError? && disk.folders == old(disk.folders)
      ensures r.Ok? ==> ReadFile(disk.folders, setpath, AttrFile()) == Some(attr.doc)
      ensures r.Ok? ==> disk.folders == WrittenThrough(old(disk.folders), setpath, AttrFile(), attr.doc)
      ensures r.Err? ==> disk.folders == old(disk.folders)
      ensures disk.metas == old(disk.metas)
    {
      LoadAttr(disk);
      var updated := SetAttr(attr.doc, key, value);
      if updated.Err? {
        return Err(updated.error);
      }
      attr := Loaded(updated.value);
      r := SaveAttrFile(disk);
    }

    /**
     * `save_attr_batch`: set several attributes, then write the file once.
     * A document that is not a mapping raises `TypeError` unless the batch
     * is empty, in which case it is written back as it is.
     */
    method SaveAttrBatch(disk: Disk, attributes: Config) returns (r: Result<()>)
      modifies this, disk
      ensures var doc := AfterLoad(old(attr), old(disk.folders), setpath, AttrFile()).doc;
        attr == Loaded(if doc.Dict? then Dict(doc.entries + attributes) else doc)
      ensures !AfterLoad(old(attr), old(disk.folders), setpath, AttrFile()).doc.Dict? && attributes != map[] ==>
        r.Err? && r.error.TypeError? && disk.folders == old(disk.folders)
      ensures r.Ok? ==> ReadFile(disk.folders, setpath, AttrFile()) == Some(attr.doc)
      ensures r.Ok? ==> (WriteTarget(old(disk.folders), setpath, AttrFile(), |old(disk.folders)|).Some? &&
                         disk.folders == WrittenThrough(old(disk.folders), setpath, AttrFile(), attr.doc))
      ensures r.Err? ==> disk.folders == old(disk.folders)
      ensures disk.metas == old(disk.metas)
    {
      LoadAttr(disk);
      var merged := AssignBatch(attr.doc, attributes);
      if merged.Err? {
        return Err(merged.error);
      }
      attr := Loaded(merged.value);
      r := SaveAttrFile(disk);
    }

    /** `save_attr_file`; through a soft link this rewrites the parent set's file. */
    method SaveAttrFile(disk: Disk) returns (r: Result<()>)
      requires attr.Loaded?
      modifies disk
      ensures r.Ok? <==> WriteTarget(old(disk.folders), setpath, AttrFile(), |old(disk.folders)|).Some?
      ensures r.Ok? ==> ReadFile(disk.folders, setpath, AttrFile()) == Some(attr.doc)
      ensures r.Ok? ==> disk.folders == WrittenThrough(old(disk.folders), setpath, AttrFile(), attr.doc)
      ensures r.Err? ==> disk.folders == old(disk.folders)
      ensures disk.metas == old(disk.metas)
    {
      ghost var before := disk.folders;
      r := disk.WriteDoc(setpath, AttrFile(), attr.doc);
      if r.Ok? {
        ReadAfterWrite(before, setpath, AttrFile(), |before|, attr.doc);
        assert disk.folders.Keys == before.Keys;
      }
    }
  }
}
