/** `Identity`: one subject of a dataset, its point count and lazy attributes. */
module Identities {
  import opened Wrappers
  import opened Values
  import opened Store
  import opened Attributes

  class Identity {
    const setpath: string
    const name: string
    var npoints: nat
    var attr: Lazy

    /** `<setpath>/<name>.yaml` */
    function AttrFile(): string {
      name + ".yaml"
    }

    constructor (setpath: string, name: string)
      ensures this.setpath == setpath && this.name == name
      ensures npoints == 0 && attr == Unloaded
    {
      this.setpath := setpath;
      this.name := name;
      npoints := 0;
      attr := Unloaded;
    }

    /** `load_attr`: reads the attribute file once; `{}` when it does not exist. */
    method LoadAttr(disk: Disk)
      modifies this
      ensures attr == AfterLoad(old(attr), disk.folders, setpath, AttrFile())
      ensures npoints == old(npoints)
    {
      if attr.Unloaded? {
        attr := Loaded(DocOf(ReadFile(disk.folders, setpath, AttrFile())));
      }
    }

    /**
     * `identity.<atr>`: the attribute's value, `None` when unset; a loaded
     * document that is not a mapping raises `TypeError` as `GetAttr` says.
     */
    method Get(disk: Disk, atr: string) returns (r: Result<Option<Value>>)
      modifies this
      ensures attr == AfterLoad(old(attr), disk.folders, setpath, AttrFile())
      ensures r == GetAttr(attr.doc, atr)
      ensures npoints == old(npoints)
    {
      LoadAttr(disk);
      r := GetAttr(attr.doc, atr);
    }

    /**
     * `save_attr`: set one attribute and write the whole file. A loaded
     * document that is not a mapping raises `TypeError` before the write.
     */
    method SaveAttr(disk: Disk, key: string, value: Value) returns (r: Result<()>)
      modifies this, disk
      ensures var doc := AfterLoad(old(attr), old(disk.folders), setpath, AttrFile()).doc;
        attr == Loaded(if doc.Dict? then Dict(doc.entries[key := value]) else doc)
      ensures npoints == old(npoints)
      ensures r.Ok? <==> (AfterLoad(old(attr), old(disk.folders), setpath, AttrFile()).doc.Dict? &&
        WriteTarget(old(disk.folders), setpath, AttrFile(), |old(disk.folders)|).Some?)
      ensures !AfterLoad(old(attr), old(disk.folders), setpath, AttrFile()).doc.Dict? ==>
        r.Err? && r.error.TypeError? && disk.folders == old(disk.folders)
      ensures r.Ok? ==> ReadFile(disk.folders, setpath, AttrFile()) == Some(attr.doc)
      ensures r.Ok? ==> disk.folders == WrittenThrough(old(disk.folders), setpath, AttrFile(), attr.doc)
      ensures r.Err? ==> disk.folders == old(disk.folders)
      ensures disk.metas == old(disk.metas)
    {
      LoadAttr(disk);
      var updated := SetAttr(attr.doc, key, value);
      if updated.Err? {
        return Err(updated.error);
      }
      attr := Loaded(updated.value);
      r := SaveAttrFile(disk);
    }

    /**
     * `save_attr_batch`: set several attributes, then write the file once.
     * A document that is not a mapping raises `TypeError` unless the batch
     * is empty, in which case it is written back as it is.
     */
    method SaveAttrBatch(disk: Disk, attributes: Config) returns (r: Result<()>)
      modifies this, disk
      ensures var doc := AfterLoad(old(attr), old(disk.folders), setpath, AttrFile()).doc;
        attr == Loaded(if doc.Dict? then Dict(doc.entries + attributes) else doc)
      ensures npoints == old(npoints)
      ensures !AfterLoad(old(attr), old(disk.folders), setpath, AttrFile()).doc.Dict? && attributes != map[] ==>
        r.Err? && r.error.TypeError? && disk.folders == old(disk.folders)
      ensures r.Ok? ==> ReadFile(disk.folders, setpath, AttrFile()) == Some(attr.doc)
      ensures r.Ok? ==> (WriteTarget(old(disk.folders), setpath, AttrFile(), |old(disk.folders)|).Some? &&
                         disk.folders == WrittenThrough(old(disk.folders), setpath, AttrFile(), attr.doc))
      ensures r.Err? ==> disk.folders == old(disk.folders)
      ensures disk.metas == old(disk.metas)
    {
      LoadAttr(disk);
      var merged := AssignBatch(attr.doc, attributes);
      if merged.Err? {
        return Err(merged.error);
      }
      attr := Loaded(merged.value);
      r := SaveAttrFile(disk);
    }

    /** `save_attr_file`: writes the cached attributes (through a soft link, into the parent's file). */
    method SaveAttrFile(disk: Disk) returns (r: Result<()>)
      requires attr.Loaded?
      modifies disk
      ensures r.Ok? <==> WriteTarget(old(disk.folders), setpath, AttrFile(), |old(disk.folders)|).Some?
      ensures r.Ok? ==> ReadFile(disk.folders, setpath, AttrFile()) == Some(attr.doc)
      ensures r.Ok? ==> disk.folders == WrittenThrough(old(disk.folders), setpath, AttrFile(), attr.doc)
      ensures r.Err? ==> disk.folders == old(disk.folders)
      ensures disk.metas == old(disk.metas)
    {
      ghost var before := disk.folders;
      r := disk.WriteDoc(setpath, AttrFile(), attr.doc);
      if r.Ok? {
        ReadAfterWrite(before, setpath, AttrFile(), |before|, attr.doc);
        assert disk.folders.Keys == before.Keys;
      }
    }
  }
}
