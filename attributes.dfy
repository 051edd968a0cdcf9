/**
 * Lazily loaded attribute files (`<identity>.yaml`,
 * `<identity>.<point>.yaml`), shared by identities and datapoints: the
 * attributes are read on first access, cached, and written back whole.
 * The cache holds whatever document the file holds; only a mapping can
 * answer a lookup or take an assignment.
 */
module Attributes {
  import opened Wrappers
  import opened Values
  import opened Text
  import opened Store

  /** `self.attr`: `False` until loaded, then the loaded document. */
  datatype Lazy = Unloaded | Loaded(doc: Value)

  /** What `load_attr` stores: `yaml.load` of the file, or `{}` when the file does not exist. */
  function DocOf(file: Option<Value>): (r: Value)
    ensures file.Some? ==> r == file.value
    ensures file.None? ==> r == Dict(map[])
  {
    if file.Some? then file.value else Dict(map[])
  }

  /** `load_attr`: the cache after loading; a loaded cache is never re-read. */
  function AfterLoad(attr: Lazy, folders: map<string, Folder>, folder: string, file: string): (r: Lazy)
    ensures r.Loaded?
    ensures attr.Loaded? ==> r == attr
    ensures attr.Unloaded? ==> r.doc == DocOf(ReadFile(folders, folder, file))
  {
    if attr.Unloaded? then Loaded(DocOf(ReadFile(folders, folder, file))) else attr
  }

  /**
   * `__getattr__` on a loaded document: `atr not in self.attr` decides
   * between `None` and `self.attr[atr]`. On a mapping this is the
   * optional lookup. A string or list that contains the name passes the
   * test and then cannot be indexed by it, and a document that is no
   * container at all (an empty file loads as `None`) fails the test;
   * both raise `TypeError`.
   */
  function GetAttr(doc: Value, atr: string): (r: Result<Option<Value>>)
    ensures doc.Dict? ==> r == Ok(Get(doc.entries, atr))
    ensures r.Ok? && r.value.Some? <==> doc.Dict? && atr in doc.entries
    ensures r.Err? <==> ((doc.Str? && Contains(doc.s, atr)) || (doc.List? && Str(atr) in doc.items) ||
      !(doc.Str? || doc.List? || doc.Dict?))
    ensures r.Err? ==> r.error.TypeError?
  {
    var present :- In(atr, doc);
    if !present then Ok(None)
    else if doc.Dict? then Ok(Some(doc.entries[atr]))
    else Err(TypeError("indices must be integers"))
  }

  /** `self.attr[key] = value`: only a mapping takes an item assignment. */
  function SetAttr(doc: Value, key: string, value: Value): (r: Result<Value>)
    ensures r.Ok? <==> doc.Dict?
    ensures r.Ok? ==> r.value.Dict? && Get(r.value.entries, key) == Some(value)
    ensures r.Ok? ==> forall k :: k != key ==> Get(r.value.entries, k) == Get(doc.entries, k)
    ensures r.Err? ==> r.error.TypeError?
  {
    if doc.Dict? then Ok(Dict(doc.entries[key := value]))
    else Err(TypeError("object does not support item assignment"))
  }

  /**
   * `for k, v in attributes.items(): attr[k] = v`: every given key takes
   * its new value, every other key keeps its old one.
   */
  method Assign<V>(attrs: map<string, V>, attributes: map<string, V>) returns (acc: map<string, V>)
    ensures forall k :: k in acc <==> k in attrs || k in attributes
    ensures forall k :: k in attributes ==> acc[k] == attributes[k]
    ensures forall k :: k in attrs && k !in attributes ==> acc[k] == attrs[k]
  {
    var todo := attributes.Keys;
    acc := attrs;
    while todo != {}
      invariant todo <= attributes.Keys
      invariant forall j :: j in acc <==> j in attrs || (j in attributes && j !in todo)
      invariant forall j :: j in attributes && j !in todo ==> acc[j] == attributes[j]
      invariant forall j :: j in attrs && j !in attributes ==> acc[j] == attrs[j]
      decreases |todo|
    {
      var k :| k in todo;
      acc := acc[k := attributes[k]];
      todo := todo - {k};
    }
  }

  /** What `Assign` leaves is the dictionary update `attrs | attributes`. */
  lemma AssignIsUpdate(attrs: Config, attributes: Config, acc: Config)
    requires forall k :: k in acc <==> k in attrs || k in attributes
    requires forall k :: k in attributes ==> acc[k] == attributes[k]
    requires forall k :: k in attrs && k !in attributes ==> acc[k] == attrs[k]
    ensures acc == attrs + attributes
  {
    var merged := attrs + attributes;
    assert acc.Keys == merged.Keys;
    forall k | k in acc ensures acc[k] == merged[k] {
    }
  }

  /**
   * The loop of `save_attr_batch` on the loaded document: a mapping takes
   * the update; an empty batch assigns nothing, so any document passes
   * unchanged; otherwise the first assignment raises `TypeError`.
   */
  method AssignBatch(doc: Value, attributes: Config) returns (r: Result<Value>)
    ensures r.Ok? <==> doc.Dict? || attributes == map[]
    ensures r.Ok? && doc.Dict? ==> r.value == Dict(doc.entries + attributes)
    ensures r.Ok? && !doc.Dict? ==> r.value == doc
    ensures r.Err? ==> r.error.TypeError?
  {
    if doc.Dict? {
      var acc := Assign(doc.entries, attributes);
      AssignIsUpdate(doc.entries, attributes, acc);
      r := Ok(Dict(acc));
    } else if attributes == map[] {
      r := Ok(doc);
    } else {
      r := Err(TypeError("object does not support item assignment"));
    }
  }

  /**
   * Saving an attribute and loading the file afresh (a new object, or the
   * next run) gives the saved value, also through a soft link.
   */
  lemma SavedAttributeIsLoaded(folders: map<string, Folder>, folder: string, file: string, attrs: Config, key: string, v: Value)
    requires WriteTarget(folders, folder, file, |folders|).Some?
    ensures var t := WriteTarget(folders, folder, file, |folders|).value;
      var after := folders[t.0 := folders[t.0][t.1 := Data(Dict(attrs[key := v]))]];
      GetAttr(DocOf(ReadFile(after, folder, file)), key) == Ok(Some(v))
  {
    var t := WriteTarget(folders, folder, file, |folders|).value;
    var after := folders[t.0 := folders[t.0][t.1 := Data(Dict(attrs[key := v]))]];
    assert after.Keys == folders.Keys;
    assert |after| == |folders|;
    ReadAfterWrite(folders, folder, file, |folders|, Dict(attrs[key := v]));
  }
}
