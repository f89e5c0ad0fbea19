/** src/helpers.ts: dropping undefined properties from a request object, and
    wrapping a binary `Response` so that callers can choose how to read it. */
module Helpers {
  import opened JsValues

  /** A plain JavaScript object, known by its own enumerable properties. The
      SDK copies and deletes properties of such objects in place. */
  class PlainObject {
    var props: map<string, Value>

    constructor(props0: map<string, Value>)
      ensures props == props0
    {
      props := props0;
    }

    /** `delete obj[key]`. */
    method Delete(key: string)
      modifies this
      ensures props == old(props) - {key}
    {
      props := props - {key};
    }
  }

  /** The properties whose value is not undefined. */
  function DefinedOnly(props: map<string, Value>): (r: map<string, Value>)
    ensures r.Keys <= props.Keys
    ensures forall k :: k in r ==> !r[k].Undefined? && r[k] == props[k]
    ensures forall k :: k in props && !props[k].Undefined? ==> k in r
  {
    map k | k in props && !props[k].Undefined? :: props[k]
  }

  /** `removeUndefinedProperties`: a shallow copy of the object without its
      undefined-valued properties; the object given is left as it was. */
  method RemoveUndefinedProperties(current: PlainObject) returns (obj: PlainObject)
    ensures fresh(obj)
    ensures unchanged(current)
    ensures obj.props == DefinedOnly(current.props)
  {
    obj := new PlainObject(current.props);
    ghost var copied := obj.props;
    var remaining := obj.props.Keys;
    while remaining != {}
      invariant remaining <= copied.Keys
      invariant obj.props.Keys <= copied.Keys
      invariant forall k :: k in obj.props ==> obj.props[k] == copied[k]
      invariant forall k :: k in remaining ==> k in obj.props
      invariant forall k :: k in copied && k !in remaining ==> (k in obj.props <==> !copied[k].Undefined?)
      invariant unchanged(current)
      decreases remaining
    {
      var key :| key in remaining;
      if obj.props[key].Undefined? {
        obj.Delete(key);
      }
      remaining := remaining - {key};
    }
    assert obj.props.Keys == DefinedOnly(copied).Keys;
  }

  /** Removing undefined properties twice removes nothing more. */
  lemma DefinedOnlyIdempotent(props: map<string, Value>)
    ensures DefinedOnly(DefinedOnly(props)) == DefinedOnly(props)
  {
    var once := DefinedOnly(props);
    assert DefinedOnly(once).Keys == once.Keys;
  }

  /** Falsy values other than undefined (null, false, 0, "") are kept. */
  lemma FalsyButDefinedKept(props: map<string, Value>, k: string)
    requires k in props && !Truthy(props[k]) && !props[k].Undefined?
    ensures k in DefinedOnly(props) && DefinedOnly(props)[k] == props[k]
  {
  }

  /** The keys of the object `respToFileChoice` builds around a `Response`. */
  const FileChoiceKeys: set<string> := {"blob", "buffer", "file"}

  /** `respToFileChoice`: anything but a `Response` is returned unchanged; a
      `Response` becomes an object with `blob`, `buffer` and `file` readers. */
  function RespToFileChoice(resp: Value): (r: Value)
    ensures !resp.Response? ==> r == resp
    ensures resp.Response? ==> r.Obj? && r.fields.Keys == FileChoiceKeys
    ensures resp.Response? ==> forall k :: k in r.fields ==> r.fields[k] == Fn(k)
  {
    if !resp.Response? then resp
    else Obj(map["blob" := Fn("blob"), "buffer" := Fn("buffer"), "file" := Fn("file")])
  }
}
