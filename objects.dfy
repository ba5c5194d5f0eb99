/**
 * The records the client builds from server field maps. Python sets their
 * attributes one by one with `setattr`; a record here is the class it was
 * built as and the map from attribute name to value that results.
 */
module PrtgObjects {
  import opened Outcomes
  import opened Text
  import opened PyValues

  /** The classes of prtg/models.py and of prtg/client.py that build records. */
  datatype ClassName =
    | ModelObject | ModelSensor | ModelDevice | ModelStatus
    | ClientObject | ClientSensor | ClientDevice

  /** `self.__class__.__name__`. */
  function PythonName(c: ClassName): string
  {
    match c
    case ModelObject => "PrtgObject"
    case ModelSensor => "Sensor"
    case ModelDevice => "Device"
    case ModelStatus => "Status"
    case ClientObject => "PrtgObject"
    case ClientSensor => "Sensor"
    case ClientDevice => "Device"
  }

  /**
   * The class attribute `content_type`: only the three subclasses of
   * prtg/models.py declare one; reading it on any other record raises
   * AttributeError.
   */
  function ContentType(c: ClassName): (r: Option<string>)
    ensures r.Some? <==> c.ModelSensor? || c.ModelDevice? || c.ModelStatus?
    ensures r.Some? ==> r.value in ["sensors", "devices", "status"]
  {
    match c
    case ModelSensor => Some("sensors")
    case ModelDevice => Some("devices")
    case ModelStatus => Some("status")
    case _ => None
  }

  /** Two classes with the same `content_type` are the same class, so `get_content` separates them. */
  lemma ContentTypesDistinct(c: ClassName, d: ClassName)
    requires ContentType(c).Some? && ContentType(c) == ContentType(d)
    ensures c == d
  {
  }

  /** A server field map, the keyword arguments of a constructor. */
  type FieldMap = map<string, Value>

  datatype Obj = Obj(cls: ClassName, attrs: FieldMap)

  /** The raw values of the listed columns the field map has. */
  function CopiedAttrs(cols: seq<string>, kwargs: FieldMap): FieldMap
  {
    map k | k in kwargs && k in cols :: kwargs[k]
  }

  /** A `setattr` loop over a column list: copy each listed column the field map has. */
  method CopyColumns(cols: seq<string>, kwargs: FieldMap, attrs0: FieldMap) returns (attrs: FieldMap)
    ensures attrs == attrs0 + CopiedAttrs(cols, kwargs)
  {
    attrs := attrs0;
    var i := 0;
    while i < |cols|
      invariant 0 <= i <= |cols|
      invariant forall k :: k in attrs <==> k in attrs0 || (k in cols[..i] && k in kwargs)
      invariant forall k :: k in attrs ==> attrs[k] == if k in cols[..i] && k in kwargs then kwargs[k] else attrs0[k]
    {
      var key := cols[i];
      assert cols[..i + 1] == cols[..i] + [key];
      if key in kwargs {
        attrs := attrs[key := kwargs[key]];
      }
      i := i + 1;
    }
    assert cols[..i] == cols;
  }

  /** `str(obj.objid)`, the key an object is cached under. */
  function CacheKey(o: Obj): (r: Result<string, Error>)
    ensures r.Ok? <==> "objid" in o.attrs
    ensures r.Err? ==> r.error == AttributeError("objid")
    ensures "objid" in o.attrs && o.attrs["objid"].PyInt? ==> r == Ok(IntToString(o.attrs["objid"].i))
  {
    if "objid" in o.attrs then Ok(Str(o.attrs["objid"])) else Err(AttributeError("objid"))
  }

  /** Records with different integer ids are cached under different keys. */
  lemma CacheKeysSeparateIds(a: Obj, b: Obj, m: int, n: int)
    requires "objid" in a.attrs && a.attrs["objid"] == PyInt(m)
    requires "objid" in b.attrs && b.attrs["objid"] == PyInt(n)
    requires m != n
    ensures CacheKey(a) != CacheKey(b)
  {
    if CacheKey(a) == CacheKey(b) {
      IntToStringInjective(m, n);
    }
  }
}
