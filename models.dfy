/**
 * prtg/models.py: the record classes PrtgObject, Sensor, Device and
 * Status, built from a server field map, and the Query class that checks
 * its target and parameters and renders the request URL.
 */
module Models {
  import opened Outcomes
  import opened Text
  import opened PyValues
  import opened PrtgObjects

  // ---- records ----

  /** `column_table['all']`: the keys the base constructor reads. */
  const AllColumns: seq<string> := ["objid", "type", "tags", "active", "name", "status", "parentid", "result"]

  const SensorColumns: seq<string> := [
    "downtime", "downtimetime", "downtimesince", "uptime", "uptimetime", "uptimesince", "knowntime",
    "cumsince", "sensor", "interval", "lastcheck", "lastup", "lastdown", "device", "group", "probe",
    "grpdev", "notifiesx", "intervalx", "access", "dependency", "probegroupdevice", "status", "message",
    "priority", "lastvalue", "upsens", "downsens", "downacksens", "partialdownsens", "warnsens",
    "pausedsens", "unusualsens", "undefinedsens", "totalsens", "favorite", "schedule", "minigraph", "comments",
    "parentid"]

  const DeviceColumns: seq<string> := [
    "device", "group", "probe", "grpdev", "notifiesx", "intervalx", "access", "dependency",
    "probegroupdevice", "status", "message", "priority", "upsens", "downsens", "downacksens",
    "partialdownsens", "warnsens", "pausedsens", "unusualsens", "undefinedsens", "totalsens",
    "favorite", "schedule", "deviceicon", "host", "comments", "icon", "location", "parentid"]

  const StatusColumns: seq<string> := [
    "NewMessages", "NewAlarms", "Alarms", "AckAlarms", "NewToDos", "Clock", "ActivationStatusMessage",
    "BackgroundTasks", "CorrelationTasks", "AutoDiscoTasks", "Version", "PRTGUpdateAvailable", "IsAdminUser",
    "IsCluster", "ReadOnlyUser", "ReadOnlyAllowAcknowledge"]

  type ModelClass = c: ClassName | c.ModelObject? || c.ModelSensor? || c.ModelDevice? || c.ModelStatus?
    witness ModelObject

  /** The column list a subclass constructor copies after the base constructor; none for PrtgObject. */
  function OwnColumns(cls: ModelClass): seq<string>
  {
    match cls
    case ModelSensor => SensorColumns
    case ModelDevice => DeviceColumns
    case ModelStatus => StatusColumns
    case _ => []
  }

  /** What the base constructor stores for a key it finds: tags split, ids converted with `int`. */
  function Converted(key: string, value: Value): Result<Value, Error>
  {
    if key == "tags" && value.PyStr? then Ok(PyList(SplitOn(value.s, ' ')))
    else if key == "objid" || key == "parentid" then
      (match ToInt(value)
       case Ok(n) => Ok(PyInt(n))
       case Err(e) => Err(e))
    else Ok(value)
  }

  /** Every listed column the field map has survives conversion. */
  predicate AllConvert(cols: seq<string>, kwargs: FieldMap)
  {
    forall k :: k in cols && k in kwargs ==> Converted(k, kwargs[k]).Ok?
  }

  /** The error of the first column, in list order, that the field map has and conversion rejects. */
  function FirstRejected(cols: seq<string>, kwargs: FieldMap): (e: Option<Error>)
    ensures e.None? <==> AllConvert(cols, kwargs)
  {
    if |cols| == 0 then None
    else if cols[0] in kwargs && Converted(cols[0], kwargs[cols[0]]).Err? then
      Some(Converted(cols[0], kwargs[cols[0]]).error)
    else
      var rest := FirstRejected(cols[1..], kwargs);
      assert forall k :: k in cols <==> k == cols[0] || k in cols[1..];
      rest
  }

  /** The converted values of the listed columns the field map has. */
  function ConvertedAttrs(cols: seq<string>, kwargs: FieldMap): FieldMap
    requires AllConvert(cols, kwargs)
  {
    map k | k in kwargs && k in cols :: Converted(k, kwargs[k]).value
  }

  /**
   * `cls(**kwargs)`, stated declaratively: a keyword `self` clashes with the
   * bound instance; the first base column conversion rejects raises; and
   * otherwise `type` is the class name unless the base columns set it, and
   * the subclass copies override the base attributes.
   */
  function Fields(cls: ModelClass, kwargs: FieldMap): Result<Obj, Error>
  {
    if "self" in kwargs then Err(TypeError)
    else
      match FirstRejected(AllColumns, kwargs)
      case Some(e) => Err(e)
      case None =>
        Ok(Obj(cls, map["type" := PyStr(PythonName(cls))] + ConvertedAttrs(AllColumns, kwargs)
                    + CopiedAttrs(OwnColumns(cls), kwargs)))
  }

  /** The base loop: convert and store each listed column the field map has, stopping at the first rejection. */
  method ConvertColumns(cols: seq<string>, kwargs: FieldMap, attrs0: FieldMap) returns (r: Result<FieldMap, Error>)
    ensures FirstRejected(cols, kwargs).Some? ==> r == Err(FirstRejected(cols, kwargs).value)
    ensures FirstRejected(cols, kwargs).None? ==> r == Ok(attrs0 + ConvertedAttrs(cols, kwargs))
  {
    var attrs := attrs0;
    var i := 0;
    while i < |cols|
      invariant 0 <= i <= |cols|
      invariant FirstRejected(cols[i..], kwargs) == FirstRejected(cols, kwargs)
      invariant forall k :: k in attrs <==> k in attrs0 || (k in cols[..i] && k in kwargs)
      invariant forall k :: k in attrs ==>
        if k in cols[..i] && k in kwargs then Converted(k, kwargs[k]) == Ok(attrs[k]) else attrs[k] == attrs0[k]
    {
      var key := cols[i];
      assert cols[..i + 1] == cols[..i] + [key];
      assert cols[i..][1..] == cols[i + 1..];
      if key in kwargs {
        var value := Converted(key, kwargs[key]);
        if value.Err? {
          return Err(value.error);
        }
        attrs := attrs[key := value.value];
      }
      i := i + 1;
    }
    assert cols[..i] == cols;
    assert attrs == attrs0 + ConvertedAttrs(cols, kwargs);
    return Ok(attrs);
  }

  /** `PrtgObject.__init__`: `type` from the class name, then the base loop over `column_table['all']`. */
  method InitBase(cls: ModelClass, kwargs: FieldMap) returns (r: Result<FieldMap, Error>)
    ensures FirstRejected(AllColumns, kwargs).Some? ==> r == Err(FirstRejected(AllColumns, kwargs).value)
    ensures FirstRejected(AllColumns, kwargs).None? ==>
      r == Ok(map["type" := PyStr(PythonName(cls))] + ConvertedAttrs(AllColumns, kwargs))
  {
    r := ConvertColumns(AllColumns, kwargs, map["type" := PyStr(PythonName(cls))]);
  }

  /**
   * The constructors: the base constructor, then the subclass loop over its
   * own column list.
   */
  method NewRecord(cls: ModelClass, kwargs: FieldMap) returns (r: Result<Obj, Error>)
    ensures r == Fields(cls, kwargs)
  {
    if "self" in kwargs {
      return Err(TypeError);
    }
    var base := InitBase(cls, kwargs);
    if base.Err? {
      return Err(base.error);
    }
    var attrs := CopyColumns(OwnColumns(cls), kwargs, base.value);
    r := Ok(Obj(cls, attrs));
  }

  /** Columns other than the two ids never stop the base loop. */
  lemma {:induction false} SkipPlainColumns(pre: seq<string>, rest: seq<string>, kwargs: FieldMap)
    requires forall i :: 0 <= i < |pre| ==> pre[i] != "objid" && pre[i] != "parentid"
    ensures FirstRejected(pre + rest, kwargs) == FirstRejected(rest, kwargs)
  {
    if |pre| > 0 {
      var c := pre + rest;
      assert c[0] == pre[0] && c[1..] == pre[1..] + rest;
      assert pre[0] in kwargs ==> Converted(pre[0], kwargs[pre[0]]).Ok?;
      assert FirstRejected(c, kwargs) == FirstRejected(c[1..], kwargs);
      SkipPlainColumns(pre[1..], rest, kwargs);
    } else {
      assert pre + rest == rest;
    }
  }

  /** Over `column_table['all']`, `objid` is tried first and `parentid` second. */
  lemma BaseRejection(kwargs: FieldMap)
    ensures FirstRejected(AllColumns, kwargs) ==
      if "objid" in kwargs && ToInt(kwargs["objid"]).Err? then Some(ToInt(kwargs["objid"]).error)
      else if "parentid" in kwargs && ToInt(kwargs["parentid"]).Err? then Some(ToInt(kwargs["parentid"]).error)
      else None
  {
    var plain := ["type", "tags", "active", "name", "status"];
    var tail := ["parentid", "result"];
    assert AllColumns == ["objid"] + (plain + tail);
    assert AllColumns[1..] == plain + tail;
    SkipPlainColumns(plain, tail, kwargs);
    assert tail[1..] == ["result"] + [];
    SkipPlainColumns(["result"], [], kwargs);
  }

  /**
   * Construction fails exactly on a `self` keyword or an id `int` rejects,
   * and `objid`, read first, decides the error when both are bad.
   */
  lemma RecordFailures(cls: ModelClass, kwargs: FieldMap)
    ensures Fields(cls, kwargs).Err? <==>
      "self" in kwargs
      || ("objid" in kwargs && ToInt(kwargs["objid"]).Err?)
      || ("parentid" in kwargs && ToInt(kwargs["parentid"]).Err?)
    ensures Fields(cls, kwargs).Err? ==> (Fields(cls, kwargs).error ==
      if "self" in kwargs then TypeError
      else if "objid" in kwargs && ToInt(kwargs["objid"]).Err? then ToInt(kwargs["objid"]).error
      else ToInt(kwargs["parentid"]).error)
  {
    BaseRejection(kwargs);
  }

  /** Only listed columns are read; a column the field map lacks stays unset. */
  lemma RecordReadsOnlyColumns(cls: ModelClass, kwargs: FieldMap, k: string)
    requires Fields(cls, kwargs).Ok? && k != "type"
    ensures k in Fields(cls, kwargs).value.attrs <==> k in kwargs && (k in AllColumns || k in OwnColumns(cls))
  {
  }

  /** A base column the subclass does not list keeps the base loop's value. */
  lemma RecordBaseColumn(cls: ModelClass, kwargs: FieldMap, k: string)
    requires Fields(cls, kwargs).Ok? && k in AllColumns && k !in OwnColumns(cls) && k in kwargs
    ensures Converted(k, kwargs[k]).Ok?
    ensures Fields(cls, kwargs).value.attrs[k] == Converted(k, kwargs[k]).value
  {
  }

  /** A column of the subclass list ends with the raw field value, whatever the base loop stored. */
  lemma RecordOwnColumnsWin(cls: ModelClass, kwargs: FieldMap, k: string)
    requires Fields(cls, kwargs).Ok? && k in OwnColumns(cls) && k in kwargs
    ensures Fields(cls, kwargs).value.attrs[k] == kwargs[k]
  {
  }

  lemma SensorColumnsShape()
    ensures forall i :: 0 <= i < |SensorColumns| ==>
      (|SensorColumns[i]| != 4 && |SensorColumns[i]| != 5)
      || (SensorColumns[i][0] != 't' && SensorColumns[i][0] != 'o' && SensorColumns[i][0] != 'n')
  {
  }

  lemma DeviceColumnsShape()
    ensures forall i :: 0 <= i < |DeviceColumns| ==>
      (|DeviceColumns[i]| != 4 && |DeviceColumns[i]| != 5)
      || (DeviceColumns[i][0] != 't' && DeviceColumns[i][0] != 'o' && DeviceColumns[i][0] != 'n')
  {
  }

  /** The status columns are all capitalised. */
  lemma StatusColumnsShape()
    ensures forall i :: 0 <= i < |StatusColumns| ==> |StatusColumns[i]| > 0 && 'A' <= StatusColumns[i][0] <= 'Z'
  {
  }

  lemma SensorColumnsAvoid()
    ensures "type" !in SensorColumns && "tags" !in SensorColumns && "objid" !in SensorColumns
    ensures "name" !in SensorColumns
  {
    SensorColumnsShape();
  }

  lemma DeviceColumnsAvoid()
    ensures "type" !in DeviceColumns && "tags" !in DeviceColumns && "objid" !in DeviceColumns
    ensures "name" !in DeviceColumns
  {
    DeviceColumnsShape();
  }

  lemma StatusColumnsAvoid()
    ensures "type" !in StatusColumns && "tags" !in StatusColumns && "objid" !in StatusColumns
    ensures "parentid" !in StatusColumns
  {
    StatusColumnsShape();
  }

  /** None of the subclass lists holds `type`, `tags` or `objid`. */
  lemma NotSubclassColumns(cls: ModelClass)
    ensures "type" !in OwnColumns(cls) && "tags" !in OwnColumns(cls) && "objid" !in OwnColumns(cls)
  {
    match cls
    case ModelSensor => SensorColumnsAvoid();
    case ModelDevice => DeviceColumnsAvoid();
    case ModelStatus => StatusColumnsAvoid();
    case ModelObject =>
  }

  /** `type` starts as the class name; a `type` field of the map replaces it. */
  lemma RecordType(cls: ModelClass, kwargs: FieldMap)
    requires Fields(cls, kwargs).Ok?
    ensures Fields(cls, kwargs).value.attrs["type"] == if "type" in kwargs then kwargs["type"] else PyStr(PythonName(cls))
  {
    NotSubclassColumns(cls);
    if "type" in kwargs {
      assert AllColumns[1] == "type";
      RecordBaseColumn(cls, kwargs, "type");
    }
  }

  /** A string `tags` becomes its pieces between single spaces; any other value is kept. */
  lemma RecordTags(cls: ModelClass, kwargs: FieldMap)
    requires Fields(cls, kwargs).Ok? && "tags" in kwargs
    ensures Fields(cls, kwargs).value.attrs["tags"] ==
      if kwargs["tags"].PyStr? then PyList(SplitOn(kwargs["tags"].s, ' ')) else kwargs["tags"]
  {
    NotSubclassColumns(cls);
    RecordBaseColumn(cls, kwargs, "tags");
  }

  /** The tag string `a b c`, and the empty one, which gives one empty tag. */
  lemma TagsExample()
    ensures Converted("tags", PyStr("a b c")) == Ok(PyList(["a", "b", "c"]))
    ensures Converted("tags", PyStr("")) == Ok(PyList([""]))
  {
    assert SplitOn("c", ' ') == ["c"] by {
      SplitLetter('c', "");
      assert ['c'] + "" == "c";
    }
    assert SplitOn(" c", ' ') == ["", "c"] by {
      SplitSpace("c");
    }
    assert SplitOn("b c", ' ') == ["b", "c"] by {
      SplitLetter('b', " c");
      assert ['b'] + " c" == "b c" && ['b'] + "" == "b";
    }
    assert SplitOn(" b c", ' ') == ["", "b", "c"] by {
      SplitSpace("b c");
    }
    assert SplitOn("a b c", ' ') == ["a", "b", "c"] by {
      SplitLetter('a', " b c");
      assert ['a'] + " b c" == "a b c" && ['a'] + "" == "a";
    }
  }

  /** `objid` is always converted with `int`. */
  lemma RecordObjid(cls: ModelClass, kwargs: FieldMap)
    requires Fields(cls, kwargs).Ok? && "objid" in kwargs
    ensures Fields(cls, kwargs).value.attrs["objid"] == PyInt(ToInt(kwargs["objid"]).value)
  {
    NotSubclassColumns(cls);
    RecordBaseColumn(cls, kwargs, "objid");
  }

  /**
   * `parentid` is converted for PrtgObject and Status, but for Sensor and
   * Device the subclass copy of the raw value is the last assignment.
   */
  lemma RecordParentid(cls: ModelClass, kwargs: FieldMap)
    requires Fields(cls, kwargs).Ok? && "parentid" in kwargs
    ensures cls.ModelSensor? || cls.ModelDevice? ==> Fields(cls, kwargs).value.attrs["parentid"] == kwargs["parentid"]
    ensures cls.ModelObject? || cls.ModelStatus? ==>
      Fields(cls, kwargs).value.attrs["parentid"] == PyInt(ToInt(kwargs["parentid"]).value)
  {
    if cls.ModelSensor? {
      assert SensorColumns[39] == "parentid";
    } else if cls.ModelDevice? {
      assert DeviceColumns[28] == "parentid";
    } else {
      StatusColumnsAvoid();
      RecordBaseColumn(cls, kwargs, "parentid");
    }
  }

  /**
   * Even for Sensor and Device, where the raw `parentid` is the one kept,
   * a `parentid` that `int` rejects makes construction raise.
   */
  lemma BadParentFails(cls: ModelClass, kwargs: FieldMap)
    requires "self" !in kwargs && ("objid" in kwargs ==> ToInt(kwargs["objid"]).Ok?)
    requires "parentid" in kwargs && ToInt(kwargs["parentid"]).Err?
    ensures Fields(cls, kwargs) == Err(ToInt(kwargs["parentid"]).error)
  {
    RecordFailures(cls, kwargs);
  }

  // ---- queries ----

  /** `Query.targets`: every accepted target and the extension it gets. */
  const Targets: map<string, string> := map[
    "table" := ".xml?", "getstatus" := ".xml?", "getpasshash" := ".htm?",
    "setobjectproperty" := ".htm?", "getobjectproperty" := ".htm?"]

  const DefaultColumns: seq<string> := ["objid", "parentid", "name", "tags", "active", "status"]

  /** The attributes a query reads from the client it is given. */
  datatype Credentials = Credentials(endpoint: string, username: string, password: string)

  /** `get_url`: the fixed parameters, `start` and `count`, then the extras. */
  function Url(endpoint: string, target: string, username: string, password: string,
               counter: int, maximum: int, extra: Dict): (r: string)
    ensures endpoint + "/api/" + target + "username=" + username <= r
    ensures |QueryString(extra)| <= |r| && r[|r| - |QueryString(extra)|..] == QueryString(extra)
  {
    endpoint + "/api/" + target + "username=" + username + "&password=" + password
    + "&start=" + IntToString(counter) + "&count=" + IntToString(maximum) + QueryString(extra)
  }

  class Query {
    const endpoint: string
    const username: string
    const password: string
    const httpMethod: string
    /** The target with its extension, e.g. `table.xml?`. */
    const target: string
    const paginate: bool
    const maximum: int
    var response: seq<Obj>
    var counter: int
    var extra: Dict
    var expectResponse: bool
    /** How many times `increment` has run. */
    ghost var increments: nat

    /** The counter has advanced by `maximum` once per increment. */
    ghost predicate Valid()
      reads this
    {
      counter == increments * maximum
    }

    /** The part of `__init__` after the target check. */
    constructor (client: Credentials, target: string, maximum: int)
      requires target in Targets
      ensures Valid() && increments == 0
      ensures endpoint == client.endpoint && username == client.username && password == client.password
      ensures httpMethod == "GET" && this.target == target + Targets[target] && !paginate
      ensures response == [] && counter == 0 && this.maximum == maximum && extra == [] && expectResponse
    {
      endpoint := client.endpoint;
      username := client.username;
      password := client.password;
      httpMethod := "GET";
      this.target := target + Targets[target];
      paginate := false;
      response := [];
      counter := 0;
      this.maximum := maximum;
      extra := [];
      expectResponse := true;
      increments := 0;
    }

    /** `increment`: one fixed step of `maximum`. */
    method Increment()
      requires Valid()
      modifies this`counter, this`increments
      ensures Valid() && increments == old(increments) + 1
      ensures counter == old(counter) + maximum
    {
      counter := counter + maximum;
      increments := increments + 1;
      assert increments * maximum == (increments - 1) * maximum + maximum;
    }

    /**
     * The part of `__init__` that fills `extra`: the default columns for a
     * table, a truthy content, and the object-property parameters, which
     * must all be truthy; false where `__init__` raises BadTarget.
     */
    method FillExtra(target: string, content: Value, objid: Value, name: Value, value: Value) returns (ok: bool)
      requires extra == [] && expectResponse
      modifies this`extra, this`expectResponse
      ensures ok <==>
        && (target == "setobjectproperty" ==> Truthy(objid) && Truthy(name) && Truthy(value))
        && (target == "getobjectproperty" ==> Truthy(objid) && Truthy(name))
      ensures ok ==> expectResponse == (target != "setobjectproperty")
      ensures ok ==> extra == InitialExtra(target, content, objid, name, value)
    {
      if target == "table" {
        TableColumnsByUpdate();
        extra := Update(extra, [("columns", PyStr(JoinWith(DefaultColumns, ',')))]);
      }
      assert extra == TableColumns(target);
      if Truthy(content) {
        ContentAppended(target, content);
        extra := Update(extra, [("content", content)]);
      }
      assert extra == TableColumns(target) + ContentEntry(content);
      if target == "setobjectproperty" {
        if !(Truthy(objid) && Truthy(name) && Truthy(value)) {
          return false;
        }
        PropertiesAppended(target, content, [("id", objid), ("name", name), ("value", value)], objid, name, value);
        extra := Update(extra, [("id", objid), ("name", name), ("value", value)]);
        expectResponse := false;
      }
      if target == "getobjectproperty" {
        if !(Truthy(objid) && Truthy(name)) {
          return false;
        }
        PropertiesAppended(target, content, [("id", objid), ("name", name)], objid, name, value);
        extra := Update(extra, [("id", objid), ("name", name)]);
      }
      ok := true;
    }

    function GetUrl(): string
      reads this
    {
      Url(endpoint, target, username, password, counter, maximum, extra)
    }
  }

  function TableColumns(target: string): Dict
  {
    if target == "table" then [("columns", PyStr("objid,parentid,name,tags,active,status"))] else []
  }

  function ContentEntry(content: Value): Dict
  {
    if Truthy(content) then [("content", content)] else []
  }

  lemma LeadingColumnsJoined()
    ensures JoinWith(["objid", "parentid", "name"], ',') == "objid,parentid,name"
  {
    JoinThree("objid", "parentid", "name", ',');
  }

  lemma TrailingColumnsJoined()
    ensures JoinWith(["tags", "active", "status"], ',') == "tags,active,status"
  {
    JoinThree("tags", "active", "status", ',');
  }

  /** `','.join(default_columns)` is the `columns` parameter of a table query. */
  lemma DefaultColumnsJoined()
    ensures JoinWith(DefaultColumns, ',') == "objid,parentid,name,tags,active,status"
  {
    var a, b := ["objid", "parentid", "name"], ["tags", "active", "status"];
    LeadingColumnsJoined();
    TrailingColumnsJoined();
    assert DefaultColumns == a + b;
    JoinAppend(a, b, ',');
    assert "objid,parentid,name" + [','] + "tags,active,status" == "objid,parentid,name,tags,active,status";
  }

  lemma TableColumnsByUpdate()
    ensures Update([], [("columns", PyStr(JoinWith(DefaultColumns, ',')))]) == TableColumns("table")
  {
    DefaultColumnsJoined();
  }

  lemma ContentAppended(target: string, content: Value)
    ensures Update(TableColumns(target), [("content", content)]) == TableColumns(target) + [("content", content)]
  {
    assert KeysOf(TableColumns(target)) == if target == "table" then ["columns"] else [];
    UpdateAppends(TableColumns(target), [("content", content)]);
  }

  /** The object-property parameters are new keys, so `update` appends them. */
  lemma PropertiesAppended(target: string, content: Value, props: Dict, objid: Value, name: Value, value: Value)
    requires props == [("id", objid), ("name", name), ("value", value)] || props == [("id", objid), ("name", name)]
    ensures Update(TableColumns(target) + ContentEntry(content), props)
      == TableColumns(target) + ContentEntry(content) + props
  {
    var before := TableColumns(target) + ContentEntry(content);
    KeysOfAppend(TableColumns(target), ContentEntry(content));
    assert KeysOf(before) == (if target == "table" then ["columns"] else []) + (if Truthy(content) then ["content"] else []);
    UpdateAppends(before, props);
  }

  /** The extras `__init__` leaves, in the order it adds them. */
  function InitialExtra(target: string, content: Value, objid: Value, name: Value, value: Value): Dict
  {
    TableColumns(target) + ContentEntry(content)
    + (if target == "setobjectproperty" then [("id", objid), ("name", name), ("value", value)]
       else if target == "getobjectproperty" then [("id", objid), ("name", name)]
       else [])
  }

  /**
   * `Query(client, target, maximum, content, objid, name, value)`: an
   * unknown target, or an object-property target missing a parameter,
   * raises BadTarget; otherwise the query holds the extras in the order
   * `__init__` adds them.
   */
  method NewQuery(client: Credentials, target: string, maximum: int := 5, content: Value := PyStr(""),
                  objid: Value := PyNone, name: Value := PyNone, value: Value := PyNone)
    returns (r: Result<Query, Error>)
    ensures target !in Targets ==> r == Err(BadTarget("Invalid API target: " + target))
    ensures target in Targets && r.Err? ==> r == Err(BadTarget(""))
    ensures r.Ok? <==>
      && target in Targets
      && (target == "setobjectproperty" ==> Truthy(objid) && Truthy(name) && Truthy(value))
      && (target == "getobjectproperty" ==> Truthy(objid) && Truthy(name))
    ensures r.Ok? ==>
      var q := r.value;
      && fresh(q) && q.Valid() && q.increments == 0
      && q.endpoint == client.endpoint && q.username == client.username && q.password == client.password
      && q.httpMethod == "GET" && q.target == target + Targets[target] && !q.paginate
      && q.response == [] && q.counter == 0 && q.maximum == maximum
      && q.expectResponse == (target != "setobjectproperty")
      && q.extra == InitialExtra(target, content, objid, name, value)
  {
    if target !in Targets {
      return Err(BadTarget("Invalid API target: " + target));
    }
    var q := new Query(client, target, maximum);
    var ok := q.FillExtra(target, content, objid, name, value);
    if !ok {
      return Err(BadTarget(""));
    }
    r := Ok(q);
  }

  /** The fixed parameters of `get_url`, in order. */
  function UrlHead(username: string, password: string, counter: int, maximum: int): seq<string>
  {
    ["username=" + username, "password=" + password,
     "start=" + IntToString(counter), "count=" + IntToString(maximum)]
  }

  /** The URL is the endpoint, `/api/` and the target, then the parameters joined by `&`. */
  lemma UrlShape(endpoint: string, target: string, username: string, password: string,
                 counter: int, maximum: int, extra: Dict)
    ensures Url(endpoint, target, username, password, counter, maximum, extra)
      == endpoint + "/api/" + target + JoinWith(UrlHead(username, password, counter, maximum), '&') + QueryString(extra)
  {
    assert "&password=" == ['&'] + "password=" && "&start=" == ['&'] + "start=" && "&count=" == ['&'] + "count=";
    FourParameters(endpoint + "/api/" + target, "username=", username, "password=", password,
                   "start=", IntToString(counter), "count=", IntToString(maximum), QueryString(extra), '&');
  }

  /** No fixed parameter contains `&` when the credentials do not. */
  lemma UrlHeadAmpersandFree(username: string, password: string, counter: int, maximum: int)
    requires '&' !in username && '&' !in password
    ensures forall i :: 0 <= i < |UrlHead(username, password, counter, maximum)| ==>
      '&' !in UrlHead(username, password, counter, maximum)[i]
  {
    IntToStringCharacters(counter);
    IntToStringCharacters(maximum);
  }

  /**
   * A server splitting the parameters on `&` recovers the credentials,
   * `start`, `count` and the truthy extras in insertion order.
   */
  lemma UrlParameters(username: string, password: string, counter: int, maximum: int, extra: Dict)
    requires '&' !in username && '&' !in password && AmpersandFree(extra)
    requires |extra| == 0 || ParamList(extra) != []
    ensures SplitOn(JoinWith(UrlHead(username, password, counter, maximum), '&') + QueryString(extra), '&')
      == UrlHead(username, password, counter, maximum) + ParamList(extra)
  {
    UrlHeadAmpersandFree(username, password, counter, maximum);
    ParametersRoundTrip(UrlHead(username, password, counter, maximum), extra);
  }

  /** `t` occurs somewhere in `s`. */
  ghost predicate Occurs(t: string, s: string)
  {
    exists i, j :: 0 <= i <= j <= |s| && s[i..j] == t
  }

  /** The endpoint, user name and password all occur in the URL. */
  lemma UrlMentionsCredentials(endpoint: string, target: string, username: string, password: string,
                               counter: int, maximum: int, extra: Dict)
    ensures var url := Url(endpoint, target, username, password, counter, maximum, extra);
      Occurs(endpoint, url) && Occurs(username, url) && Occurs(password, url)
  {
    var url := Url(endpoint, target, username, password, counter, maximum, extra);
    var u := |endpoint + "/api/" + target + "username="|;
    var p := u + |username + "&password="|;
    assert url[0..|endpoint|] == endpoint;
    assert url[u..u + |username|] == username;
    assert url[p..p + |password|] == password;
  }
}
