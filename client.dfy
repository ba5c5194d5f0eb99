/**
 * prtg/client.py: the older record classes, the Query class whose
 * pagination a `counter` keyword switches on, the Connection whose
 * generator drives the `while not finished` loop, and the Client that
 * merges its credentials into the keyword arguments of a query.
 *
 * The transport is a function from URL to decoded body: the model
 * requests a URL and reads back what the server decoded to.
 */
module PrtgClient {
  import opened Outcomes
  import opened Text
  import opened PyValues
  import opened PrtgObjects
  import Models

  // ---- records ----

  /** `column_table['all']` of this file: no `status`, `parentid` or `result`, and no conversions. */
  const BaseColumns: seq<string> := ["objid", "type", "tags", "active", "name"]

  type ClientClass = c: ClassName | c.ClientObject? || c.ClientSensor? || c.ClientDevice?
    witness ClientObject

  /** The subclass column lists; this file's `sensors` and `devices` lists are those of prtg/models.py. */
  function OwnColumns(cls: ClientClass): seq<string>
  {
    match cls
    case ClientSensor => Models.SensorColumns
    case ClientDevice => Models.DeviceColumns
    case _ => []
  }

  /**
   * `cls(**kwargs)`: the base loop copies the listed columns unchanged;
   * Sensor and Device then set `name` to None and copy their own columns.
   */
  function Fields(cls: ClientClass, kwargs: FieldMap): Result<Obj, Error>
  {
    if "self" in kwargs then Err(TypeError)
    else if cls.ClientObject? then Ok(Obj(cls, CopiedAttrs(BaseColumns, kwargs)))
    else Ok(Obj(cls, CopiedAttrs(BaseColumns, kwargs)["name" := PyNone] + CopiedAttrs(OwnColumns(cls), kwargs)))
  }

  /** The constructors, loop by loop. */
  method NewRecord(cls: ClientClass, kwargs: FieldMap) returns (r: Result<Obj, Error>)
    ensures r == Fields(cls, kwargs)
  {
    if "self" in kwargs {
      return Err(TypeError);
    }
    var attrs := CopyColumns(BaseColumns, kwargs, map[]);
    assert attrs == CopiedAttrs(BaseColumns, kwargs);
    if !cls.ClientObject? {
      attrs := attrs["name" := PyNone];
      attrs := CopyColumns(OwnColumns(cls), kwargs, attrs);
    }
    r := Ok(Obj(cls, attrs));
  }

  /** For Sensor and Device `name` is always None: it is reset after the base loop and neither list has it. */
  lemma NameIsNone(cls: ClientClass, kwargs: FieldMap)
    requires !cls.ClientObject? && "self" !in kwargs
    ensures Fields(cls, kwargs).Ok? && Fields(cls, kwargs).value.attrs["name"] == PyNone
  {
    if cls.ClientSensor? {
      Models.SensorColumnsAvoid();
    } else {
      Models.DeviceColumnsAvoid();
    }
  }

  /**
   * Only listed columns are set, besides the reset `name`, and every value
   * is the field map's own: nothing is converted in this file.
   */
  lemma RecordCopiesColumns(cls: ClientClass, kwargs: FieldMap, k: string)
    requires "self" !in kwargs
    ensures var attrs := Fields(cls, kwargs).value.attrs;
      && (k in attrs <==> (k in kwargs && (k in BaseColumns || k in OwnColumns(cls))) || (k == "name" && !cls.ClientObject?))
      && (k in attrs && !(k == "name" && !cls.ClientObject?) ==> attrs[k] == kwargs[k])
  {
  }

  /** A keyword `self` is the only way construction fails. */
  lemma RecordFailures(cls: ClientClass, kwargs: FieldMap)
    ensures Fields(cls, kwargs).Err? <==> "self" in kwargs
  {
  }

  // ---- queries ----

  /** `Query.targets`, with its repeated entry; `setobjectproperty` is not among them. */
  const Targets: seq<string> := [
    "getobjectproperties", "getobjectstatus", "getsensordetails", "getsensordetails", "table", "getstatus",
    "sensortypesinuse", "getobjectproperty"]

  predicate ValidTarget(target: Value)
  {
    target.PyStr? && target.s in Targets
  }

  /** The targets the client's own helpers ask for are accepted, except `setobjectproperty`. */
  lemma HelperTargets()
    ensures ValidTarget(PyStr("table")) && ValidTarget(PyStr("getobjectproperty"))
    ensures ValidTarget(PyStr("getsensordetails")) && ValidTarget(PyStr("getstatus"))
    ensures ValidTarget(PyStr("sensortypesinuse")) && !ValidTarget(PyStr("setobjectproperty"))
  {
    assert Targets[4] == "table";
    assert Targets[7] == "getobjectproperty";
    assert Targets[2] == "getsensordetails";
    assert Targets[5] == "getstatus";
    assert Targets[6] == "sensortypesinuse";
  }

  /** The arguments of a `Query(...)` call once Python has bound them. */
  datatype Call = Call(endpoint: Value, target: Value, username: Value, password: Value, output: Value, kwargs: Dict)

  /** The named parameters of `Query.__init__` besides `self`. */
  const Parameters: seq<string> := ["endpoint", "target", "username", "password", "output"]

  /**
   * `Query(**args)`: a `self` key clashes with the bound instance, a
   * missing `endpoint`, `target`, `username` or `password` is a missing
   * argument, `output` defaults to `json`, and every other key goes to
   * `**kwargs`, in order.
   */
  function Bind(args: Dict): (r: Result<Call, Error>)
    ensures r.Ok? ==> forall k :: Get(r.value.kwargs, k) == if k in Parameters then None else Get(args, k)
  {
    if Get(args, "self").Some? then Err(TypeError)
    else if Get(args, "endpoint").None? || Get(args, "target").None? || Get(args, "username").None?
         || Get(args, "password").None? then Err(TypeError)
    else
      var kwargs := Without(args, Parameters);
      assert forall k :: Get(kwargs, k) == if k in Parameters then None else Get(args, k) by {
        forall k { WithoutGet(args, Parameters, k); }
      }
      Ok(Call(Get(args, "endpoint").value, Get(args, "target").value, Get(args, "username").value,
              Get(args, "password").value,
              if Get(args, "output").Some? then Get(args, "output").value else PyStr("json"),
              kwargs))
  }

  /** The pagination state of a query: `_counter` and `finished`. */
  datatype Cursor = Cursor(position: int, finished: bool)

  /** `increment(count, total)` on the pagination state. */
  function Advance(c: Cursor, count: int, total: int): Cursor
  {
    if c.position + count >= total then Cursor(0, true) else Cursor(c.position + count, c.finished)
  }

  class Query {
    const endpoint: Value
    const username: Value
    const password: Value
    const output: Value
    const httpMethod: string
    const content: Value
    /** The target with `.xml?` appended. */
    const target: string
    const paginate: bool
    /** `self.counter`, the `counter` keyword, set only when paginating. */
    const counter: Option<Value>
    /** `self.extra`: the keyword arguments beyond the named parameters. */
    const extra: Dict
    /** `_counter`; like `finished`, Python creates it only when paginating. */
    var cursor: int
    var finished: bool

    function At(): Cursor
      reads this
    {
      Cursor(cursor, finished)
    }

    /** The state `__init__` leaves for the bound call `call`. */
    predicate Describes(call: Call)
      reads this
    {
      && call.target.PyStr?
      && endpoint == call.endpoint && username == call.username && password == call.password
      && output == call.output && httpMethod == "GET"
      && target == call.target.s + ".xml?"
      && paginate == Get(call.kwargs, "counter").Some?
      && counter == Get(call.kwargs, "counter")
      && content == (if Get(call.kwargs, "content").Some? then Get(call.kwargs, "content").value else PyStr(""))
      && extra == call.kwargs
      && cursor == 0 && !finished
    }

    /** The part of `__init__` after the target check. */
    constructor (call: Call)
      requires ValidTarget(call.target)
      ensures Describes(call)
    {
      endpoint := call.endpoint;
      username := call.username;
      password := call.password;
      output := call.output;
      httpMethod := "GET";
      content := if Get(call.kwargs, "content").Some? then Get(call.kwargs, "content").value else PyStr("");
      target := call.target.s + ".xml?";
      paginate := Get(call.kwargs, "counter").Some?;
      counter := Get(call.kwargs, "counter");
      cursor := 0;
      finished := false;
      extra := call.kwargs;
    }

    /**
     * `increment(count, total)`: reaching the total finishes the query and
     * resets the cursor; otherwise the cursor advances by exactly `count`.
     * Without pagination `_counter` does not exist.
     */
    method Increment(count: int, total: int) returns (r: Result<(), Error>)
      modifies this`cursor, this`finished
      ensures !paginate ==> r == Err(AttributeError("_counter")) && At() == old(At())
      ensures paginate ==> r == Ok(()) && At() == Advance(old(At()), count, total)
      ensures paginate && old(cursor) + count >= total ==> finished && cursor == 0
      ensures paginate && old(cursor) + count < total ==> cursor == old(cursor) + count && finished == old(finished)
    {
      if !paginate {
        return Err(AttributeError("_counter"));
      }
      if cursor + count >= total {
        finished := true;
        cursor := 0;
        return Ok(());
      }
      cursor := cursor + count;
      r := Ok(());
    }

    /** `get_url` with the cursor at `position`. */
    function UrlAt(position: int): string
    {
      Str(endpoint) + "/api/" + target + "username=" + Str(username) + "&password=" + Str(password)
      + "&output=" + Str(output) + (if paginate then "&start=" + IntToString(position) else "")
      + QueryString(extra)
    }

    /** `get_url` at the current cursor. */
    function GetUrl(): (r: string)
      reads this
      ensures Str(endpoint) + "/api/" + target + "username=" + Str(username) <= r
      ensures |QueryString(extra)| <= |r| && r[|r| - |QueryString(extra)|..] == QueryString(extra)
    {
      UrlAt(cursor)
    }
  }

  /** What a `Query(...)` call gives for the binding `bound`: its error, BadTarget, or a query in the initial state. */
  predicate Constructed(r: Result<Query, Error>, bound: Result<Call, Error>)
    reads if r.Ok? then {r.value} else {}
  {
    match bound
    case Err(e) => r == Err(e)
    case Ok(call) =>
      if ValidTarget(call.target) then r.Ok? && r.value.Describes(call)
      else r == Err(BadTarget("Invalid API target: " + Str(call.target)))
  }

  /**
   * `Query(endpoint, target, username, password, output, **kwargs)`: a
   * target outside `targets` raises BadTarget before any field is set;
   * `paginate` holds exactly when a `counter` keyword was given.
   */
  method NewQuery(endpoint: Value, target: Value, username: Value, password: Value, output: Value, kwargs: Dict)
    returns (r: Result<Query, Error>)
    ensures r.Ok? ==> fresh(r.value)
    ensures Constructed(r, Ok(Call(endpoint, target, username, password, output, kwargs)))
  {
    if !ValidTarget(target) {
      return Err(BadTarget("Invalid API target: " + Str(target)));
    }
    var q := new Query(Call(endpoint, target, username, password, output, kwargs));
    r := Ok(q);
  }

  /** The fixed parameters of `get_url`, in order, with `start` only when paginating. */
  function UrlHead(q: Query, position: int): seq<string>
  {
    ["username=" + Str(q.username), "password=" + Str(q.password), "output=" + Str(q.output)]
    + (if q.paginate then ["start=" + IntToString(position)] else [])
  }

  /**
   * The URL is the endpoint, `/api/` and the target with `.xml?`, then the
   * fixed parameters joined by `&` (`start` only when paginating), then
   * `&` and the truthy extras when there are extras.
   */
  lemma UrlShape(q: Query, position: int)
    ensures q.UrlAt(position)
      == Str(q.endpoint) + "/api/" + q.target + JoinWith(UrlHead(q, position), '&') + QueryString(q.extra)
  {
    var e := Str(q.endpoint) + "/api/" + q.target;
    assert "&password=" == ['&'] + "password=" && "&output=" == ['&'] + "output=" && "&start=" == ['&'] + "start=";
    if q.paginate {
      assert UrlHead(q, position) == ["username=" + Str(q.username), "password=" + Str(q.password),
                                      "output=" + Str(q.output), "start=" + IntToString(position)];
      FourParameters(e, "username=", Str(q.username), "password=", Str(q.password), "output=", Str(q.output),
                     "start=", IntToString(position), QueryString(q.extra), '&');
    } else {
      assert UrlHead(q, position) == ["username=" + Str(q.username), "password=" + Str(q.password),
                                      "output=" + Str(q.output)];
      ThreeParameters(e, "username=", Str(q.username), "password=", Str(q.password), "output=", Str(q.output),
                      QueryString(q.extra), '&');
    }
  }

  /**
   * A server splitting the parameters on `&` recovers the credentials, the
   * output format, `start` exactly when paginating, and the truthy extras
   * in insertion order.
   */
  lemma UrlParameters(q: Query, position: int)
    requires '&' !in Str(q.username) && '&' !in Str(q.password) && '&' !in Str(q.output)
    requires AmpersandFree(q.extra) && (|q.extra| == 0 || ParamList(q.extra) != [])
    ensures SplitOn(JoinWith(UrlHead(q, position), '&') + QueryString(q.extra), '&')
      == UrlHead(q, position) + ParamList(q.extra)
  {
    IntToStringCharacters(position);
    ParametersRoundTrip(UrlHead(q, position), q.extra);
  }

  // ---- responses ----

  /**
   * The decoded body, abstracted: falsy (`None`, an empty JSON value, an
   * XML element without children), a JSON object with `sensors` rows and a
   * `treesize`, a JSON object without `sensors`, or any other truthy value
   * (a JSON list, string or number, an XML element with children), which
   * cannot be indexed by a string.
   */
  datatype Body = Falsy | Listing(sensors: seq<FieldMap>, treesize: int) | Unlisted | Other

  /**
   * Only `json` and `xml` output is decoded; any other output leaves
   * `processed` as None. An XML element is never a JSON object.
   */
  function Decoded(output: Value, body: Body): (r: Body)
    ensures r.Falsy? <==> body.Falsy? || (output != PyStr("json") && output != PyStr("xml"))
    ensures r.Listing? || r.Unlisted? ==> output == PyStr("json") && r == body
    ensures output == PyStr("json") ==> r == body
  {
    if output == PyStr("json") then body
    else if output == PyStr("xml") then (if body.Falsy? then Falsy else Other)
    else Falsy
  }

  /** `[cls(**x) for x in rows]`: the first row that cannot be built raises. */
  function BuildAll(cls: ClientClass, rows: seq<FieldMap>): (r: Result<seq<Obj>, Error>)
    ensures r.Err? ==> r.error == TypeError
  {
    if |rows| == 0 then Ok([])
    else
      match Fields(cls, rows[0])
      case Err(e) => Err(e)
      case Ok(o) =>
        match BuildAll(cls, rows[1..])
        case Err(e) => Err(e)
        case Ok(os) => Ok([o] + os)
  }

  /** The list is built exactly when no row has a `self` key, and then holds one record per row, in order. */
  lemma {:induction false} BuildAllRecords(cls: ClientClass, rows: seq<FieldMap>)
    ensures BuildAll(cls, rows).Ok? <==> forall i :: 0 <= i < |rows| ==> "self" !in rows[i]
    ensures BuildAll(cls, rows).Ok? ==>
      (|BuildAll(cls, rows).value| == |rows|
       && forall i :: 0 <= i < |rows| ==> Ok(BuildAll(cls, rows).value[i]) == Fields(cls, rows[i]))
  {
    if |rows| > 0 {
      BuildAllRecords(cls, rows[1..]);
      assert forall i :: 1 <= i < |rows| ==> rows[i] == rows[1..][i - 1];
    }
  }

  /**
   * `_process_response`: with pagination and content `sensors` or
   * `devices`, a listing gives its rows as records and its `treesize`, and
   * another truthy body raises when it is indexed by `sensors`; otherwise a
   * falsy body raises UnknownResponse and any other gives None.
   */
  function ProcessResponse(output: Value, content: Value, body: Body, paginate: bool)
    : (r: Result<Option<(seq<Obj>, int)>, Error>)
    ensures r.Ok? && r.value.Some? ==>
      paginate && output == PyStr("json") && (content == PyStr("sensors") || content == PyStr("devices"))
    ensures Decoded(output, body).Falsy? ==> r == Err(UnknownResponse)
    ensures r == Err(UnknownResponse) ==> Decoded(output, body).Falsy?
  {
    var d := Decoded(output, body);
    if paginate && (content == PyStr("sensors") || content == PyStr("devices")) then
      match d
      case Listing(rows, total) =>
        (match BuildAll(if content == PyStr("sensors") then ClientSensor else ClientDevice, rows)
         case Err(e) => Err(e)
         case Ok(objs) => Ok(Some((objs, total))))
      case Unlisted => Err(KeyError("sensors"))
      case Other => Err(TypeError)
      case Falsy => Err(UnknownResponse)
    else if d.Falsy? then Err(UnknownResponse)
    else Ok(None)
  }

  /** A request that does not paginate never returns records: None, or UnknownResponse for a falsy body. */
  lemma UnpaginatedResponse(output: Value, content: Value, body: Body)
    ensures ProcessResponse(output, content, body, false)
      == if Decoded(output, body).Falsy? then Err(UnknownResponse) else Ok(None)
  {
  }

  /** An output format other than `json` or `xml` is never decoded, so the response is always unknown. */
  lemma UndecodedOutput(output: Value, content: Value, body: Body, paginate: bool)
    requires output != PyStr("json") && output != PyStr("xml")
    ensures ProcessResponse(output, content, body, paginate) == Err(UnknownResponse)
  {
  }

  /**
   * A paginated records request fails as indexing the decoded body does:
   * KeyError for an object without `sensors`, TypeError for a body that is
   * not an object, UnknownResponse for a falsy one.
   */
  lemma PaginatedFailures(output: Value, content: Value, body: Body)
    requires content == PyStr("sensors") || content == PyStr("devices")
    ensures Decoded(output, body).Unlisted? ==> ProcessResponse(output, content, body, true) == Err(KeyError("sensors"))
    ensures Decoded(output, body).Other? ==> ProcessResponse(output, content, body, true) == Err(TypeError)
    ensures Decoded(output, body).Falsy? ==> ProcessResponse(output, content, body, true) == Err(UnknownResponse)
  {
  }

  /**
   * A paginated `json` listing for sensors or devices gives one record per
   * row and the `treesize`; the devices branch also reads the `sensors` key.
   */
  lemma PaginatedListing(content: Value, rows: seq<FieldMap>, n: int)
    requires content == PyStr("sensors") || content == PyStr("devices")
    requires forall i :: 0 <= i < |rows| ==> "self" !in rows[i]
    ensures var cls := if content == PyStr("devices") then ClientDevice else ClientSensor;
      BuildAll(cls, rows).Ok?
      && ProcessResponse(PyStr("json"), content, Listing(rows, n), true) == Ok(Some((BuildAll(cls, rows).value, n)))
  {
    BuildAllRecords(ClientSensor, rows);
    BuildAllRecords(ClientDevice, rows);
  }

  /** An XML response never yields records, with or without pagination. */
  lemma XmlListsNothing(content: Value, body: Body, paginate: bool)
    ensures var r := ProcessResponse(PyStr("xml"), content, body, paginate);
      (r.Ok? ==> r.value.None?) && (r.Err? ==> r.error == UnknownResponse || r.error == TypeError)
  {
  }

  /** One round of `paginate_request` before its `increment`: request at `position`, process, unpack. */
  function Round(q: Query, fetch: string -> Body, position: int): (r: Result<(seq<Obj>, int), Error>)
    ensures r.Ok? ==> q.content == PyStr("sensors") || q.content == PyStr("devices")
  {
    match ProcessResponse(q.output, q.content, fetch(q.UrlAt(position)), true)
    case Err(e) => Err(e)
    case Ok(None) => Err(TypeError)  // `resp, size = None`
    case Ok(Some(page)) => Ok(page)
  }

  /**
   * A paginated query for other content gets None back from a truthy
   * response, and unpacking it into `resp, size` raises TypeError.
   */
  lemma PaginatedOtherContent(q: Query, fetch: string -> Body, position: int)
    requires q.content != PyStr("sensors") && q.content != PyStr("devices")
    requires !Decoded(q.output, fetch(q.UrlAt(position))).Falsy?
    ensures Round(q, fetch, position) == Err(TypeError)
  {
  }

  /**
   * A round succeeds exactly on a listing for sensors or devices whose rows
   * build, and then gives the built records and the `treesize`.
   */
  lemma RoundListing(q: Query, fetch: string -> Body, position: int)
    ensures var d := Decoded(q.output, fetch(q.UrlAt(position)));
      Round(q, fetch, position).Ok? <==>
        (q.content == PyStr("sensors") || q.content == PyStr("devices"))
        && d.Listing? && forall i :: 0 <= i < |d.sensors| ==> "self" !in d.sensors[i]
    ensures var d := Decoded(q.output, fetch(q.UrlAt(position)));
      var cls := if q.content == PyStr("devices") then ClientDevice else ClientSensor;
      Round(q, fetch, position).Ok? ==> Round(q, fetch, position).value == (BuildAll(cls, d.sensors).value, d.treesize)
  {
    var d := Decoded(q.output, fetch(q.UrlAt(position)));
    if d.Listing? {
      BuildAllRecords(ClientSensor, d.sensors);
      BuildAllRecords(ClientDevice, d.sensors);
    }
  }

  /** One resumption of the generator: its result and the query's new state. */
  function Next(q: Query, fetch: string -> Body, c: Cursor): (Result<Option<seq<Obj>>, Error>, Cursor)
  {
    if c.finished then (Ok(None), c)
    else
      match Round(q, fetch, c.position)
      case Err(e) => (Err(e), c)
      case Ok((page, total)) => (Ok(Some(page)), Advance(c, |page|, total))
  }

  datatype Outcome = Done | Failed(error: Error) | Cut

  /** The pages a run yields, how it ended, and the query state it leaves. */
  datatype Run = Run(pages: seq<seq<Obj>>, outcome: Outcome, cursor: Cursor)

  /** Iterating the generator from state `c` for at most `fuel` pages. */
  function Paginate(q: Query, fetch: string -> Body, c: Cursor, fuel: nat): Run
    decreases fuel
  {
    if c.finished then Run([], Done, c)
    else if fuel == 0 then Run([], Cut, c)
    else
      match Next(q, fetch, c)
      case (Err(e), c') => Run([], Failed(e), c')
      case (Ok(None), c') => Run([], Done, c')
      case (Ok(Some(page)), c') =>
        var rest := Paginate(q, fetch, c', fuel - 1);
        Run([page] + rest.pages, rest.outcome, rest.cursor)
  }

  /** A round that yields `page` and leaves the query in state `c'` puts `page` before the rest of the run. */
  lemma PaginateStep(q: Query, fetch: string -> Body, c: Cursor, fuel: nat, page: seq<Obj>, c': Cursor)
    requires fuel > 0 && Next(q, fetch, c) == (Ok(Some(page)), c')
    ensures !c.finished
    ensures var rest := Paginate(q, fetch, c', fuel - 1);
      Paginate(q, fetch, c, fuel) == Run([page] + rest.pages, rest.outcome, rest.cursor)
  {
  }

  /** A round that fails, or a generator that stops, ends the run with no further page. */
  lemma PaginateEnds(q: Query, fetch: string -> Body, c: Cursor, fuel: nat, r: Result<Option<seq<Obj>>, Error>, c': Cursor)
    requires c.finished || fuel > 0
    requires Next(q, fetch, c) == (r, c') && (r.Err? || r.value.None?)
    ensures Paginate(q, fetch, c, fuel) == Run([], if r.Err? then Failed(r.error) else Done, c')
  {
  }

  /** A run preceded by the pages `out` already collected. */
  function After(out: seq<seq<Obj>>, run: Run): Run
  {
    Run(out + run.pages, run.outcome, run.cursor)
  }

  lemma AfterNothing(out: seq<seq<Obj>>, run: Run)
    requires run.pages == []
    ensures After(out, run) == Run(out, run.outcome, run.cursor)
  {
    assert out + [] == out;
  }

  lemma AfterPage(out: seq<seq<Obj>>, page: seq<Obj>, run: Run)
    ensures After(out, Run([page] + run.pages, run.outcome, run.cursor)) == After(out + [page], run)
  {
    assert (out + [page]) + run.pages == out + ([page] + run.pages);
  }

  /** The number of records in a list of pages. */
  function Count(pages: seq<seq<Obj>>): nat
  {
    if |pages| == 0 then 0 else |pages[0]| + Count(pages[1..])
  }

  /** Every round succeeds and the server reports the same `treesize`. */
  ghost predicate FixedTotal(q: Query, fetch: string -> Body, total: int)
  {
    forall p :: Round(q, fetch, p).Ok? && Round(q, fetch, p).value.1 == total
  }

  ghost predicate NonEmptyPages(q: Query, fetch: string -> Body)
  {
    forall p :: Round(q, fetch, p).Ok? ==> |Round(q, fetch, p).value.0| > 0
  }

  /**
   * With a fixed total, a run that finishes does so right after the round
   * in which the accumulated page lengths first reach the total, and it
   * leaves the cursor reset.
   */
  lemma {:induction false} StopsAtFirstReach(q: Query, fetch: string -> Body, total: int, p0: int, fuel: nat)
    requires FixedTotal(q, fetch, total)
    requires Paginate(q, fetch, Cursor(p0, false), fuel).outcome == Done
    ensures var run := Paginate(q, fetch, Cursor(p0, false), fuel);
      && |run.pages| >= 1
      && run.cursor == Cursor(0, true)
      && p0 + Count(run.pages) >= total
      && forall k :: 1 <= k < |run.pages| ==> p0 + Count(run.pages[..k]) < total
    decreases fuel
  {
    var run := Paginate(q, fetch, Cursor(p0, false), fuel);
    assert Round(q, fetch, p0).Ok? && Round(q, fetch, p0).value.1 == total;
    var page := Round(q, fetch, p0).value.0;
    var p1 := p0 + |page|;
    if p1 < total {
      var rest := Paginate(q, fetch, Cursor(p1, false), fuel - 1);
      assert run.pages == [page] + rest.pages;
      StopsAtFirstReach(q, fetch, total, p1, fuel - 1);
      assert ([page] + rest.pages)[1..] == rest.pages;
      forall k | 1 <= k < |run.pages| ensures p0 + Count(run.pages[..k]) < total {
        var pre := run.pages[..k];
        assert pre[0] == page;
        if k > 1 {
          assert pre[1..] == rest.pages[..k - 1];
        } else {
          assert pre[1..] == [];
        }
      }
    } else {
      assert run.pages == [page];
      assert run.pages[1..] == [];
    }
  }

  /** The bound on rounds: one, or the distance from the starting cursor to the total. */
  function RoundBound(total: int, p0: int): nat
  {
    if total - p0 >= 1 then total - p0 else 1
  }

  /**
   * With a fixed total and no empty page, a run from cursor `p0` finishes
   * within `RoundBound(total, p0)` rounds (at most `total` from 0).
   */
  lemma {:induction false} FinishesWithinTotal(q: Query, fetch: string -> Body, total: int, p0: int, fuel: nat)
    requires FixedTotal(q, fetch, total) && NonEmptyPages(q, fetch)
    requires fuel >= RoundBound(total, p0)
    ensures Paginate(q, fetch, Cursor(p0, false), fuel).outcome == Done
    ensures |Paginate(q, fetch, Cursor(p0, false), fuel).pages| <= RoundBound(total, p0)
    decreases fuel
  {
    assert Round(q, fetch, p0).Ok? && Round(q, fetch, p0).value.1 == total;
    var page := Round(q, fetch, p0).value.0;
    assert |page| > 0;
    var p1 := p0 + |page|;
    if p1 < total {
      FinishesWithinTotal(q, fetch, total, p1, fuel - 1);
    }
  }

  /** `Client.query`'s result: the pages, the generator's exception, or the round limit. */
  datatype Reply = Pages(pages: seq<seq<Obj>>) | NoReply

  function Collected(run: Run): Result<Reply, Error>
  {
    match run.outcome
    case Done => Ok(Pages(run.pages))
    case Failed(e) => Err(e)
    case Cut => Err(RoundLimit)
  }

  class Connection {
    const limit: int
    var counter: int
    var finished: bool

    constructor (limit: int := 500)
      ensures this.limit == limit && counter == 0 && !finished
    {
      this.limit := limit;
      counter := 0;
      finished := false;
    }

    /**
     * One resumption of `paginate_request(query)`: stop once the query is
     * finished, otherwise request, process, increment and yield the page.
     */
    method NextPage(q: Query, fetch: string -> Body) returns (r: Result<Option<seq<Obj>>, Error>)
      modifies q`cursor, q`finished
      ensures !q.paginate ==> r == Err(AttributeError("finished")) && q.At() == old(q.At())
      ensures q.paginate ==> (r, q.At()) == Next(q, fetch, old(q.At()))
    {
      if !q.paginate {
        return Err(AttributeError("finished"));
      }
      if q.finished {
        return Ok(None);
      }
      var resp := ProcessResponse(q.output, q.content, fetch(q.GetUrl()), q.paginate);
      if resp.Err? {
        return Err(resp.error);
      }
      if resp.value.None? {
        return Err(TypeError);
      }
      var (page, size) := resp.value.value;
      var _ := q.Increment(|page|, size);
      r := Ok(Some(page));
    }

    /** `make_request`: one request, processed without pagination, so it never returns records. */
    method MakeRequest(q: Query, fetch: string -> Body) returns (r: Result<Option<(seq<Obj>, int)>, Error>)
      ensures r == ProcessResponse(q.output, q.content, fetch(q.GetUrl()), false)
      ensures r.Ok? ==> r.value.None?
      ensures r.Err? <==> Decoded(q.output, fetch(q.GetUrl())).Falsy?
      ensures r.Err? ==> r.error == UnknownResponse
    {
      UnpaginatedResponse(q.output, q.content, fetch(q.GetUrl()));
      r := ProcessResponse(q.output, q.content, fetch(q.GetUrl()), false);
    }
  }

  class Client {
    const connection: Connection
    const endpoint: Value
    const username: Value
    const password: Value
    /** `query_args`: the credentials every query starts from. */
    const queryArgs: Dict := QueryArgs(endpoint, username, password)

    constructor (endpoint: Value, username: Value, password: Value)
      ensures fresh(connection) && connection.limit == 500
      ensures queryArgs == QueryArgs(endpoint, username, password)
    {
      connection := new Connection();
      this.endpoint := endpoint;
      this.username := username;
      this.password := password;
    }

    /** `_build_query(**kwargs)`: the credentials updated with the keywords, bound to `Query`. */
    method BuildQuery(kwargs: Dict) returns (r: Result<Query, Error>)
      ensures r.Ok? ==> fresh(r.value)
      ensures Constructed(r, Bind(Update(queryArgs, kwargs)))
    {
      var args := Update(queryArgs, kwargs);
      var bound := Bind(args);
      if bound.Err? {
        return Err(bound.error);
      }
      var call := bound.value;
      r := NewQuery(call.endpoint, call.target, call.username, call.password, call.output, call.kwargs);
    }

    /**
     * `query(query)`: for a paginating query, the pages the generator
     * yields, in order, or the exception it raises; otherwise the result of
     * `make_request`, which is None when it does not raise. At most
     * `maxRounds` pages are requested.
     */
    method RunQuery(q: Query, fetch: string -> Body, maxRounds: nat) returns (r: Result<Reply, Error>)
      modifies q`cursor, q`finished
      ensures q.paginate ==> var run := Paginate(q, fetch, old(q.At()), maxRounds);
        r == Collected(run) && q.At() == run.cursor
      ensures !q.paginate ==> (q.At() == old(q.At()) &&
        r == match ProcessResponse(q.output, q.content, fetch(q.GetUrl()), false)
             case Err(e) => Err(e)
             case Ok(_) => Ok(NoReply))
    {
      if !q.paginate {
        var resp := connection.MakeRequest(q, fetch);
        if resp.Err? {
          return Err(resp.error);
        }
        return Ok(NoReply);
      }
      r := Collect(q, fetch, maxRounds);
    }

    /** The `for r in paginate_request(query)` loop of `query`, appending each page. */
    method Collect(q: Query, fetch: string -> Body, maxRounds: nat) returns (r: Result<Reply, Error>)
      requires q.paginate
      modifies q`cursor, q`finished
      ensures var run := Paginate(q, fetch, old(q.At()), maxRounds);
        r == Collected(run) && q.At() == run.cursor
    {
      ghost var start := q.At();
      ghost var c := start;
      var out: seq<seq<Obj>> := [];
      var fuel: nat := maxRounds;
      while true
        invariant q.At() == c
        invariant Paginate(q, fetch, start, maxRounds) == After(out, Paginate(q, fetch, c, fuel))
        decreases fuel
      {
        if !q.finished && fuel == 0 {
          AfterNothing(out, Run([], Cut, c));
          return Err(RoundLimit);
        }
        var page := connection.NextPage(q, fetch);
        if page.Err? || page.value.None? {
          PaginateEnds(q, fetch, c, fuel, page, q.At());
          AfterNothing(out, Paginate(q, fetch, c, fuel));
          if page.Err? {
            return Err(page.error);
          }
          return Ok(Pages(out));
        }
        var p := page.value.value;
        PaginateStep(q, fetch, c, fuel, p, q.At());
        AfterPage(out, p, Paginate(q, fetch, q.At(), fuel - 1));
        c := q.At();
        out := out + [p];
        fuel := fuel - 1;
      }
    }


    /**
     * `get_table_output(filter_string, content)`: the filter must split on
     * `=` into exactly a key and a value; the key must not clash with the
     * other keywords; the query is a paginated `table` query.
     */
    method GetTableOutput(filterString: string, content: Value) returns (r: Result<Query, Error>)
      ensures r.Ok? ==> fresh(r.value)
      ensures |SplitOn(filterString, '=')| != 2 ==> r == Err(ValueError)
      ensures |SplitOn(filterString, '=')| == 2 ==>
        match TableKeywords(SplitOn(filterString, '=')[0], SplitOn(filterString, '=')[1], content)
        case Err(e) => r == Err(e)
        case Ok(kwargs) => Constructed(r, Bind(Update(queryArgs, kwargs)))
    ensures |SplitOn(filterString, '=')| == 2 && SplitOn(filterString, '=')[0] in ["target", "content", "counter", "self"]
      ==> r == Err(TypeError)
    {
      var pieces := SplitOn(filterString, '=');
      if |pieces| != 2 {
        return Err(ValueError);
      }
      var kwargs := TableKeywords(pieces[0], pieces[1], content);
      if kwargs.Err? {
        return Err(kwargs.error);
      }
      r := BuildQuery(kwargs.value);
    }

    method GetObjectProperty(objectid: Value, prop: Value) returns (r: Result<Query, Error>)
      ensures r.Ok? ==> fresh(r.value)
      ensures Constructed(r, Bind(Update(queryArgs, ObjectPropertyKeywords(objectid, prop))))
    {
      r := BuildQuery(ObjectPropertyKeywords(objectid, prop));
    }

    method GetSensor(sensorid: Value) returns (r: Result<Query, Error>)
      ensures r.Ok? ==> fresh(r.value)
      ensures Constructed(r, Bind(Update(queryArgs, SensorKeywords(sensorid))))
    {
      r := BuildQuery(SensorKeywords(sensorid));
    }

    method GetStatus() returns (r: Result<Query, Error>)
      ensures r.Ok? ==> fresh(r.value)
      ensures Constructed(r, Bind(Update(queryArgs, [("target", PyStr("getstatus"))])))
    {
      r := BuildQuery([("target", PyStr("getstatus"))]);
    }

    method GetSensorTypes() returns (r: Result<Query, Error>)
      ensures r.Ok? ==> fresh(r.value)
      ensures Constructed(r, Bind(Update(queryArgs, [("target", PyStr("sensortypesinuse"))])))
    {
      r := BuildQuery([("target", PyStr("sensortypesinuse"))]);
    }

    /** `set_object_property`: a `setobjectproperty` query with the id, name and value as extras. */
    method SetObjectProperty(objectid: Value, name: Value, value: Value) returns (r: Result<Query, Error>)
      ensures r.Ok? ==> fresh(r.value)
      ensures Constructed(r, Bind(Update(queryArgs, SetPropertyKeywords(objectid, name, value))))
      ensures r == Err(BadTarget("Invalid API target: " + Str(PyStr("setobjectproperty"))))
    {
      r := BuildQuery(SetPropertyKeywords(objectid, name, value));
      SetObjectPropertyFails(endpoint, username, password, objectid, name, value, r);
    }
  }

  /** The keywords of `get_table_output`'s call, or the TypeError of a key given twice. */
  function TableKeywords(k: string, v: string, content: Value): Result<Dict, Error>
  {
    if k in ["target", "content", "counter", "self"] then Err(TypeError)
    else Ok([("target", PyStr("table")), ("content", content), ("counter", content), (k, PyStr(v))])
  }

  function ObjectPropertyKeywords(objectid: Value, prop: Value): Dict
  {
    [("target", PyStr("getobjectproperty")), ("id", objectid), ("property", prop), ("show", PyStr("text"))]
  }

  function SetPropertyKeywords(objectid: Value, name: Value, value: Value): Dict
  {
    [("target", PyStr("setobjectproperty")), ("id", objectid), ("name", name), ("value", value)]
  }

  function SensorKeywords(sensorid: Value): Dict
  {
    [("target", PyStr("getsensordetails")), ("sensorid", sensorid), ("output", PyStr("xml")), ("content", PyStr("sensor"))]
  }

  /** The credentials of a client, as `query_args` holds them. */
  function QueryArgs(endpoint: Value, username: Value, password: Value): Dict
  {
    [("endpoint", endpoint), ("username", username), ("password", password)]
  }

  /**
   * Keywords that repeat no credential and no `self` are appended to the
   * credentials; binding then takes the target and output from them and
   * passes the rest on.
   */
  predicate PlainKeywords(kwargs: Dict)
  {
    forall i :: 0 <= i < |kwargs| ==>
      kwargs[i].0 != "self" && kwargs[i].0 != "endpoint" && kwargs[i].0 != "username" && kwargs[i].0 != "password"
  }

  /** A lookup after appending keywords to the credentials. */
  lemma QueryArgsGet(endpoint: Value, username: Value, password: Value, kwargs: Dict, k: string)
    ensures Get(QueryArgs(endpoint, username, password) + kwargs, k) ==
      if k == "endpoint" then Some(endpoint) else if k == "username" then Some(username)
      else if k == "password" then Some(password) else Get(kwargs, k)
  {
    var e, u, p := ("endpoint", endpoint), ("username", username), ("password", password);
    assert QueryArgs(endpoint, username, password) == [e] + ([u] + [p]);
    GetCons(p, [], k);
    GetCons(u, [p], k);
    GetCons(e, [u] + [p], k);
    GetAppend(QueryArgs(endpoint, username, password), kwargs, k);
  }

  lemma PlainKeywordsAvoid(kwargs: Dict)
    requires PlainKeywords(kwargs)
    ensures "self" !in KeysOf(kwargs) && "endpoint" !in KeysOf(kwargs)
    ensures "username" !in KeysOf(kwargs) && "password" !in KeysOf(kwargs)
  {
  }

  /** The arguments a plain call binds: the credentials followed by the keywords. */
  lemma PlainArguments(endpoint: Value, username: Value, password: Value, kwargs: Dict)
    requires UniqueKeys(kwargs) && PlainKeywords(kwargs)
    ensures var args := Update(QueryArgs(endpoint, username, password), kwargs);
      && Get(args, "self").None?
      && Get(args, "endpoint") == Some(endpoint) && Get(args, "username") == Some(username)
      && Get(args, "password") == Some(password)
      && Get(args, "target") == Get(kwargs, "target") && Get(args, "output") == Get(kwargs, "output")
      && Without(args, Parameters) == Without(kwargs, Parameters)
  {
    var creds := QueryArgs(endpoint, username, password);
    PlainKeywordsAvoid(kwargs);
    assert Update(creds, kwargs) == creds + kwargs by {
      assert KeysOf(creds) == ["endpoint", "username", "password"];
      UpdateAppends(creds, kwargs);
    }
    assert Get(kwargs, "self").None? by {
      GetFindsKeys(kwargs, "self");
    }
    QueryArgsGet(endpoint, username, password, kwargs, "self");
    QueryArgsGet(endpoint, username, password, kwargs, "endpoint");
    QueryArgsGet(endpoint, username, password, kwargs, "username");
    QueryArgsGet(endpoint, username, password, kwargs, "password");
    QueryArgsGet(endpoint, username, password, kwargs, "target");
    QueryArgsGet(endpoint, username, password, kwargs, "output");
    assert Without(creds + kwargs, Parameters) == Without(kwargs, Parameters) by {
      WithoutAppend(creds, kwargs, Parameters);
      var e, u, p := ("endpoint", endpoint), ("username", username), ("password", password);
      assert creds == [e] + ([u] + [p]);
      WithoutCons(p, [], Parameters);
      WithoutCons(u, [p], Parameters);
      WithoutCons(e, [u] + [p], Parameters);
    }
  }

  /**
   * Keywords that repeat no credential and no `self` are appended to the
   * credentials; binding then takes the target and output from them and
   * passes the rest on.
   */
  lemma PlainCall(endpoint: Value, username: Value, password: Value, kwargs: Dict)
    requires UniqueKeys(kwargs) && PlainKeywords(kwargs)
    requires Get(kwargs, "target").Some?
    ensures Bind(Update(QueryArgs(endpoint, username, password), kwargs)) ==
      Ok(Call(endpoint, Get(kwargs, "target").value, username, password,
              if Get(kwargs, "output").Some? then Get(kwargs, "output").value else PyStr("json"),
              Without(kwargs, Parameters)))
  {
    PlainArguments(endpoint, username, password, kwargs);
  }

  /** `set_object_property` binds a `setobjectproperty` call whose extras are id, name and value. */
  lemma SetPropertyCall(endpoint: Value, username: Value, password: Value, objectid: Value, name: Value, value: Value)
    ensures Bind(Update(QueryArgs(endpoint, username, password), SetPropertyKeywords(objectid, name, value)))
      == Ok(Call(endpoint, PyStr("setobjectproperty"), username, password, PyStr("json"),
                 [("id", objectid), ("name", name), ("value", value)]))
  {
    var t, a, b, c := ("target", PyStr("setobjectproperty")), ("id", objectid), ("name", name), ("value", value);
    var kw := SetPropertyKeywords(objectid, name, value);
    assert kw == [t] + ([a] + ([b] + [c]));
    assert Get(kw, "output").None? by {
      GetCons(c, [], "output");
      GetCons(b, [c], "output");
      GetCons(a, [b] + [c], "output");
      GetCons(t, [a] + ([b] + [c]), "output");
    }
    assert Without(kw, Parameters) == [a, b, c] by {
      WithoutCons(c, [], Parameters);
      WithoutCons(b, [c], Parameters);
      WithoutCons(a, [b] + [c], Parameters);
      WithoutCons(t, [a] + ([b] + [c]), Parameters);
    }
    PlainCall(endpoint, username, password, kw);
  }

  /**
   * `set_object_property` raises BadTarget for any client and any
   * arguments: its target is not in this file's list.
   */
  lemma SetObjectPropertyFails(endpoint: Value, username: Value, password: Value,
                               objectid: Value, name: Value, value: Value, r: Result<Query, Error>)
    requires Constructed(r, Bind(Update(QueryArgs(endpoint, username, password), SetPropertyKeywords(objectid, name, value))))
    ensures r == Err(BadTarget("Invalid API target: " + Str(PyStr("setobjectproperty"))))
  {
    SetPropertyCall(endpoint, username, password, objectid, name, value);
    HelperTargets();
  }

  /** `get_object_property` builds a non-paginated `getobjectproperty` query whose extras are id, property and show. */
  lemma ObjectPropertyCall(endpoint: Value, username: Value, password: Value, objectid: Value, prop: Value)
    ensures Bind(Update(QueryArgs(endpoint, username, password), ObjectPropertyKeywords(objectid, prop)))
      == Ok(Call(endpoint, PyStr("getobjectproperty"), username, password, PyStr("json"),
                 [("id", objectid), ("property", prop), ("show", PyStr("text"))]))
    ensures Get([("id", objectid), ("property", prop), ("show", PyStr("text"))], "counter").None?
  {
    var t, a, b, c := ("target", PyStr("getobjectproperty")), ("id", objectid), ("property", prop), ("show", PyStr("text"));
    var kw := ObjectPropertyKeywords(objectid, prop);
    assert kw == [t] + ([a] + ([b] + [c]));
    assert Get(kw, "output").None? && Get([a, b, c], "counter").None? by {
      assert [a, b, c] == [a] + ([b] + [c]);
      GetCons(c, [], "output");
      GetCons(b, [c], "output");
      GetCons(a, [b] + [c], "output");
      GetCons(t, [a] + ([b] + [c]), "output");
      GetCons(c, [], "counter");
      GetCons(b, [c], "counter");
      GetCons(a, [b] + [c], "counter");
    }
    assert Without(kw, Parameters) == [a, b, c] by {
      WithoutCons(c, [], Parameters);
      WithoutCons(b, [c], Parameters);
      WithoutCons(a, [b] + [c], Parameters);
      WithoutCons(t, [a] + ([b] + [c]), Parameters);
    }
    PlainCall(endpoint, username, password, kw);
  }

  /**
   * A filter `k=v` whose key is none of the named keywords builds a
   * paginated `table` query: `content` is both the content and the
   * counter, and the filter is passed on as an extra.
   */
  lemma TableCall(endpoint: Value, username: Value, password: Value, k: string, v: string, content: Value)
    requires k !in ["target", "content", "counter", "self", "endpoint", "username", "password", "output"]
    ensures TableKeywords(k, v, content).Ok?
    ensures Bind(Update(QueryArgs(endpoint, username, password), TableKeywords(k, v, content).value))
      == Ok(Call(endpoint, PyStr("table"), username, password, PyStr("json"),
                 [("content", content), ("counter", content), (k, PyStr(v))]))
    ensures Get([("content", content), ("counter", content), (k, PyStr(v))], "counter") == Some(content)
  {
    var t, a, b, c := ("target", PyStr("table")), ("content", content), ("counter", content), (k, PyStr(v));
    var kw := TableKeywords(k, v, content).value;
    assert kw == [t] + ([a] + ([b] + [c]));
    assert Get(kw, "output").None? && Get([a, b, c], "counter") == Some(content) by {
      assert [a, b, c] == [a] + ([b] + [c]);
      GetCons(c, [], "output");
      GetCons(b, [c], "output");
      GetCons(a, [b] + [c], "output");
      GetCons(t, [a] + ([b] + [c]), "output");
      GetCons(b, [c], "counter");
      GetCons(a, [b] + [c], "counter");
    }
    assert Without(kw, Parameters) == [a, b, c] by {
      WithoutCons(c, [], Parameters);
      WithoutCons(b, [c], Parameters);
      WithoutCons(a, [b] + [c], Parameters);
      WithoutCons(t, [a] + ([b] + [c]), Parameters);
    }
    PlainCall(endpoint, username, password, kw);
  }

  /** `get_sensor` asks for XML output and passes `sensorid` and `content` on as extras. */
  lemma SensorCall(endpoint: Value, username: Value, password: Value, sensorid: Value)
    ensures Bind(Update(QueryArgs(endpoint, username, password), SensorKeywords(sensorid)))
      == Ok(Call(endpoint, PyStr("getsensordetails"), username, password, PyStr("xml"),
                 [("sensorid", sensorid), ("content", PyStr("sensor"))]))
  {
    var t, a, b, c := ("target", PyStr("getsensordetails")), ("sensorid", sensorid), ("output", PyStr("xml")), ("content", PyStr("sensor"));
    var kw := SensorKeywords(sensorid);
    assert kw == [t] + ([a] + ([b] + [c]));
    assert Get(kw, "output") == Some(PyStr("xml")) by {
      GetCons(a, [b] + [c], "output");
      GetCons(t, [a] + ([b] + [c]), "output");
    }
    assert Without(kw, Parameters) == [a, c] by {
      WithoutCons(c, [], Parameters);
      WithoutCons(b, [c], Parameters);
      WithoutCons(a, [b] + [c], Parameters);
      WithoutCons(t, [a] + ([b] + [c]), Parameters);
    }
    PlainCall(endpoint, username, password, kw);
  }
}
