# prtg-py core, modelled in Dafny

prtg-py is a Python client for the HTTP API of Paessler's PRTG network
monitor. This project models and proves properties of three parts of it:

- **Query construction and URL rendering.** There are two independent
  `Query` classes, as the repository has them. `prtg/models.py` keeps a
  target-to-extension table, checks the object-property parameters, steps
  the counter by a fixed `maximum`, and always emits `start`/`count`.
  `prtg/client.py` keeps a plain list of targets, paginates only when a
  `counter` keyword is given, moves a cursor with `increment(count, total)`,
  and emits `start` only while paginating.
- **The pagination driver.** `Connection.paginate_request` and
  `Client.query` in `prtg/client.py` form a `while not finished` loop over a
  request function. The request function is a parameter
  (`fetch: string -> Body`), from the URL to the decoded body.
- **Domain objects and the object cache.** `PrtgObject`/`Sensor`/`Device`
  (both files) and `Status` (`prtg/models.py`) are built from a field map.
  The `Cache` of `prtg/cache.py` is a shelf of objects keyed by `str(objid)`.

Files:

| file | contents |
|---|---|
| `outcomes.dfy` | `Option` and `Result` |
| `text.dfy` | `sep.join`, `str.split`, `str(int)` and `int(str)`, with their round trips |
| `values.dfy` | Python values and their `str()`/truthiness, the raised errors, ordered keyword dictionaries (`dict.update`, insertion order), and the `k=v` extras of a URL |
| `objects.dfy` | the record type, the class names, `content_type` and the cache key |
| `models.dfy` | `prtg/models.py` |
| `client.dfy` | `prtg/client.py` |
| `cache.dfy` | `prtg/cache.py` |

How the Python maps onto Dafny:

- An exception the source raises is the `Err` half of a `Result`.
- A record's attributes, which the source sets with `setattr`, are a map from attribute name to value.
- The keyword arguments of a query and of `_build_query` are an ordered list of pairs, so that `dict.update` and insertion order can be stated. The field map a record constructor takes is an unordered `map<string, Value>` (`FieldMap`), because the constructors only look keys up.
- The shelf is a `map` field of the `Cache` class.
- The constructor loops are methods proved equal to declarative specification functions. The properties are then proved about those functions.

## Model

| member | source | states |
|---|---|---|
| PrtgObjects.CopyColumns | prtg/models.py:101-105 | the `setattr` loop over a column list yields the old attributes overridden by exactly the listed columns the field map has, with their raw values |
| PrtgObjects.ContentType | prtg/models.py:60-105 | exactly the `Sensor`, `Device` and `Status` classes of prtg/models.py declare a `content_type`, and it is one of `sensors`, `devices`, `status` |
| PrtgObjects.ContentTypesDistinct | prtg/models.py:60-105 | two classes with the same `content_type` are the same class |
| PrtgObjects.CacheKey | prtg/cache.py:29 | `str(obj.objid)`: a record has a key exactly when it has an `objid`, which for an int is its decimal text; otherwise AttributeError |
| PrtgObjects.CacheKeysSeparateIds | prtg/cache.py:29-32 | objects with different integer ids are stored under different `str(objid)` keys |
| Text.SplitThenJoin | prtg/models.py:48-50 | joining the pieces of `s.split(sep)` with `sep` gives back `s` |
| Text.JoinThenSplit | prtg/client.py:142-143 | splitting a join of separator-free pieces gives back the pieces |
| Text.SplitCount | prtg/client.py:218 | `s.split(sep)` has one piece more than `s` has separators |
| Text.SplitPiecesAvoidSeparator | prtg/client.py:218 | no piece produced by `split` contains the separator |
| Text.IntTextRoundTrip | prtg/models.py:52 | `int(str(i)) == i` for every integer |
| Text.IntToStringInjective | prtg/cache.py:29 | different integers have different decimal texts |
| PyValues.ToInt | prtg/models.py:51-54 | `int(v)` of an int is that int; it fails only with TypeError or ValueError |
| PyValues.IntOfItsText | prtg/models.py:51-54 | `int` of the text of an int gives that int back |
| PyValues.UpdateGet | prtg/client.py:204-205 | after `args.update(kwargs)`, a key of `kwargs` has the value from `kwargs`; any other key keeps its old value |
| PyValues.UpdateAppends | prtg/models.py:159-174 | updating with new keys appends them in order |
| PyValues.UpdateKeepsUnique | prtg/client.py:204-205 | `update` keeps the keys unique |
| PyValues.PutGet | prtg/client.py:205 | one `d[k] = v` makes `k` map to `v` and leaves every other key's value unchanged |
| PyValues.PutKeys | prtg/client.py:205 | assigning an existing key keeps the key order; assigning a new key appends it |
| PyValues.ParamListAppend | prtg/client.py:142-143 | the `k=v` list of concatenated extras is the concatenation of their lists |
| PyValues.ParamListSingle | prtg/client.py:142-143 | one extra gives `k=v` exactly when its value is truthy |
| PyValues.ParametersRoundTrip | prtg/client.py:135-144 | splitting the rendered parameters on `&` gives back the fixed parameters followed by the truthy extras in order |
| PyValues.TrailingAmpersand | prtg/client.py:141-143 | a non-empty extras dict whose values are all falsy still appends a lone `&` |
| Models.FirstRejected | prtg/models.py:45-57 | no error is reported exactly when every listed `objid`/`parentid` in the field map converts with `int` |
| Models.ConvertColumns | prtg/models.py:45-57 | the base column loop raises the first conversion error in column order; otherwise it stores the converted values of exactly the columns present |
| Models.InitBase | prtg/models.py:43-57 | `PrtgObject.__init__` sets `type` to the class name and then runs the converting base loop |
| Models.NewRecord | prtg/models.py:43-105 | the constructors of PrtgObject, Sensor, Device and Status agree with the declarative record function |
| Models.BaseRejection | prtg/models.py:51-54 | the base loop can fail only on `objid` and then only on `parentid`, in that order |
| Models.RecordFailures | prtg/models.py:43-105 | construction fails exactly on a `self` keyword or an unconvertible `objid`/`parentid`, with that error |
| Models.RecordReadsOnlyColumns | prtg/models.py:45-47 | apart from `type`, an attribute is set exactly when its key is in the field map and in a column list of the class |
| Models.RecordBaseColumn | prtg/models.py:47-55 | a base column that the subclass does not list holds its converted value |
| Models.RecordOwnColumnsWin | prtg/models.py:67-73 | a subclass column holds the raw input, because the subclass loop runs after the base loop |
| Models.RecordType | prtg/models.py:44 | `type` is the class name unless the field map supplies a `type` |
| Models.RecordTags | prtg/models.py:48-50 | a string `tags` is stored split on single spaces; any other value is stored as given |
| Models.TagsExample | prtg/models.py:48-50 | `"a b c"` becomes `["a","b","c"]` and `""` becomes `[""]` |
| Models.RecordObjid | prtg/models.py:51-52 | `objid` is stored as `int` of its input |
| Models.RecordParentid | prtg/models.py:53-54 | `parentid` is the raw input for Sensor and Device, and the `int` of it for PrtgObject and Status |
| Models.BadParentFails | prtg/models.py:53-54 | an unconvertible `parentid` makes every record class fail with the `int` error |
| Models.SensorColumnsAvoid | prtg/models.py:22-29 | the sensor columns do not include `type`, `tags`, `objid` or `name` |
| Models.DeviceColumnsAvoid | prtg/models.py:30-35 | the device columns do not include `type`, `tags`, `objid` or `name` |
| Models.StatusColumnsAvoid | prtg/models.py:36-40 | the status columns do not include `type`, `tags`, `objid` or `parentid` |
| Models.NotSubclassColumns | prtg/models.py:17-41 | no subclass column list overrides `type`, `tags` or `objid` |
| Models.Query.constructor | prtg/models.py:147-157 | the fields after the target check: the client's credentials, `GET`, target plus extension, counter 0, empty response and extras, expecting a response |
| Models.Query.Increment | prtg/models.py:176-177 | each call adds exactly `maximum`, so after k calls the counter is `k * maximum` |
| Models.Query.FillExtra | prtg/models.py:159-174 | the default columns for a table, a truthy content, and the object-property parameters, appended in that order; fails exactly when a required property parameter is falsy; no response is expected for `setobjectproperty` |
| Models.DefaultColumnsJoined | prtg/models.py:140 | the default columns joined by `,` are `objid,parentid,name,tags,active,status` |
| Models.TableColumnsByUpdate | prtg/models.py:159-160 | a table query's first extra is that `columns` value |
| Models.ContentAppended | prtg/models.py:162-163 | `content` is appended after `columns` |
| Models.PropertiesAppended | prtg/models.py:168-174 | the `id`/`name`(/`value`) parameters are appended after the earlier extras |
| Models.NewQuery | prtg/models.py:142-174 | an unknown target raises BadTarget with its message; a falsy required property parameter raises a bare BadTarget; otherwise the query has the target's extension and the extras in insertion order |
| Models.Url | prtg/models.py:179-187 | `get_url` (`Query.GetUrl` applies it to the query's fields): the URL begins with the endpoint, `/api/`, the target and the user name, and ends with the rendered extras; UrlShape and UrlParameters give the parameters in between |
| Models.UrlShape | prtg/models.py:179-187 | the URL is endpoint, `/api/`, target, then `username`, `password`, `start` and `count` joined by `&`, then the extras |
| Models.UrlHeadAmpersandFree | prtg/models.py:180-182 | the fixed parameters contain no `&` when the credentials do not |
| Models.UrlParameters | prtg/models.py:179-187 | splitting the query string on `&` recovers the credentials, `start=<counter>`, `count=<maximum>` and the truthy extras in insertion order |
| Models.UrlMentionsCredentials | prtg/models.py:138 | the endpoint, user name and password all occur in the URL |
| PrtgClient.NewRecord | prtg/client.py:54-87 | the constructors of this file's PrtgObject, Sensor and Device agree with the declarative record function |
| PrtgClient.NameIsNone | prtg/client.py:66-87 | after constructing a Sensor or Device, `name` is None |
| PrtgClient.RecordCopiesColumns | prtg/client.py:54-87 | an attribute is set exactly when its key is in the field map and a column list, or it is the reset `name`; the value is the raw input |
| PrtgClient.RecordFailures | prtg/client.py:54-87 | construction fails exactly when the field map has a `self` key |
| PrtgClient.HelperTargets | prtg/client.py:92-95 | the targets the helper methods use are in the list, except `setobjectproperty` |
| PrtgClient.Bind | prtg/client.py:103 | binding the keyword arguments to `Query(...)` leaves every non-parameter keyword in `**kwargs` with its value |
| PyValues.WithoutGet | prtg/client.py:103 | what reaches `**kwargs` is the argument dictionary without the named parameters |
| PrtgClient.Query.constructor | prtg/client.py:108-126 | the fields after the target check: `paginate` holds exactly when `counter` is given, the cursor starts at 0 and unfinished, the target gets `.xml?`, `content` defaults to `''`, and the extras are all the keywords |
| PrtgClient.Query.Increment | prtg/client.py:128-133 | reaching the total finishes the query and resets the cursor to 0; otherwise the cursor grows by exactly `count` and `finished` is unchanged; without pagination `_counter` does not exist |
| PrtgClient.NewQuery | prtg/client.py:103-126 | a target outside the list raises BadTarget with its message and builds nothing; otherwise the query describes the call |
| PrtgClient.Query.GetUrl | prtg/client.py:135-144 | `get_url` at the current cursor (`Query.UrlAt` at any position, which the pagination rounds use): the URL begins with the endpoint, `/api/`, the target and the user name, and ends with the rendered extras; UrlShape and UrlParameters give the parameters in between |
| PrtgClient.UrlShape | prtg/client.py:135-144 | the URL is endpoint, `/api/`, target, then `username`, `password`, `output` and, only when paginating, `start` joined by `&`, then the extras |
| PrtgClient.UrlParameters | prtg/client.py:135-144 | splitting the query string on `&` recovers those parameters and the truthy extras in insertion order |
| PrtgClient.Decoded | prtg/client.py:162-168 | the body is falsy exactly when the response is falsy or the output is neither `json` nor `xml`; `json` output passes the body on unchanged, and only `json` output yields a JSON object |
| PrtgClient.ProcessResponse | prtg/client.py:157-179 | `_process_response`: records come back only for a paginated `json` request for sensors or devices, and UnknownResponse is raised exactly when the decoded body is falsy; PaginatedListing gives the success case, and UnpaginatedResponse, PaginatedFailures, XmlListsNothing and UndecodedOutput the others |
| PrtgClient.PaginatedListing | prtg/client.py:170-176 | a paginated `json` listing for sensors or devices whose rows have no `self` key returns one record per row, of the content's class, and the `treesize`; the devices branch reads the `sensors` key too |
| PrtgClient.BuildAllRecords | prtg/client.py:173-176 | building every row succeeds exactly when no row has a `self` key, and then gives one record per row, in order |
| PrtgClient.BuildAll | prtg/client.py:173-176 | the list comprehension can fail only with the TypeError of a `self` key |
| PrtgClient.UnpaginatedResponse | prtg/client.py:157-179 | a request that does not paginate never returns records: a falsy body raises UnknownResponse, and any other body gives None |
| PrtgClient.PaginatedFailures | prtg/client.py:170-179 | a paginated request for sensors or devices raises KeyError for an object without `sensors`, TypeError for a body that is not an object, and UnknownResponse for a falsy body |
| PrtgClient.XmlListsNothing | prtg/client.py:166-179 | an XML response never yields records: it gives None, or raises UnknownResponse or TypeError |
| PrtgClient.UndecodedOutput | prtg/client.py:162-179 | an output format other than `json` or `xml` always raises UnknownResponse |
| PrtgClient.Round | prtg/client.py:186-187 | one round of the generator before `increment` succeeds only for sensors or devices content |
| PrtgClient.RoundListing | prtg/client.py:170-187 | a round succeeds exactly on a sensors or devices listing whose rows build, and then gives the built records and the `treesize` |
| PrtgClient.PaginatedOtherContent | prtg/client.py:170-187 | for other content a truthy response gives None, and unpacking it into `resp, size` raises TypeError |
| PrtgClient.StopsAtFirstReach | prtg/client.py:184-189 | with a fixed reported total, a finished pagination ends in the first round where the page lengths reach the total, and leaves the cursor at 0 and finished |
| PrtgClient.FinishesWithinTotal | prtg/client.py:184-189 | with a fixed total and non-empty pages, pagination finishes within the bounded number of rounds (at most `total` from a start of 0) |
| PrtgClient.Connection.constructor | prtg/client.py:152-155 | the limit defaults to 500; the counter is 0 and not finished |
| PrtgClient.Connection.NextPage | prtg/client.py:184-189 | one generator step: request at the cursor, process, increment, yield the page; a finished query stops the generator |
| PrtgClient.Connection.MakeRequest | prtg/client.py:191-194 | never returns records: it gives None, or raises UnknownResponse exactly when the decoded body is falsy |
| PrtgClient.Client.constructor | prtg/client.py:199-201 | the stored query arguments are endpoint, username and password, in that order |
| PrtgClient.Client.BuildQuery | prtg/client.py:203-206 | the query is built from a copy of the stored arguments updated with the keywords |
| PrtgClient.Client.RunQuery | prtg/client.py:208-215 | a paginated query returns one list per page in the order yielded, or the error of the failing round; any other query returns None |
| PrtgClient.Client.Collect | prtg/client.py:209-213 | the append loop collects exactly the pages of the pagination run, and leaves the query in the run's final state |
| PrtgClient.Client.GetTableOutput | prtg/client.py:217-221 | a filter that does not split into exactly two pieces on `=` raises ValueError; a filter key that clashes with `target`, `content`, `counter` or `self` raises TypeError; otherwise the query is built from the table keywords (TableCall gives the call) |
| PrtgClient.TableCall | prtg/client.py:217-221 | a filter `k=v` whose key is not a named keyword binds a paginated `table` JSON call with `content`, `counter` (both the content) and `k=v` as extras |
| PrtgClient.Client.GetObjectProperty | prtg/client.py:223-224 | builds a `getobjectproperty` query with `id`, `property` and `show=text` |
| PrtgClient.Client.GetSensor | prtg/client.py:226-227 | builds a `getsensordetails` XML query with `sensorid` and `content` |
| PrtgClient.Client.GetStatus | prtg/client.py:229-230 | builds a `getstatus` query |
| PrtgClient.Client.GetSensorTypes | prtg/client.py:232-233 | builds a `sensortypesinuse` query |
| PrtgClient.Client.SetObjectProperty | prtg/client.py:235-236 | builds the query for a `setobjectproperty` call, which always raises BadTarget with the message for that target |
| PrtgClient.PlainArguments | prtg/client.py:203-206 | keywords that avoid the credential parameters keep the stored credentials, and the keywords reach `**kwargs` unchanged |
| PrtgClient.PlainCall | prtg/client.py:203-206 | such keywords bind to a call with the stored credentials, the given target, `json` by default, and the other keywords as extras |
| PrtgClient.SetPropertyCall | prtg/client.py:235-236 | `set_object_property` binds a `setobjectproperty` call with `id`, `name` and `value` as extras |
| PrtgClient.SetObjectPropertyFails | prtg/client.py:235-236 | `set_object_property` raises BadTarget for every client and every argument, because its target is not in the list at lines 92-95 |
| PrtgClient.ObjectPropertyCall | prtg/client.py:223-224 | `get_object_property` binds a `getobjectproperty` JSON call with those three extras and no pagination |
| PrtgClient.SensorCall | prtg/client.py:226-227 | `get_sensor` binds an XML `getsensordetails` call with `sensorid` and `content` as extras |
| ObjectCache.Cache.constructor | prtg/cache.py:7-23 | the shelf is the stored shelf with the three buckets added only where absent |
| ObjectCache.SeededShelf | prtg/cache.py:9-23 | after seeding, all three buckets exist, every stored entry is unchanged, and the only new keys are empty buckets |
| ObjectCache.SeededIdempotent | prtg/cache.py:9-23 | opening the cache a second time changes nothing |
| ObjectCache.ContentTypesAreBuckets | prtg/cache.py:9-23 | every `content_type` a record class declares is the name of a seeded bucket |
| ObjectCache.Cache.WriteContent | prtg/cache.py:25-34 | the loop leaves the shelf, and the error of the first object without `objid`, as the write specification says |
| ObjectCache.ForcedWrite | prtg/cache.py:28-32 | a forced write of keyed objects is the old shelf overridden by the batch, with the last object of each id winning |
| ObjectCache.PoliteWrite | prtg/cache.py:28-34 | an unforced write adds only keys that were absent, with the first object of each id winning |
| ObjectCache.LastWinsKeys | prtg/cache.py:29-32 | the batch writes exactly the keys of its objects |
| ObjectCache.LastObjectWins | prtg/cache.py:29-32 | with `force`, the last object with a given id is the one stored |
| ObjectCache.FirstObjectWins | prtg/cache.py:29-32 | without `force`, the first object with a new id is the one stored |
| ObjectCache.WriteFrame | prtg/cache.py:26-34 | a key that is not the id of an object in the batch is left unchanged |
| ObjectCache.NoClobber | prtg/cache.py:29-34 | without `force`, an entry already present is left unchanged |
| ObjectCache.FirstUnkeyed | prtg/cache.py:29 | the first object without `objid`, if any |
| ObjectCache.WriteStops | prtg/cache.py:28-32 | a batch with an object lacking `objid` writes the objects before it and then raises AttributeError |
| ObjectCache.WriteIdempotent | prtg/cache.py:28-32 | repeating the same write leaves the shelf unchanged |
| ObjectCache.Cache.GetObject | prtg/cache.py:36-38 | returns the entry under the key, or KeyError when it is absent, and changes nothing |
| ObjectCache.Cache.GetContent | prtg/cache.py:40-48 | yields the stored objects whose `content_type` is `t`, one per matching key: the result is read from a list of distinct keys that holds every matching key and no other; buckets and objects without a `content_type` are skipped |

## Left out

- HTTP: `_build_request` and `urlopen` (prtg/client.py:181-194) are replaced by the `fetch` parameter, a function from URL to decoded body. `_build_request`'s `method=query.method` argument has no counterpart: `fetch` takes only the URL.
- JSON and XML decoding (prtg/client.py:162-168): the decoded body is abstract. There are four cases:
  - falsy: `None`, a falsy JSON value (null, false, 0, an empty string, list or object), or an XML element without children;
  - a JSON object with `sensors` rows and a `treesize`;
  - a JSON object without `sensors`, whose indexing raises KeyError;
  - any other truthy value, whose indexing by a string raises TypeError. This covers a JSON list, string or number, and an XML element with children.
- An object that has `sensors` but lacks `treesize`, a `sensors` value that is not a list of objects, and a `treesize` that is not an int are not modelled.
- `PrtgClient.Client.RunQuery`: the `while not finished` loop has no bound in the source, so the model takes a round limit `maxRounds`. Reaching the limit is reported as a model-only `RoundLimit` error. `FinishesWithinTotal` states when the limit is never reached.
- `PrtgClient.Client.Collect`: carries the same round limit.
- Python `int()` of strings: underscores and non-ASCII digits are not accepted. Only ASCII white space is stripped.
- The `shelve` file, the file path and `logging` (prtg/cache.py): the shelf is an in-memory map. The cache path is kept as a field that nothing reads.
- `ObjectCache.Cache.GetContent`: a shelf's iteration order is unspecified, so the order of the results is left open. The result is computed eagerly, not as a lazy generator.
- `__str__` (prtg/client.py:146-147, prtg/models.py:189-190) only delegates to `get_url`.
- `NameMatch` and `Rule` (prtg/models.py:108-121) depend on the `re` regex engine.
- Exception classes become error values. Only the BadTarget message `Invalid API target: ...` is kept. The UnknownResponse message carries the raw response text (prtg/client.py:179), and the model has no raw text, so that message is dropped.
- `str()` of a value follows Python for None, booleans, ints and strings. A list of strings is written with every item in single quotes and nothing escaped. Python writes each item with `repr`, which switches to double quotes for an item that contains `'` and escapes backslashes and control characters. Other values are not modelled.

Where the behaviour of the code differs from what a reader might expect, the model follows the code:

- In `prtg/models.py`, `tags` of `""` splits to `[""]`, not `[]`.
- `prtg/client.py`'s `get_url` never sends `count`, so the page size is whatever the server returns.
- `make_request` always returns None, because `_process_response` without pagination returns nothing. A query that does not paginate therefore never returns records.
- `test/test_query.py` imports `Status` from `prtg.client`, which does not define it. `models.Query` also reads `client.endpoint`, which this `Client` lacks. The tests were written against another version of the client.
