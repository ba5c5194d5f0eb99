/**
 * Python values as they occur in server field maps and keyword arguments,
 * their truthiness and their `str()` text, the exceptions the client
 * raises, and insertion-ordered dictionaries with the `k=v&...` rendering
 * both query classes use for their extra parameters.
 */
module PyValues {
  import opened Outcomes
  import opened Text

  /** The kinds of value a field map or a keyword argument holds. */
  datatype Value =
    | PyNone
    | PyBool(b: bool)
    | PyInt(i: int)
    | PyStr(s: string)
    | PyList(items: seq<string>)

  /** The exceptions of the client, and the one the model adds for a cut-off loop. */
  datatype Error =
    | BadTarget(message: string)
    | UnknownResponse
    | KeyError(key: string)
    | AttributeError(name: string)
    | TypeError
    | ValueError
    | RoundLimit

  /** Python truthiness. */
  predicate Truthy(v: Value)
  {
    match v
    case PyNone => false
    case PyBool(b) => b
    case PyInt(i) => i != 0
    case PyStr(s) => s != ""
    case PyList(xs) => xs != []
  }

  function Quoted(s: string): string
  {
    "'" + s + "'"
  }

  function ListText(xs: seq<string>): string
  {
    if |xs| == 0 then ""
    else if |xs| == 1 then Quoted(xs[0])
    else Quoted(xs[0]) + ", " + ListText(xs[1..])
  }

  /** `str(v)`, which is also what `'{}'.format(v)` renders. */
  function Str(v: Value): string
  {
    match v
    case PyNone => "None"
    case PyBool(b) => if b then "True" else "False"
    case PyInt(i) => IntToString(i)
    case PyStr(s) => s
    case PyList(xs) => "[" + ListText(xs) + "]"
  }

  /** `int(v)`: a number, or the exception Python raises. */
  function ToInt(v: Value): (r: Result<int, Error>)
    ensures v.PyInt? ==> r == Ok(v.i)
    ensures r.Err? ==> r.error == TypeError || r.error == ValueError
  {
    match v
    case PyNone => Err(TypeError)
    case PyBool(b) => Ok(if b then 1 else 0)
    case PyInt(i) => Ok(i)
    case PyStr(s) =>
      (match ParseInt(s)
       case Some(n) => Ok(n)
       case None => Err(ValueError))
    case PyList(_) => Err(TypeError)
  }

  /** `int(str(i)) == i`: the text of an int converts back to it. */
  lemma IntOfItsText(i: int)
    ensures ToInt(PyStr(Str(PyInt(i)))) == Ok(i)
  {
    IntTextRoundTrip(i);
  }

  // ---- insertion-ordered dictionaries ----

  /** A Python dict with string keys, in insertion order. */
  type Dict = seq<(string, Value)>

  function KeysOf(d: Dict): seq<string>
  {
    seq(|d|, i requires 0 <= i < |d| => d[i].0)
  }

  lemma KeysOfAppend(a: Dict, b: Dict)
    ensures KeysOf(a + b) == KeysOf(a) + KeysOf(b)
  {
  }

  predicate UniqueKeys(d: Dict)
  {
    forall i, j :: 0 <= i < j < |d| ==> d[i].0 != d[j].0
  }

  /** `d.get(k)`. */
  function Get(d: Dict, k: string): Option<Value>
  {
    if |d| == 0 then None
    else if d[0].0 == k then Some(d[0].1)
    else Get(d[1..], k)
  }

  lemma {:induction false} GetFindsKeys(d: Dict, k: string)
    ensures Get(d, k).Some? <==> k in KeysOf(d)
  {
    if |d| > 0 {
      GetFindsKeys(d[1..], k);
      assert KeysOf(d) == [d[0].0] + KeysOf(d[1..]);
    }
  }

  lemma UniqueKeysCons(p: (string, Value), d: Dict)
    ensures UniqueKeys([p] + d) <==> UniqueKeys(d) && p.0 !in KeysOf(d)
  {
    var e := [p] + d;
    assert e[1..] == d;
    if UniqueKeys(e) {
      forall j | 0 <= j < |d| ensures KeysOf(d)[j] != p.0 {
        assert e[0].0 != e[j + 1].0;
      }
    }
    if UniqueKeys(d) && p.0 !in KeysOf(d) {
      forall i, j | 0 <= i < j < |e| ensures e[i].0 != e[j].0 {
        if i == 0 {
          assert KeysOf(d)[j - 1] == e[j].0;
        } else {
          assert e[i] == d[i - 1] && e[j] == d[j - 1];
        }
      }
    }
  }

  /** `d[k] = v`: an existing key keeps its place, a new one goes last. */
  function Put(d: Dict, k: string, v: Value): Dict
  {
    if |d| == 0 then [(k, v)]
    else if d[0].0 == k then [(k, v)] + d[1..]
    else [d[0]] + Put(d[1..], k, v)
  }

  /** After `d[k] = v`, `k` reads `v` and every other key reads what it read before. */
  lemma {:induction false} PutGet(d: Dict, k: string, v: Value)
    ensures Get(Put(d, k, v), k) == Some(v)
    ensures forall k' :: k' != k ==> Get(Put(d, k, v), k') == Get(d, k')
  {
    if |d| > 0 && d[0].0 != k {
      PutGet(d[1..], k, v);
      assert ([d[0]] + Put(d[1..], k, v))[1..] == Put(d[1..], k, v);
    } else if |d| > 0 {
      assert ([(k, v)] + d[1..])[1..] == d[1..];
    }
  }

  /** `d[k] = v` keeps the key order, adding `k` at the end when it is new. */
  lemma {:induction false} PutKeys(d: Dict, k: string, v: Value)
    ensures k in KeysOf(d) ==> KeysOf(Put(d, k, v)) == KeysOf(d)
    ensures k !in KeysOf(d) ==> KeysOf(Put(d, k, v)) == KeysOf(d) + [k]
  {
    if |d| > 0 {
      assert KeysOf(d) == [d[0].0] + KeysOf(d[1..]);
      if d[0].0 == k {
        assert KeysOf([(k, v)] + d[1..]) == [k] + KeysOf(d[1..]);
      } else {
        PutKeys(d[1..], k, v);
        assert KeysOf([d[0]] + Put(d[1..], k, v)) == [d[0].0] + KeysOf(Put(d[1..], k, v));
      }
    }
  }

  /** `d[k] = v` never duplicates a key. */
  lemma PutKeepsUnique(d: Dict, k: string, v: Value)
    requires UniqueKeys(d)
    ensures UniqueKeys(Put(d, k, v))
  {
    var r := Put(d, k, v);
    PutKeys(d, k, v);
    forall i, j | 0 <= i < j < |r| ensures r[i].0 != r[j].0 {
      assert r[i].0 == KeysOf(r)[i] && r[j].0 == KeysOf(r)[j];
      if k in KeysOf(d) {
        assert KeysOf(d)[i] == d[i].0 && KeysOf(d)[j] == d[j].0;
      } else if j < |d| {
        assert KeysOf(d)[i] == d[i].0 && KeysOf(d)[j] == d[j].0;
      } else {
        assert KeysOf(d)[i] == d[i].0;
      }
    }
  }

  /** Putting a new key appends it. */
  lemma {:induction false} PutAppends(d: Dict, k: string, v: Value)
    requires k !in KeysOf(d)
    ensures Put(d, k, v) == d + [(k, v)]
  {
    if |d| > 0 {
      assert KeysOf(d) == [d[0].0] + KeysOf(d[1..]);
      PutAppends(d[1..], k, v);
      assert [d[0]] + (d[1..] + [(k, v)]) == d + [(k, v)];
    }
  }

  /** `d.update(e)`: the entries of `e` put into `d` one by one. */
  function Update(d: Dict, e: Dict): Dict
    decreases |e|
  {
    if |e| == 0 then d else Update(Put(d, e[0].0, e[0].1), e[1..])
  }

  /** After `d.update(e)` a key of `e` reads its value in `e`, any other key its value in `d`. */
  lemma {:induction false} UpdateGet(d: Dict, e: Dict, k: string)
    requires UniqueKeys(e)
    ensures Get(Update(d, e), k) == if Get(e, k).Some? then Get(e, k) else Get(d, k)
    decreases |e|
  {
    if |e| > 0 {
      assert e == [e[0]] + e[1..];
      UniqueKeysCons(e[0], e[1..]);
      GetFindsKeys(e[1..], e[0].0);
      PutGet(d, e[0].0, e[0].1);
      UpdateGet(Put(d, e[0].0, e[0].1), e[1..], k);
    }
  }

  /** `d.update(e)` never duplicates a key. */
  lemma {:induction false} UpdateKeepsUnique(d: Dict, e: Dict)
    requires UniqueKeys(d)
    ensures UniqueKeys(Update(d, e))
    decreases |e|
  {
    if |e| > 0 {
      PutKeepsUnique(d, e[0].0, e[0].1);
      UpdateKeepsUnique(Put(d, e[0].0, e[0].1), e[1..]);
    }
  }

  /** Updating with entries whose keys are new and distinct appends them in order. */
  lemma {:induction false} UpdateAppends(d: Dict, e: Dict)
    requires UniqueKeys(e)
    requires forall i :: 0 <= i < |e| ==> e[i].0 !in KeysOf(d)
    ensures Update(d, e) == d + e
    decreases |e|
  {
    if |e| > 0 {
      PutAppends(d, e[0].0, e[0].1);
      var d' := d + [e[0]];
      assert KeysOf(d') == KeysOf(d) + [e[0].0];
      assert forall i :: 0 <= i < |e[1..]| ==> e[1..][i].0 !in KeysOf(d') by {
        forall i | 0 <= i < |e[1..]| ensures e[1..][i].0 !in KeysOf(d') {
          assert e[1..][i] == e[i + 1];
        }
      }
      UniqueKeysCons(e[0], e[1..]);
      assert [e[0]] + e[1..] == e;
      UpdateAppends(d', e[1..]);
      assert d' + e[1..] == d + e;
    }
  }

  /** The entries of `d` whose keys are not among `names`, in order. */
  function Without(d: Dict, names: seq<string>): Dict
  {
    if |d| == 0 then []
    else (if d[0].0 in names then [] else [d[0]]) + Without(d[1..], names)
  }

  lemma {:induction false} WithoutGet(d: Dict, names: seq<string>, k: string)
    ensures Get(Without(d, names), k) == if k in names then None else Get(d, k)
  {
    if |d| > 0 {
      WithoutGet(d[1..], names, k);
      if d[0].0 !in names {
        assert ([d[0]] + Without(d[1..], names))[1..] == Without(d[1..], names);
      } else {
        assert Without(d, names) == Without(d[1..], names);
      }
    }
  }

  lemma {:induction false} WithoutAppend(a: Dict, b: Dict, names: seq<string>)
    ensures Without(a + b, names) == Without(a, names) + Without(b, names)
  {
    if |a| > 0 {
      assert (a + b)[1..] == a[1..] + b;
      WithoutAppend(a[1..], b, names);
    } else {
      assert a + b == b;
    }
  }

  lemma {:induction false} GetAppend(a: Dict, b: Dict, k: string)
    ensures Get(a + b, k) == if Get(a, k).Some? then Get(a, k) else Get(b, k)
  {
    if |a| > 0 {
      assert (a + b)[1..] == a[1..] + b;
      GetAppend(a[1..], b, k);
    } else {
      assert a + b == b;
    }
  }

  /** The first entry, then the rest. */
  lemma WithoutCons(x: (string, Value), d: Dict, names: seq<string>)
    ensures Without([x] + d, names) == (if x.0 in names then [] else [x]) + Without(d, names)
  {
    assert ([x] + d)[1..] == d;
  }

  lemma GetCons(x: (string, Value), d: Dict, k: string)
    ensures Get([x] + d, k) == if x.0 == k then Some(x.1) else Get(d, k)
  {
    assert ([x] + d)[1..] == d;
  }

  // ---- the `&k=v` rendering of extra parameters ----

  function Pair(k: string, v: Value): string
  {
    k + "=" + Str(v)
  }

  /** `map('{}={}'.format, filter(truthy value, d.items()))`. */
  function ParamList(d: Dict): seq<string>
  {
    if |d| == 0 then []
    else (if Truthy(d[0].1) then [Pair(d[0].0, d[0].1)] else []) + ParamList(d[1..])
  }

  /**
   * What both `get_url` methods append for their extras: nothing for an
   * empty dict, and otherwise `&` followed by the truthy pairs joined by `&`.
   */
  function QueryString(d: Dict): string
  {
    if |d| == 0 then "" else "&" + JoinWith(ParamList(d), '&')
  }

  /** The rendering keeps order and drops the falsy entries: it distributes over concatenation. */
  lemma {:induction false} ParamListAppend(a: Dict, b: Dict)
    ensures ParamList(a + b) == ParamList(a) + ParamList(b)
  {
    if |a| > 0 {
      assert (a + b)[1..] == a[1..] + b;
      ParamListAppend(a[1..], b);
    } else {
      assert a + b == b;
    }
  }

  /** One entry renders as `k=v` when its value is truthy and as nothing otherwise. */
  lemma ParamListSingle(k: string, v: Value)
    ensures ParamList([(k, v)]) == if Truthy(v) then [k + "=" + Str(v)] else []
  {
  }

  /** No key and no value text contains `&`. */
  predicate AmpersandFree(d: Dict)
  {
    forall i :: 0 <= i < |d| ==> '&' !in d[i].0 && '&' !in Str(d[i].1)
  }

  lemma {:induction false} ParamListAmpersandFree(d: Dict)
    requires AmpersandFree(d)
    ensures forall i :: 0 <= i < |ParamList(d)| ==> '&' !in ParamList(d)[i]
  {
    if |d| > 0 {
      assert AmpersandFree(d[1..]) by {
        forall i | 0 <= i < |d[1..]| ensures '&' !in d[1..][i].0 && '&' !in Str(d[1..][i].1) {
          assert d[1..][i] == d[i + 1];
        }
      }
      ParamListAmpersandFree(d[1..]);
    }
  }

  /**
   * A server reading parameters by splitting on `&` recovers exactly the
   * head parameters followed by the truthy extras, in order, provided no
   * piece contains `&` and the extras are empty or hold a truthy value.
   */
  lemma ParametersRoundTrip(head: seq<string>, d: Dict)
    requires |head| >= 1
    requires forall i :: 0 <= i < |head| ==> '&' !in head[i]
    requires AmpersandFree(d)
    requires |d| == 0 || ParamList(d) != []
    ensures SplitOn(JoinWith(head, '&') + QueryString(d), '&') == head + ParamList(d)
  {
    ParamListAmpersandFree(d);
    if |d| == 0 {
      assert JoinWith(head, '&') + QueryString(d) == JoinWith(head, '&');
      JoinThenSplit(head, '&');
    } else {
      var ps := ParamList(d);
      assert QueryString(d) == ['&'] + JoinWith(ps, '&');
      SplitJoinedPieces(head, ps, '&');
    }
  }

  /** Extras that are all falsy still add a lone `&`. */
  lemma TrailingAmpersand(d: Dict)
    requires |d| > 0 && ParamList(d) == []
    ensures QueryString(d) == "&"
  {
  }
}
