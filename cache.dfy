/**
 * prtg/cache.py: a shelf of records keyed by the text of their `objid`,
 * seeded with the three content buckets. The shelf file is a map held in
 * a field; what it holds when a cache is created is a parameter.
 */
module ObjectCache {
  import opened Outcomes
  import opened PyValues
  import opened PrtgObjects

  /** A shelf entry: one of the seeded bucket dicts, or a stored record. */
  datatype Entry = Bucket(items: map<string, Obj>) | Stored(obj: Obj)

  type Shelf = map<string, Entry>

  const BucketNames: seq<string> := ["sensors", "devices", "status"]

  /** Every `content_type` a record class declares names one of the seeded buckets. */
  lemma ContentTypesAreBuckets(c: ClassName)
    requires ContentType(c).Some?
    ensures ContentType(c).value in BucketNames
  {
  }

  /** The shelf after `__init__`: each bucket that is absent becomes an empty dict. */
  function Seeded(s: Shelf): Shelf
  {
    map["sensors" := Bucket(map[]), "devices" := Bucket(map[]), "status" := Bucket(map[])] + s
  }

  /** Seeding adds the three buckets, keeps every existing entry, and adds nothing else. */
  lemma SeededShelf(s: Shelf, k: string)
    ensures forall b :: b in BucketNames ==> b in Seeded(s)
    ensures k in s ==> k in Seeded(s) && Seeded(s)[k] == s[k]
    ensures k in Seeded(s) && k !in s ==> k in BucketNames && Seeded(s)[k] == Bucket(map[])
  {
  }

  /** Seeding twice is seeding once. */
  lemma SeededIdempotent(s: Shelf)
    ensures Seeded(Seeded(s)) == Seeded(s)
  {
  }

  /** One step of `write_content`: store `o` under its key if the key is absent or `force` is set. */
  function WriteOne(s: Shelf, k: string, o: Obj, force: bool): Shelf
  {
    if k !in s || force then s[k := Stored(o)] else s
  }

  /**
   * `write_content(content, force)` on the shelf `s`: the objects are
   * written in order; one without an `objid` raises AttributeError, and
   * what was written before it stays written.
   */
  function Written(s: Shelf, content: seq<Obj>, force: bool): (Result<(), Error>, Shelf)
    decreases |content|
  {
    if |content| == 0 then (Ok(()), s)
    else
      match CacheKey(content[0])
      case Err(e) => (Err(e), s)
      case Ok(k) => Written(WriteOne(s, k, content[0], force), content[1..], force)
  }

  /** Every object has an `objid`. */
  predicate AllKeyed(content: seq<Obj>)
  {
    forall i :: 0 <= i < |content| ==> CacheKey(content[i]).Ok?
  }

  /** Does some object of `content` have the key `k`? */
  predicate HasKey(content: seq<Obj>, k: string)
  {
    exists i :: 0 <= i < |content| && CacheKey(content[i]) == Ok(k)
  }

  /** The batch as a map in which the last object with a key wins. */
  function LastWins(content: seq<Obj>): Shelf
    requires AllKeyed(content)
  {
    if |content| == 0 then map[]
    else map[CacheKey(content[0]).value := Stored(content[0])] + LastWins(content[1..])
  }

  /** The batch as a map in which the first object with a key wins. */
  function FirstWins(content: seq<Obj>): Shelf
    requires AllKeyed(content)
  {
    if |content| == 0 then map[]
    else FirstWins(content[1..])[CacheKey(content[0]).value := Stored(content[0])]
  }

  /** With `force`, the batch overrides the shelf and the last object with a key wins. */
  lemma {:induction false} ForcedWrite(s: Shelf, content: seq<Obj>)
    requires AllKeyed(content)
    ensures Written(s, content, true) == (Ok(()), s + LastWins(content))
    decreases |content|
  {
    if |content| > 0 {
      var k := CacheKey(content[0]).value;
      var v := Stored(content[0]);
      assert AllKeyed(content[1..]) by {
        forall i | 0 <= i < |content[1..]| ensures CacheKey(content[1..][i]).Ok? {
          assert content[1..][i] == content[i + 1];
        }
      }
      ForcedWrite(s[k := v], content[1..]);
      assert Written(s, content, true) == Written(s[k := v], content[1..], true);
      var rest := LastWins(content[1..]);
      assert LastWins(content) == map[k := v] + rest;
      assert s[k := v] + rest == s + (map[k := v] + rest);
    } else {
      assert s + map[] == s;
    }
  }

  /** Without `force`, the shelf keeps what it has and the first object with a new key wins. */
  lemma {:induction false} PoliteWrite(s: Shelf, content: seq<Obj>)
    requires AllKeyed(content)
    ensures Written(s, content, false) == (Ok(()), FirstWins(content) + s)
    decreases |content|
  {
    if |content| > 0 {
      var k := CacheKey(content[0]).value;
      var v := Stored(content[0]);
      var s' := WriteOne(s, k, content[0], false);
      assert AllKeyed(content[1..]) by {
        forall i | 0 <= i < |content[1..]| ensures CacheKey(content[1..][i]).Ok? {
          assert content[1..][i] == content[i + 1];
        }
      }
      PoliteWrite(s', content[1..]);
      assert Written(s, content, false) == Written(s', content[1..], false);
      var rest := FirstWins(content[1..]);
      assert FirstWins(content) == rest[k := v];
      assert rest + s' == rest[k := v] + s;
    } else {
      assert map[] + s == s;
    }
  }

  /** `LastWins` holds, under each key, the last object with that key. */
  lemma {:induction false} LastWinsAt(content: seq<Obj>, j: int)
    requires AllKeyed(content) && 0 <= j < |content|
    requires forall i :: j < i < |content| ==> CacheKey(content[i]) != CacheKey(content[j])
    ensures CacheKey(content[j]).value in LastWins(content)
    ensures LastWins(content)[CacheKey(content[j]).value] == Stored(content[j])
    decreases |content|
  {
    if j > 0 {
      LastWinsAt(content[1..], j - 1);
    } else {
      LastWinsKeys(content[1..], CacheKey(content[0]).value);
    }
  }

  /** The keys of `LastWins` and of `FirstWins` are the keys of the batch. */
  lemma {:induction false} LastWinsKeys(content: seq<Obj>, k: string)
    requires AllKeyed(content)
    ensures k in LastWins(content) <==> HasKey(content, k)
    ensures k in FirstWins(content) <==> HasKey(content, k)
    decreases |content|
  {
    if |content| > 0 {
      LastWinsKeys(content[1..], k);
      if HasKey(content[1..], k) {
        var i :| 0 <= i < |content[1..]| && CacheKey(content[1..][i]) == Ok(k);
        assert CacheKey(content[i + 1]) == Ok(k);
      }
      if HasKey(content, k) && CacheKey(content[0]) != Ok(k) {
        var i :| 0 <= i < |content| && CacheKey(content[i]) == Ok(k);
        assert CacheKey(content[1..][i - 1]) == Ok(k);
      }
    }
  }

  /** `FirstWins` holds, under each key, the first object with that key. */
  lemma {:induction false} FirstWinsAt(content: seq<Obj>, j: int)
    requires AllKeyed(content) && 0 <= j < |content|
    requires forall i :: 0 <= i < j ==> CacheKey(content[i]) != CacheKey(content[j])
    ensures CacheKey(content[j]).value in FirstWins(content)
    ensures FirstWins(content)[CacheKey(content[j]).value] == Stored(content[j])
    decreases |content|
  {
    if j > 0 {
      FirstWinsAt(content[1..], j - 1);
    }
  }

  /** After a forced write, each key of the batch holds the last object with that key. */
  lemma LastObjectWins(s: Shelf, content: seq<Obj>, j: int)
    requires AllKeyed(content) && 0 <= j < |content|
    requires forall i :: j < i < |content| ==> CacheKey(content[i]) != CacheKey(content[j])
    ensures var s' := Written(s, content, true).1;
      CacheKey(content[j]).value in s' && s'[CacheKey(content[j]).value] == Stored(content[j])
  {
    ForcedWrite(s, content);
    LastWinsAt(content, j);
  }

  /** After a write without `force`, a key new to the shelf holds the first object with that key. */
  lemma FirstObjectWins(s: Shelf, content: seq<Obj>, j: int)
    requires AllKeyed(content) && 0 <= j < |content| && CacheKey(content[j]).value !in s
    requires forall i :: 0 <= i < j ==> CacheKey(content[i]) != CacheKey(content[j])
    ensures var s' := Written(s, content, false).1;
      CacheKey(content[j]).value in s' && s'[CacheKey(content[j]).value] == Stored(content[j])
  {
    PoliteWrite(s, content);
    FirstWinsAt(content, j);
  }

  /** Keys of no object in the batch are untouched, whether or not the write fails. */
  lemma {:induction false} WriteFrame(s: Shelf, content: seq<Obj>, force: bool, k: string)
    requires !HasKey(content, k)
    ensures var s' := Written(s, content, force).1;
      (k in s' <==> k in s) && (k in s ==> s'[k] == s[k])
    decreases |content|
  {
    if |content| > 0 && CacheKey(content[0]).Ok? {
      var k0 := CacheKey(content[0]).value;
      assert k0 != k;
      assert !HasKey(content[1..], k) by {
        forall i | 0 <= i < |content[1..]| ensures CacheKey(content[1..][i]) != Ok(k) {
          assert content[1..][i] == content[i + 1];
        }
      }
      WriteFrame(WriteOne(s, k0, content[0], force), content[1..], force, k);
    }
  }

  /** Without `force`, nothing already on the shelf is overwritten, whether or not the write fails. */
  lemma {:induction false} NoClobber(s: Shelf, content: seq<Obj>, k: string)
    requires k in s
    ensures k in Written(s, content, false).1 && Written(s, content, false).1[k] == s[k]
    decreases |content|
  {
    if |content| > 0 && CacheKey(content[0]).Ok? {
      NoClobber(WriteOne(s, CacheKey(content[0]).value, content[0], false), content[1..], k);
    }
  }

  /** The index of the first object without an `objid`, or the length of the batch. */
  function FirstUnkeyed(content: seq<Obj>): (n: nat)
    ensures n <= |content| && AllKeyed(content[..n])
    ensures n < |content| <==> !AllKeyed(content)
    ensures n < |content| ==> CacheKey(content[n]).Err?
  {
    if |content| == 0 then 0
    else if CacheKey(content[0]).Err? then 0
    else
      var n := 1 + FirstUnkeyed(content[1..]);
      assert content[..n] == [content[0]] + content[1..][..n - 1];
      n
  }

  /** A write stops at the first object without an `objid`, with everything before it written. */
  lemma {:induction false} WriteStops(s: Shelf, content: seq<Obj>, force: bool)
    ensures var n := FirstUnkeyed(content);
      Written(s, content, force)
        == (if n < |content| then Err(AttributeError("objid")) else Ok(()), Written(s, content[..n], force).1)
    decreases |content|
  {
    if |content| > 0 && CacheKey(content[0]).Ok? {
      var k := CacheKey(content[0]).value;
      var n := FirstUnkeyed(content);
      WriteStops(WriteOne(s, k, content[0], force), content[1..], force);
      assert content[..n][0] == content[0] && content[..n][1..] == content[1..][..n - 1];
    } else if |content| > 0 {
      assert content[..0] == [];
    } else {
    }
  }

  /** Writing the same batch again, with or without `force`, leaves the shelf as the first write left it. */
  lemma WriteIdempotent(s: Shelf, content: seq<Obj>, force: bool)
    ensures var (r, s1) := Written(s, content, force);
      Written(s1, content, force) == (r, s1)
  {
    var n := FirstUnkeyed(content);
    var pre := content[..n];
    WriteStops(s, content, force);
    var s1 := Written(s, content, force).1;
    WriteStops(s1, content, force);
    if force {
      ForcedWrite(s, pre);
      ForcedWrite(s1, pre);
      assert s1 + LastWins(pre) == s1;
    } else {
      PoliteWrite(s, pre);
      PoliteWrite(s1, pre);
      assert FirstWins(pre) + s1 == s1 by {
        forall k | k in FirstWins(pre) ensures k in s1 {
          LastWinsKeys(pre, k);
        }
      }
    }
  }

  /** A stored record that declares `content_type` `t`: what `get_content(t)` yields. */
  predicate Matches(s: Shelf, k: string, t: string)
  {
    k in s && s[k].Stored? && ContentType(s[k].obj.cls) == Some(t)
  }

  /** The keys whose records `get_content(t)` yields. */
  function MatchingKeys(s: Shelf, t: string): set<string>
  {
    set k | k in s && Matches(s, k, t)
  }

  /** A list without repeats has as many elements as the set of its elements. */
  lemma {:induction false} DistinctCount(keys: seq<string>)
    requires forall i, j :: 0 <= i < j < |keys| ==> keys[i] != keys[j]
    ensures |set k | k in keys| == |keys|
  {
    if |keys| > 0 {
      var init := keys[..|keys| - 1];
      DistinctCount(init);
      assert (set k | k in keys) == (set k | k in init) + {keys[|keys| - 1]};
    }
  }

  class Cache {
    const cachePath: string
    var shelf: Shelf

    /**
     * `Cache(cache_path)` over a shelf holding `stored`: each bucket key
     * that is absent is set to an empty dict.
     */
    constructor (stored: Shelf, cachePath: string := "/tmp/prtg.cache")
      ensures this.cachePath == cachePath && shelf == Seeded(stored)
    {
      this.cachePath := cachePath;
      shelf := stored;
      new;
      if "sensors" !in shelf {
        shelf := shelf["sensors" := Bucket(map[])];
      }
      if "devices" !in shelf {
        shelf := shelf["devices" := Bucket(map[])];
      }
      if "status" !in shelf {
        shelf := shelf["status" := Bucket(map[])];
      }
    }

    /** `write_content(content, force)`, object by object. */
    method WriteContent(content: seq<Obj>, force: bool := false) returns (r: Result<(), Error>)
      modifies this`shelf
      ensures (r, shelf) == Written(old(shelf), content, force)
    {
      var i := 0;
      while i < |content|
        invariant 0 <= i <= |content|
        invariant Written(old(shelf), content, force) == Written(shelf, content[i..], force)
      {
        assert content[i..][1..] == content[i + 1..];
        var key := CacheKey(content[i]);
        if key.Err? {
          return Err(key.error);
        }
        if key.value !in shelf || force {
          shelf := shelf[key.value := Stored(content[i])];
        }
        i := i + 1;
      }
      r := Ok(());
    }

    /** `get_object(objectid)`: the entry under that key, or KeyError. */
    method GetObject(objectid: string) returns (r: Result<Entry, Error>)
      ensures objectid in shelf ==> r == Ok(shelf[objectid])
      ensures objectid !in shelf ==> r == Err(KeyError(objectid))
    {
      if objectid !in shelf {
        return Err(KeyError(objectid));
      }
      r := Ok(shelf[objectid]);
    }

    /**
     * `get_content(content_type)`: every stored record whose
     * `content_type` equals the argument, once per key, in an unspecified
     * order; entries without `content_type` (the buckets, and records of
     * the prtg/client.py classes) are skipped. `keys` are the keys the
     * records were read from, one per record, each matching key once.
     */
    method GetContent(t: string) returns (r: seq<Obj>, ghost keys: seq<string>)
      ensures |keys| == |r|
      ensures forall i :: 0 <= i < |keys| ==> Matches(shelf, keys[i], t) && r[i] == shelf[keys[i]].obj
      ensures forall i, j :: 0 <= i < j < |keys| ==> keys[i] != keys[j]
      ensures forall k :: Matches(shelf, k, t) ==> k in keys
      ensures forall o :: o in r <==> exists k :: Matches(shelf, k, t) && shelf[k].obj == o
      ensures |r| == |MatchingKeys(shelf, t)|
    {
      r, keys := [], [];
      var rest := shelf.Keys;
      ghost var done: set<string> := {};
      while rest != {}
        invariant rest <= shelf.Keys && done == shelf.Keys - rest
        invariant |keys| == |r|
        invariant forall i :: 0 <= i < |keys| ==> keys[i] in done && Matches(shelf, keys[i], t) && r[i] == shelf[keys[i]].obj
        invariant forall i, j :: 0 <= i < j < |keys| ==> keys[i] != keys[j]
        invariant forall k :: k in done && Matches(shelf, k, t) ==> k in keys
        decreases rest
      {
        var k :| k in rest;
        var value := shelf[k];
        if value.Stored? && ContentType(value.obj.cls) == Some(t) {
          r := r + [value.obj];
          keys := keys + [k];
        }
        rest := rest - {k};
        done := done + {k};
      }
      assert MatchingKeys(shelf, t) == set k | k in keys;
      DistinctCount(keys);
      forall o ensures o in r <==> exists k :: Matches(shelf, k, t) && shelf[k].obj == o {
        if o in r {
          var i :| 0 <= i < |r| && r[i] == o;
          assert Matches(shelf, keys[i], t) && shelf[keys[i]].obj == o;
        }
        if exists k :: Matches(shelf, k, t) && shelf[k].obj == o {
          var k :| Matches(shelf, k, t) && shelf[k].obj == o;
          var i :| 0 <= i < |keys| && keys[i] == k;
          assert r[i] == o;
        }
      }
    }
  }
}
