/** Writing and reading a step configuration by dotted path, as the step
    configuration form does: a field's path, the write its change handler
    makes (creating missing levels on the way down), and the read its
    renderer makes. A configuration is a JSON object, here a map from key to
    value; nested objects are `JObj` values. */
module ConfigPaths {
  import opened Outcomes
  import opened Text
  import opened WorkflowTypes

  type Config = map<string, Json>

  /** The object the write descends into under key `k`: the value there when
      it is truthy, otherwise a fresh empty object. */
  function Child(m: Config, k: string): (r: Json)
    ensures k in m && Truthy(m[k]) ==> r == m[k]
    ensures !(k in m && Truthy(m[k])) ==> r == JObj(map[])
  {
    if k in m && Truthy(m[k]) then m[k] else JObj(map[])
  }

  /** The configuration after writing `v` at the path `parts`, or `None`
      when the walk meets a truthy value that is not an object (writing a
      property onto a string, number or `true` throws in strict mode). */
  function SetPath(c: Config, parts: seq<string>, v: Json): (r: Option<Config>)
    requires |parts| >= 1
    ensures |parts| == 1 ==> r.Some?
    ensures r.Some? ==> r.value.Keys == c.Keys + {parts[0]}
    ensures r.Some? ==> forall k :: k in c && k != parts[0] ==> r.value[k] == c[k]
    decreases |parts|
  {
    if |parts| == 1 then Some(c[parts[0] := v])
    else
      var child := Child(c, parts[0]);
      if !child.JObj? then None
      else
        match SetPath(child.fields, parts[1..], v)
        case Some(m) => Some(c[parts[0] := JObj(m)])
        case None => None
  }

  /** The value at a path, following nested objects. */
  function GetPath(c: Config, parts: seq<string>): (r: Option<Json>)
    requires |parts| >= 1
    ensures parts[0] !in c ==> r.None?
    ensures |parts| == 1 && parts[0] in c ==> r == Some(c[parts[0]])
    decreases |parts|
  {
    if parts[0] !in c then None
    else if |parts| == 1 then Some(c[parts[0]])
    else if c[parts[0]].JObj? then GetPath(c[parts[0]].fields, parts[1..])
    else None
  }

  /** The nested objects a write into an empty configuration creates. */
  function Nest(parts: seq<string>, v: Json): (r: Config)
    requires |parts| >= 1
    ensures parts[0] in r && r.Keys == {parts[0]}
    decreases |parts|
  {
    if |parts| == 1 then map[parts[0] := v]
    else map[parts[0] := JObj(Nest(parts[1..], v))]
  }

  /** `handleFieldChange`: split the path on '.', walk down all but the last
      segment (replacing a falsy or missing level by `{}`), assign the value
      under the last segment, and hand back the new configuration. The walk
      records every level it passes; the new configuration is rebuilt from
      the bottom up, so the old one is not changed. */
  method HandleFieldChange(config: Config, path: string, v: Json) returns (r: Option<Config>)
    ensures r == SetPath(config, Split(path, '.'), v)
  {
    var parts := Split(path, '.');
    var levels: seq<Config> := [config];
    var i := 0;
    var failed := false;
    while i < |parts| - 1 && !failed
      invariant 0 <= i <= |parts| - 1
      invariant |levels| == i + 1 && levels[0] == config
      invariant forall j :: 0 <= j < i ==> Child(levels[j], parts[j]) == JObj(levels[j + 1])
      invariant failed ==> !Child(levels[i], parts[i]).JObj? && i < |parts| - 1
      decreases |parts| - i, if failed then 0 else 1
    {
      var next := Child(levels[i], parts[i]);
      if next.JObj? {
        levels := levels + [next.fields];
        i := i + 1;
      } else {
        failed := true;
      }
    }
    var acc: Option<Config>;
    if failed {
      acc := None;
    } else {
      acc := Some(levels[i][parts[i] := v]);
    }
    assert acc == SetPath(levels[i], parts[i..], v);
    var j := i;
    while j > 0
      invariant 0 <= j <= i
      invariant acc == SetPath(levels[j], parts[j..], v)
    {
      j := j - 1;
      assert parts[j..][0] == parts[j] && parts[j..][1..] == parts[j + 1..];
      assert Child(levels[j], parts[j]) == JObj(levels[j + 1]);
      SetPathStep(levels[j], parts[j..], v);
      if acc.Some? {
        acc := Some(levels[j][parts[j] := JObj(acc.value)]);
      }
    }
    assert parts[0..] == parts;
    r := acc;
  }

  /** One level of a write: through an object child, the write below is
      wrapped back under its key. */
  lemma SetPathStep(c: Config, parts: seq<string>, v: Json)
    requires |parts| >= 2 && Child(c, parts[0]).JObj?
    ensures SetPath(c, parts, v) ==
      match SetPath(Child(c, parts[0]).fields, parts[1..], v)
      case Some(m) => Some(c[parts[0] := JObj(m)])
      case None => None
  {
  }

  /** Reading back along the path a write succeeded on gives the value
      written. */
  lemma {:induction false} GetAfterSet(c: Config, parts: seq<string>, v: Json)
    requires |parts| >= 1 && SetPath(c, parts, v).Some?
    ensures GetPath(SetPath(c, parts, v).value, parts) == Some(v)
    decreases |parts|
  {
    if |parts| > 1 {
      GetAfterSet(Child(c, parts[0]).fields, parts[1..], v);
    }
  }

  /** At the top level a write adds or replaces the first key and keeps
      every other key and its value. */
  lemma SetPathTopLevel(c: Config, parts: seq<string>, v: Json)
    requires |parts| >= 1 && SetPath(c, parts, v).Some?
    ensures SetPath(c, parts, v).value.Keys == c.Keys + {parts[0]}
    ensures forall k :: k in c && k != parts[0] ==> SetPath(c, parts, v).value[k] == c[k]
  {
  }

  /** A one-segment path sets just that top-level key. */
  lemma SetSingleSegment(c: Config, k: string, v: Json)
    ensures SetPath(c, [k], v) == Some(c[k := v])
  {
  }

  /** Two paths part ways at position `k`: they agree before it and differ
      at it. */
  predicate PartAt(p: seq<string>, q: seq<string>, k: nat) {
    k < |p| && k < |q| && p[..k] == q[..k] && p[k] != q[k]
  }

  /** Every path that parts ways with the written one, at whatever depth,
      reads the same before and after the write. */
  lemma {:induction false} SetPathKeepsOffPath(c: Config, parts: seq<string>, v: Json, q: seq<string>, k: nat)
    requires |parts| >= 1 && |q| >= 1 && SetPath(c, parts, v).Some? && PartAt(parts, q, k)
    ensures GetPath(SetPath(c, parts, v).value, q) == GetPath(c, q)
    decreases |parts|
  {
    if k > 0 {
      assert parts[0] == q[0] by { assert parts[..k][0] == q[..k][0]; }
      assert PartAt(parts[1..], q[1..], k - 1) by {
        assert parts[1..][..k - 1] == parts[..k][1..];
        assert q[1..][..k - 1] == q[..k][1..];
      }
      var child := Child(c, parts[0]);
      SetPathKeepsOffPath(child.fields, parts[1..], v, q[1..], k - 1);
      if !(parts[0] in c && Truthy(c[parts[0]])) && parts[0] in c && |q| > 1 {
        // the old value was falsy, so not an object: nothing was readable
        // below it, and the fresh object has nothing under q[1..] either
        EmptyHasNothing(parts[1..], v, q[1..], k - 1);
      }
    }
  }

  lemma {:induction false} EmptyHasNothing(parts: seq<string>, v: Json, q: seq<string>, k: nat)
    requires |parts| >= 1 && |q| >= 1 && PartAt(parts, q, k)
    ensures SetPath(map[], parts, v) == Some(Nest(parts, v))
    ensures GetPath(Nest(parts, v), q) == None
    decreases |parts|
  {
    if |parts| > 1 {
      if k > 0 {
        assert parts[0] == q[0] by { assert parts[..k][0] == q[..k][0]; }
        assert PartAt(parts[1..], q[1..], k - 1) by {
          assert parts[1..][..k - 1] == parts[..k][1..];
          assert q[1..][..k - 1] == q[..k][1..];
        }
        EmptyHasNothing(parts[1..], v, q[1..], k - 1);
      } else {
        NestFromEmpty(parts[1..], v);
      }
    }
  }

  /** Writing into an empty configuration creates exactly the nested
      levels of the path. */
  lemma {:induction false} NestFromEmpty(parts: seq<string>, v: Json)
    requires |parts| >= 1
    ensures SetPath(map[], parts, v) == Some(Nest(parts, v))
    decreases |parts|
  {
    if |parts| > 1 {
      NestFromEmpty(parts[1..], v);
    }
  }

  /** A missing or falsy level is replaced by a new object holding just the
      rest of the path. */
  lemma CreatesMissingLevels(c: Config, parts: seq<string>, v: Json)
    requires |parts| >= 2 && !(parts[0] in c && Truthy(c[parts[0]]))
    ensures SetPath(c, parts, v) == Some(c[parts[0] := JObj(Nest(parts[1..], v))])
  {
    NestFromEmpty(parts[1..], v);
  }

  /** The write fails exactly when the level under the first key is a
      truthy non-object, or the write below it fails. */
  lemma SetPathFailsOnPrimitive(c: Config, parts: seq<string>, v: Json)
    requires |parts| >= 2 && parts[0] in c && Truthy(c[parts[0]]) && !c[parts[0]].JObj?
    ensures SetPath(c, parts, v) == None
  {
  }

  /** The path of a field: `key` at the top level, `parent.key` below it. */
  function FieldPath(parent: string, key: string): (r: string)
    ensures parent == "" ==> r == key
    ensures parent != "" ==> r == parent + "." + key
  {
    if parent == "" then key else parent + "." + key
  }

  /** A field path splits into its parent's segments followed by the key. */
  lemma FieldPathSegments(parent: string, key: string)
    requires '.' !in key
    ensures parent == "" ==> Split(FieldPath(parent, key), '.') == [key]
    ensures parent != "" ==> Split(FieldPath(parent, key), '.') == Split(parent, '.') + [key]
  {
    if parent == "" {
      SplitJoin([key], '.');
    } else {
      var ps := Split(parent, '.');
      JoinSplit(parent, '.');
      JoinAppend(ps, key, ".");
      SplitJoin(ps + [key], '.');
    }
  }

  // ---- reading a field's value ----

  /** The renderer's read, as written: at the top level the key itself, below
      it the key inside the value stored under the whole parent path taken as
      one literal key. */
  function ReadAsWritten(c: Config, parent: string, key: string): (r: Option<Json>)
    ensures parent == "" ==> r == (if key in c then Some(c[key]) else None)
  {
    if parent == "" then (if key in c then Some(c[key]) else None)
    else if parent in c && c[parent].JObj? && key in c[parent].fields then Some(c[parent].fields[key])
    else None
  }

  /** The read that agrees with the write: follow the field's whole path. */
  function ReadField(c: Config, parent: string, key: string): Option<Json> {
    GetPath(c, Split(FieldPath(parent, key), '.'))
  }

  /** A value the form writes for a field is what the corrected read shows
      for it. */
  lemma ReadFieldAfterWrite(c: Config, parent: string, key: string, v: Json)
    requires SetPath(c, Split(FieldPath(parent, key), '.'), v).Some?
    ensures ReadField(SetPath(c, Split(FieldPath(parent, key), '.'), v).value, parent, key) == Some(v)
  {
    GetAfterSet(c, Split(FieldPath(parent, key), '.'), v);
  }

  /** The two reads agree for fields at most one level deep. */
  lemma ReadsAgreeShallow(c: Config, parent: string, key: string)
    requires '.' !in parent && '.' !in key
    ensures ReadAsWritten(c, parent, key) == ReadField(c, parent, key)
  {
    FieldPathSegments(parent, key);
    if parent != "" {
      assert Split(parent, '.') == [parent] by { SplitJoin([parent], '.'); }
      assert [parent] + [key] == [parent, key];
      assert ReadField(c, parent, key) == GetPath(c, [parent, key]);
      if parent in c && c[parent].JObj? {
        assert [parent, key][1..] == [key];
        assert GetPath(c, [parent, key]) == GetPath(c[parent].fields, [key]);
      }
    }
  }

  /** Two levels down they part: after the form writes 1 for field `c` under
      parent `a.b`, the as-written read finds nothing there. */
  lemma DeepReadMissesWrite()
    ensures SetPath(map[], Split(FieldPath("a.b", "c"), '.'), JNum(1)).Some?
    ensures ReadField(SetPath(map[], Split(FieldPath("a.b", "c"), '.'), JNum(1)).value, "a.b", "c") == Some(JNum(1))
    ensures ReadAsWritten(SetPath(map[], Split(FieldPath("a.b", "c"), '.'), JNum(1)).value, "a.b", "c") == None
  {
    var parts := Split(FieldPath("a.b", "c"), '.');
    assert parts == ["a", "b", "c"] by {
      FieldPathSegments("a.b", "c");
      SplitJoin(["a", "b"], '.');
      assert Join(["a", "b"], ".") == "a.b";
    }
    NestFromEmpty(parts, JNum(1));
    GetAfterSet(map[], parts, JNum(1));
  }
}
