/**
 * The per-item key remap of `getProducts`: every raw item from the
 * datastore has its vendor field ids renamed to the display ids the field
 * map gives, one key at a time over a snapshot of the item's keys.
 */
module FieldRemap {
  import opened Products

  predicate Distinct(keys: seq<string>)
  {
    forall i, j :: 0 <= i < j < |keys| ==> keys[i] != keys[j]
  }

  /** A raw item as the datastore returns it: its own property names in the
      order `Object.keys` lists them, and the property values. */
  datatype RawObject = RawObject(keys: seq<string>, props: map<string, Value>)

  /** `Object.keys` lists every own property of the object exactly once. */
  type RawItem = o: RawObject | Distinct(o.keys) && (forall k :: k in o.props <==> k in o.keys)
    witness RawObject([], map[])

  /** Keys still to be visited: no repeats, and each one is a property. */
  predicate Pending(keys: seq<string>, props: map<string, Value>)
  {
    Distinct(keys) && forall k :: k in keys ==> k in props
  }

  /** One call of the `forEach` callback for `field`: a field the map knows is
      copied under its display id and then deleted (so a display id equal to
      the field itself deletes it); any other field is left as it is, the
      `return field` of that branch only ending the callback. */
  function Step(props: map<string, Value>, field: string, fields: map<string, string>): (r: map<string, Value>)
    requires field in props
  {
    if field in fields then props[fields[field] := props[field]] - {field} else props
  }

  /** The properties after the callback has run for each key of `keys`, first
      to last. */
  function Remapped(keys: seq<string>, props: map<string, Value>, fields: map<string, string>): (r: map<string, Value>)
    requires Pending(keys, props)
    decreases |keys|
  {
    if keys == [] then props
    else
      PendingTail(keys, props, fields);
      Remapped(keys[1..], Step(props, keys[0], fields), fields)
  }

  lemma PendingTail(keys: seq<string>, props: map<string, Value>, fields: map<string, string>)
    requires Pending(keys, props) && keys != []
    ensures Pending(keys[1..], Step(props, keys[0], fields))
  {
  }

  /** The display ids the callback writes for the keys of `keys`. */
  function DisplayIds(keys: seq<string>, fields: map<string, string>): (r: set<string>)
  {
    if keys == [] then {}
    else (if keys[0] in fields then {fields[keys[0]]} else {}) + DisplayIds(keys[1..], fields)
  }

  lemma {:induction false} DisplayIdsMember(keys: seq<string>, fields: map<string, string>, d: string)
    ensures d in DisplayIds(keys, fields) <==>
            exists j :: 0 <= j < |keys| && keys[j] in fields && fields[keys[j]] == d
  {
    if keys != [] {
      DisplayIdsMember(keys[1..], fields, d);
      if d in DisplayIds(keys[1..], fields) {
        var j :| 0 <= j < |keys[1..]| && keys[1..][j] in fields && fields[keys[1..][j]] == d;
        assert keys[j + 1] == keys[1..][j];
      }
      if exists j :: 0 <= j < |keys| && keys[j] in fields && fields[keys[j]] == d {
        var j :| 0 <= j < |keys| && keys[j] in fields && fields[keys[j]] == d;
        if j > 0 {
          assert keys[1..][j - 1] == keys[j];
        }
      }
    }
  }

  /** A property that no visited key deletes and no display id overwrites
      comes through with its value, and one that was absent stays absent. */
  lemma {:induction false} RemappedUntouched(keys: seq<string>, props: map<string, Value>,
                                             fields: map<string, string>, d: string)
    requires Pending(keys, props)
    requires !(d in keys && d in fields) && d !in DisplayIds(keys, fields)
    ensures d in Remapped(keys, props, fields) <==> d in props
    ensures d in props ==> Remapped(keys, props, fields)[d] == props[d]
  {
    if keys != [] {
      PendingTail(keys, props, fields);
      var next := Step(props, keys[0], fields);
      assert d in next <==> d in props;
      RemappedUntouched(keys[1..], next, fields, d);
    }
  }

  /** The remap invents nothing: every resulting property is a display id
      written for some key, or an original property whose key was not both
      visited and mapped. */
  lemma {:induction false} RemappedKeys(keys: seq<string>, props: map<string, Value>,
                                        fields: map<string, string>, d: string)
    requires Pending(keys, props)
    requires d in Remapped(keys, props, fields)
    ensures d in DisplayIds(keys, fields) || (d in props && !(d in keys && d in fields))
  {
    if keys != [] {
      PendingTail(keys, props, fields);
      var next := Step(props, keys[0], fields);
      RemappedKeys(keys[1..], next, fields, d);
    }
  }

  /** Display ids are pairwise distinct and none is an original property. */
  predicate NoCollision(keys: seq<string>, props: map<string, Value>, fields: map<string, string>)
  {
    (forall i, j :: 0 <= i < j < |keys| && keys[i] in fields && keys[j] in fields ==>
       fields[keys[i]] != fields[keys[j]]) &&
    (forall i :: 0 <= i < |keys| && keys[i] in fields ==> fields[keys[i]] !in props)
  }

  /** Without collisions a mapped key is gone and its value sits under its
      display id. */
  lemma {:induction false} RemappedMoves(keys: seq<string>, props: map<string, Value>,
                                         fields: map<string, string>, i: nat)
    requires Pending(keys, props) && NoCollision(keys, props, fields)
    requires i < |keys| && keys[i] in fields
    ensures fields[keys[i]] in Remapped(keys, props, fields)
    ensures Remapped(keys, props, fields)[fields[keys[i]]] == props[keys[i]]
    ensures keys[i] !in Remapped(keys, props, fields)
  {
    PendingTail(keys, props, fields);
    var next := Step(props, keys[0], fields);
    if i == 0 {
      var d := fields[keys[0]];
      DisplayIdsMember(keys[1..], fields, d);
      RemappedUntouched(keys[1..], next, fields, d);
      DisplayIdsMember(keys[1..], fields, keys[0]);
      RemappedUntouched(keys[1..], next, fields, keys[0]);
    } else {
      var rest := keys[1..];
      assert forall j :: 0 <= j < |rest| ==> rest[j] == keys[j + 1];
      assert NoCollision(rest, next, fields);
      assert rest[i - 1] == keys[i];
      RemappedMoves(rest, next, fields, i - 1);
    }
  }

  /** A key whose display id is the key itself is deleted, unless a later key
      writes that name again: the outcome depends on the key order. */
  lemma {:induction false} SelfMappedKeyDeleted(keys: seq<string>, props: map<string, Value>,
                                                fields: map<string, string>, i: nat)
    requires Pending(keys, props)
    requires i < |keys| && keys[i] in fields && fields[keys[i]] == keys[i]
    requires keys[i] !in DisplayIds(keys[i + 1..], fields)
    ensures keys[i] !in Remapped(keys, props, fields)
  {
    PendingTail(keys, props, fields);
    var next := Step(props, keys[0], fields);
    if i == 0 {
      RemappedUntouched(keys[1..], next, fields, keys[0]);
    } else {
      assert keys[1..][i - 1] == keys[i];
      assert keys[1..][i..] == keys[i + 1..];
      SelfMappedKeyDeleted(keys[1..], next, fields, i - 1);
    }
  }

  /** Two key orders of the same item giving different records: with
      a -> b and b -> c, the order [a, b] moves a's value on to c, the order
      [b, a] leaves it under b. */
  lemma OrderMatters()
    ensures var props := map["a" := Num(1.0), "b" := Num(2.0)];
            var fields := map["a" := "b", "b" := "c"];
            Remapped(["a", "b"], props, fields) == map["c" := Num(1.0)] &&
            Remapped(["b", "a"], props, fields) == map["b" := Num(1.0), "c" := Num(2.0)]
  {
  }

  /** The `forEach` over `Object.keys(item)` in `getProducts`, run over one
      item: each key of the snapshot in turn is renamed as the field map says. */
  method RemapItem(item: RawItem, fields: map<string, string>) returns (props: map<string, Value>)
    ensures props == Remapped(item.keys, item.props, fields)
  {
    props := item.props;
    var i := 0;
    while i < |item.keys|
      invariant 0 <= i <= |item.keys|
      invariant Pending(item.keys[i..], props)
      invariant Remapped(item.keys[i..], props, fields) == Remapped(item.keys, item.props, fields)
    {
      var field := item.keys[i];
      ghost var before := props;
      assert item.keys[i..][0] == field && item.keys[i..][1..] == item.keys[i + 1..];
      PendingTail(item.keys[i..], props, fields);
      if field in fields {
        props := props[fields[field] := props[field]];
        props := props - {field};
      }
      assert props == Step(before, field, fields);
      i := i + 1;
    }
  }

  /** Keys the field map does not know keep their value, wherever no display
      id lands on them. */
  lemma UnmappedKeyKept(item: RawItem, fields: map<string, string>, k: string)
    requires k in item.props && k !in fields && k !in DisplayIds(item.keys, fields)
    ensures k in Remapped(item.keys, item.props, fields)
    ensures Remapped(item.keys, item.props, fields)[k] == item.props[k]
  {
    RemappedUntouched(item.keys, item.props, fields, k);
  }

  /** A mapped key is removed and its value appears under its display id,
      given display ids that are distinct and are not keys of the item. */
  lemma MappedKeyMoved(item: RawItem, fields: map<string, string>, i: nat)
    requires NoCollision(item.keys, item.props, fields)
    requires i < |item.keys| && item.keys[i] in fields
    ensures item.keys[i] !in Remapped(item.keys, item.props, fields)
    ensures fields[item.keys[i]] in Remapped(item.keys, item.props, fields)
    ensures Remapped(item.keys, item.props, fields)[fields[item.keys[i]]] == item.props[item.keys[i]]
  {
    RemappedMoves(item.keys, item.props, fields, i);
  }
}
