/** Versioned Custom Objects as the in-memory provider keeps them: one request is one atomic step. */
module CustomObjects {
  import opened Basics

  datatype Stored<V> = Stored(version: nat, value: V)

  datatype RequestError = Conflict | NotFound

  /** A post that expects a version: 0 only creates, any other replaces exactly that version. */
  predicate Accepts<K, V>(objects: map<K, Stored<V>>, key: K, expected: Option<nat>) {
    match expected
    case None => true
    case Some(version) => if key in objects then version == objects[key].version && version != 0 else version == 0
  }

  function NextVersion<K, V>(objects: map<K, Stored<V>>, key: K): nat {
    if key in objects then objects[key].version + 1 else 1
  }

  function Posted<K, V>(objects: map<K, Stored<V>>, key: K, value: V): map<K, Stored<V>> {
    objects[key := Stored(NextVersion(objects, key), value)]
  }

  function Post<K, V>(objects: map<K, Stored<V>>, key: K, value: V, version: nat): (r: Option<map<K, Stored<V>>>)
    ensures r.Some? <==> Accepts(objects, key, Some(version))
    ensures r.Some? ==> r.value.Keys == objects.Keys + {key} && r.value[key] == Stored(version + 1, value)
    ensures r.Some? ==> forall k :: k in objects && k != key ==> r.value[k] == objects[k]
  {
    if Accepts(objects, key, Some(version)) then Some(Posted(objects, key, value)) else None
  }

  function Delete<K, V>(objects: map<K, Stored<V>>, key: K, version: nat)
    : (r: Result<map<K, Stored<V>>, RequestError>)
    ensures r.Ok? <==> key in objects && objects[key].version == version
    ensures r.Ok? ==> r.value == objects - {key}
  {
    if key !in objects then Err(NotFound)
    else if objects[key].version != version then Err(Conflict)
    else Ok(objects - {key})
  }

  /** The provider's map of objects, changed in place by each request. */
  class Provider<K(==), V> {
    var objects: map<K, Stored<V>>

    /** Versions count from 1. */
    ghost predicate Valid()
      reads this
    {
      forall k :: k in objects ==> objects[k].version >= 1
    }

    constructor ()
      ensures Valid() && objects == map[]
    {
      objects := map[];
    }

    method HandlePost(key: K, value: V, expected: Option<nat>) returns (r: Result<Stored<V>, RequestError>)
      requires Valid()
      modifies this
      ensures Valid()
      ensures r.Ok? <==> Accepts(old(objects), key, expected)
      ensures r.Ok? ==> objects == Posted(old(objects), key, value) && r.value == objects[key]
      ensures r.Ok? && expected.Some? ==> Post(old(objects), key, value, expected.value) == Some(objects)
      ensures expected.None? ==> r.Ok?
      ensures r.Ok? ==> objects == old(objects)[key := r.value] && r.value.value == value
      ensures r.Ok? ==> r.value.version == if key in old(objects) then old(objects)[key].version + 1 else 1
      ensures r.Err? ==> objects == old(objects) && r.error == Conflict
    {
      if expected == Some(0) && key in objects {
        return Err(Conflict);
      }
      if expected.Some? && expected != Some(0) && (key !in objects || objects[key].version != expected.value) {
        return Err(Conflict);
      }
      var next := Stored(if key in objects then objects[key].version + 1 else 1, value);
      objects := objects[key := next];
      r := Ok(next);
    }

    method HandleGet(key: K) returns (r: Result<Stored<V>, RequestError>)
      ensures r == if key in objects then Ok(objects[key]) else Err(NotFound)
    {
      if key !in objects {
        return Err(NotFound);
      }
      r := Ok(objects[key]);
    }

    method HandleDelete(key: K, version: nat) returns (r: Result<Stored<V>, RequestError>)
      requires Valid()
      modifies this
      ensures Valid()
      ensures r.Ok? <==> key in old(objects) && old(objects)[key].version == version
      ensures r.Ok? ==> r.value == old(objects)[key]
      ensures Delete(old(objects), key, version) == if r.Ok? then Ok(objects) else Err(r.error)
      ensures r.Err? ==> objects == old(objects)
    {
      if key !in objects {
        return Err(NotFound);
      }
      var current := objects[key];
      if version != current.version {
        return Err(Conflict);
      }
      objects := objects - {key};
      r := Ok(current);
    }
  }
}
