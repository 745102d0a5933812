/**
 * The Redis client the state modules talk to, reduced to what they use: string
 * values under string keys, and a per-key expiry that `SETEX` sets on write and
 * `EXPIRE` resets on read. A connection or server error is a `failure` argument:
 * when it is true the call raises and changes nothing.
 */
module RedisStore {
  import opened Wrappers

  /** The exception a failed Redis call raises. */
  datatype StoreError = ConnectionError

  class Store {
    /** The value stored under each key. */
    var data: map<string, string>
    /** The expiry, in seconds, last set on each key. */
    var ttl: map<string, nat>
    /** `MESSAGE_EXPIRY_SECONDS` of the configuration module. */
    const expiry: nat

    /** Only stored keys carry an expiry. */
    ghost predicate Valid()
      reads this
    {
      ttl.Keys <= data.Keys
    }

    constructor (expiry: nat)
      ensures Valid()
      ensures data == map[] && ttl == map[] && this.expiry == expiry
    {
      data := map[];
      ttl := map[];
      this.expiry := expiry;
    }

    /** `SETEX key seconds value`: replaces the value and sets the expiry; replies True. */
    method SetEx(key: string, seconds: nat, value: string, failure: bool) returns (r: Result<bool, StoreError>)
      requires Valid()
      modifies this
      ensures Valid()
      ensures failure ==> r.Err? && data == old(data) && ttl == old(ttl)
      ensures !failure ==> r == Ok(true) && data == old(data)[key := value] && ttl == old(ttl)[key := seconds]
    {
      if failure {
        return Err(ConnectionError);
      }
      data := data[key := value];
      ttl := ttl[key := seconds];
      return Ok(true);
    }

    /** `GET key`: the stored value, or None for a missing key. */
    method Get(key: string, failure: bool) returns (r: Result<Option<string>, StoreError>)
      ensures failure ==> r.Err?
      ensures !failure ==> r == Ok(Lookup(data, key))
    {
      if failure {
        return Err(ConnectionError);
      }
      if key in data {
        return Ok(Some(data[key]));
      }
      return Ok(None);
    }

    /** `EXPIRE key seconds`: resets the expiry of a stored key; replies whether the key exists. */
    method Expire(key: string, seconds: nat, failure: bool) returns (r: Result<bool, StoreError>)
      requires Valid()
      modifies this
      ensures Valid()
      ensures data == old(data)
      ensures failure ==> r.Err? && ttl == old(ttl)
      ensures !failure ==> r == Ok(key in data) &&
                           ttl == if key in data then old(ttl)[key := seconds] else old(ttl)
    {
      if failure {
        return Err(ConnectionError);
      }
      if key in data {
        ttl := ttl[key := seconds];
        return Ok(true);
      }
      return Ok(false);
    }
  }

  /** What `GET` answers for `key` in a store holding `data`. */
  function Lookup(data: map<string, string>, key: string): (r: Option<string>)
    ensures r.Some? <==> key in data
    ensures r.Some? ==> r.value == data[key]
  {
    if key in data then Some(data[key]) else None
  }

  /** Writing one key leaves what `GET` answers for every other key as it was. */
  lemma WriteLeavesOthers(data: map<string, string>, key: string, value: string, other: string)
    requires other != key
    ensures Lookup(data[key := value], other) == Lookup(data, other)
  {
  }

  /** Reading back a key just written answers the written value. */
  lemma ReadYourWrite(data: map<string, string>, key: string, value: string)
    ensures Lookup(data[key := value], key) == Some(value)
  {
  }
}
