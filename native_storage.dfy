/**
 * The native key-value store (native/storage/joinly_storage.cpp): one process-wide
 * `std::map<std::string, std::string>` behind three C entry points that return 0 on success
 * and -1 on failure. A null pointer argument is `None`.
 */
module NativeStorage {
  import opened Wrappers
  import CStrings

  const Success := 0
  const Failure := -1

  /** The map after `native_set(key, value)`: unchanged on a null argument, else the value stored. */
  function Stored(m: map<string, string>, key: Option<string>, value: Option<string>): (r: map<string, string>)
    ensures key.Some? && value.Some? ==> r.Keys == m.Keys + {key.value} && r[key.value] == value.value
    ensures forall k :: (key.None? || value.None? || k != key.value) ==> (k in r <==> k in m) && (k in m ==> r[k] == m[k])
  {
    if key.None? || value.None? then m else m[key.value := value.value]
  }

  /** The map after `native_delete(key)`: the key erased when it is there. */
  function Erased(m: map<string, string>, key: Option<string>): (r: map<string, string>)
    ensures key.Some? ==> key.value !in r
    ensures forall k :: (key.None? || k != key.value) ==> (k in r <==> k in m) && (k in m ==> r[k] == m[k])
  {
    if key.None? then m else m - {key.value}
  }

  /**
   * What `native_get(key, buffer, buffer_size)` copies out: nothing for a null argument, a
   * non-positive size, an absent key, or a value that leaves no room for its NUL.
   */
  function Copied(m: map<string, string>, key: Option<string>, hasBuffer: bool, bufferSize: int): (r: Option<string>)
    ensures r.Some? <==> key.Some? && hasBuffer && bufferSize > 0 && key.value in m && |m[key.value]| < bufferSize
    ensures r.Some? ==> r.value == m[key.value]
  {
    if key.None? || !hasBuffer || bufferSize <= 0 then None
    else if key.value !in m then None
    else if |m[key.value]| >= bufferSize then None
    else Some(m[key.value])
  }

  /** After a successful set, a get with room for the value and its NUL reads the value back. */
  lemma GetAfterSet(m: map<string, string>, key: string, value: string, bufferSize: int)
    requires bufferSize > |value|
    ensures Copied(Stored(m, Some(key), Some(value)), Some(key), true, bufferSize) == Some(value)
  {
  }

  /** A buffer exactly as long as the value leaves no room for the NUL. */
  lemma GetNeedsRoom(m: map<string, string>, key: string, value: string)
    ensures Copied(Stored(m, Some(key), Some(value)), Some(key), true, |value|) == None
  {
  }

  /** Setting or deleting one key changes what no other key reads. */
  lemma OtherKeysKept(m: map<string, string>, key: string, value: string, other: string, hasBuffer: bool, bufferSize: int)
    requires other != key
    ensures Copied(Stored(m, Some(key), Some(value)), Some(other), hasBuffer, bufferSize) == Copied(m, Some(other), hasBuffer, bufferSize)
    ensures Copied(Erased(m, Some(key)), Some(other), hasBuffer, bufferSize) == Copied(m, Some(other), hasBuffer, bufferSize)
  {
  }

  /** A deleted key reads as absent, whatever the buffer. */
  lemma GetAfterDelete(m: map<string, string>, key: string, hasBuffer: bool, bufferSize: int)
    ensures Copied(Erased(m, Some(key)), Some(key), hasBuffer, bufferSize) == None
  {
  }

  class NativeStore {
    /** `static std::map<std::string, std::string> storage` */
    var storage: map<string, string>

    /** Every stored key and value came in as a C string. */
    ghost predicate Valid()
      reads this
    {
      forall k :: k in storage ==> CStrings.IsCString(k) && CStrings.IsCString(storage[k])
    }

    constructor ()
      ensures Valid() && storage == map[]
    {
      storage := map[];
    }

    /** `native_set`: -1 on a null argument; otherwise the value is stored, replacing any old one, and 0. */
    method NativeSet(key: Option<string>, value: Option<string>) returns (rc: int)
      requires Valid()
      requires key.Some? ==> CStrings.IsCString(key.value)
      requires value.Some? ==> CStrings.IsCString(value.value)
      modifies this
      ensures Valid()
      ensures rc == (if key.None? || value.None? then Failure else Success)
      ensures storage == Stored(old(storage), key, value)
    {
      if key.None? || value.None? {
        return Failure;
      }
      storage := storage[key.value := value.value];
      rc := Success;
    }

    /**
     * `native_get`: on success the value and its NUL fill the front of the buffer and the result
     * is 0; on any failure the result is -1 and the buffer is untouched. The caller's buffer holds
     * at least `buffer_size` characters, and a key is a C string (it is read up to its NUL).
     */
    method NativeGet(key: Option<string>, buffer: Option<array<char>>, bufferSize: int) returns (rc: int)
      requires key.Some? ==> CStrings.IsCString(key.value)
      requires buffer.Some? && bufferSize > 0 ==> bufferSize <= buffer.value.Length
      modifies if buffer.Some? then {buffer.value} else {}
      ensures rc == Success <==> Copied(storage, key, buffer.Some?, bufferSize).Some?
      ensures rc == Success || rc == Failure
      ensures rc == Success ==>
        var v := storage[key.value];
        && buffer.value[..|v| + 1] == v + ['\0']
        && buffer.value[|v| + 1..] == old(buffer.value[|v| + 1..])
      ensures rc == Failure && buffer.Some? ==> buffer.value[..] == old(buffer.value[..])
    {
      if key.None? || buffer.None? || bufferSize <= 0 {
        return Failure;
      }
      if key.value !in storage {
        return Failure;
      }
      var value := storage[key.value];
      if |value| >= bufferSize {
        return Failure;
      }
      CStrings.Strcpy(buffer.value, value);
      rc := Success;
    }

    /** `native_delete` of a C-string key: -1 on a null or absent key; otherwise the key is erased and 0. */
    method NativeDelete(key: Option<string>) returns (rc: int)
      requires Valid()
      requires key.Some? ==> CStrings.IsCString(key.value)
      modifies this
      ensures Valid()
      ensures rc == (if key.None? || key.value !in old(storage) then Failure else Success)
      ensures storage == Erased(old(storage), key)
    {
      if key.None? {
        return Failure;
      }
      if key.value !in storage {
        return Failure;
      }
      storage := storage - {key.value};
      rc := Success;
    }
  }

  /** Deleting the same key twice: the first succeeds once the key is stored, the second fails. */
  method DeleteTwice(s: NativeStore, key: string) returns (first: int, second: int)
    requires s.Valid() && key in s.storage
    modifies s
    ensures first == Success && second == Failure
  {
    first := s.NativeDelete(Some(key));
    second := s.NativeDelete(Some(key));
  }
}
