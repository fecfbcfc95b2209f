/** The blob store over a string-keyed NVS namespace: it behaves as a map keyed by 16-bit numbers. */
module Nvs {
  import opened Base
  import opened Hex

  const KEY_CAPACITY: nat := 5

  type Key = k: nat | k < 0x1_0000

  function KeyString(key: Key): string {
    Print(key, 4, false)
  }

  /** Every key prints to four characters, different ones differently. */
  lemma KeyStringIsExact(a: Key, b: Key)
    ensures |KeyString(a)| == 4 <= KEY_CAPACITY
    ensures KeyString(a) == KeyString(b) <==> a == b
    ensures Parse(KeyString(a)) == a
  {
    Pow16Values();
    PrintParses(a, 4, false);
    PrintIsInjective(a, b, 4, false);
  }

  /** They are its digits, the highest first, in lower case. */
  lemma KeyStringDigits(key: Key, k: nat)
    requires k < 4
    ensures |KeyString(key)| == 4
    ensures KeyString(key)[k] == Digit(DigitAt(key, 3 - k), false)
  {
    Pow16Values();
    PrintDigits(key, 4, false, k);
  }

  datatype Error = NvsError

  /** An NVS namespace: blobs under string keys. Any call may fail and then changes nothing. */
  class EspNvs {
    var blobs: map<string, Bytes>

    constructor ()
      ensures blobs == map[]
    {
      blobs := map[];
    }

    method GetBlob(key: string, capacity: nat) returns (r: Result<Option<Bytes>, Error>)
      ensures r.Ok? ==> r.value == if key in blobs then Some(blobs[key]) else None
      ensures key in blobs && |blobs[key]| > capacity ==> r.Err?
    {
      var fails: bool := *;
      if fails || (key in blobs && |blobs[key]| > capacity) {
        return Err(NvsError);
      }
      return Ok(if key in blobs then Some(blobs[key]) else None);
    }

    method SetBlob(key: string, data: Bytes) returns (r: Result<(), Error>)
      modifies this
      ensures blobs == if r.Ok? then old(blobs)[key := data] else old(blobs)
    {
      var fails: bool := *;
      if fails {
        return Err(NvsError);
      }
      blobs := blobs[key := data];
      return Ok(());
    }

    method Remove(key: string) returns (r: Result<(), Error>)
      modifies this
      ensures blobs == if r.Ok? then old(blobs) - {key} else old(blobs)
    {
      var fails: bool := *;
      if fails {
        return Err(NvsError);
      }
      blobs := blobs - {key};
      return Ok(());
    }
  }

  /** The store's contents as a map over 16-bit keys. */
  ghost function View(blobs: map<string, Bytes>): map<Key, Bytes> {
    map key: Key | KeyString(key) in blobs :: blobs[KeyString(key)]
  }

  lemma KeyStringsDiffer(key: Key)
    ensures forall other: Key :: KeyString(other) == KeyString(key) <==> other == key
  {
    forall other: Key ensures KeyString(other) == KeyString(key) <==> other == key {
      KeyStringIsExact(other, key);
    }
  }

  lemma ViewOfStore(blobs: map<string, Bytes>, key: Key, data: Bytes)
    ensures View(blobs[KeyString(key) := data]) == View(blobs)[key := data]
  {
    KeyStringsDiffer(key);
  }

  lemma ViewOfRemove(blobs: map<string, Bytes>, key: Key)
    ensures View(blobs - {KeyString(key)}) == View(blobs) - {key}
  {
    KeyStringsDiffer(key);
  }

  class EspKvBlobStore {
    const nvs: EspNvs

    ghost function Contents(): map<Key, Bytes>
      reads nvs
    {
      View(nvs.blobs)
    }

    constructor (nvs: EspNvs)
      ensures this.nvs == nvs
    {
      this.nvs := nvs;
    }

    /** Clear the buffer and print the key into it. */
    method SKey(key: Key) returns (skey: string)
      ensures skey == KeyString(key) && |skey| <= KEY_CAPACITY
    {
      KeyStringIsExact(key, key);
      skey := "";
      skey := skey + KeyString(key);
    }

    method Load(key: Key, capacity: nat) returns (r: Result<Option<Bytes>, Error>)
      ensures r.Ok? ==> r.value == if key in Contents() then Some(Contents()[key]) else None
      ensures key in Contents() && |Contents()[key]| > capacity ==> r.Err?
    {
      var skey := SKey(key);
      r := nvs.GetBlob(skey, capacity);
    }

    method Store(key: Key, data: Bytes) returns (r: Result<(), Error>)
      modifies nvs
      ensures Contents() == if r.Ok? then old(Contents())[key := data] else old(Contents())
    {
      var skey := SKey(key);
      r := nvs.SetBlob(skey, data);
      ViewOfStore(old(nvs.blobs), key, data);
    }

    method Remove(key: Key) returns (r: Result<(), Error>)
      modifies nvs
      ensures Contents() == if r.Ok? then old(Contents()) - {key} else old(Contents())
    {
      var skey := SKey(key);
      r := nvs.Remove(skey);
      ViewOfRemove(old(nvs.blobs), key);
    }
  }
}
