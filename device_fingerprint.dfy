/** The device fingerprint: an identifier derived once from the device's
    characteristics, kept in the app's persistent key-value store and handed out
    unchanged from then on, so that the registration bonus can be tied to a device. */
module DeviceFingerprint {
  import opened Wrappers
  import opened Js

  const DEVICE_ID_KEY: string := "@RizzTempo:deviceId"

  /** The persistent key-value store, as one mutable map from keys to strings. */
  class AsyncStorage {
    var items: map<string, string>

    constructor (items: map<string, string>)
      ensures this.items == items
    {
      this.items := items;
    }
  }

  /** Where the main path of `getDeviceFingerprint` threw, if anywhere: reading the
      stored id, gathering and hashing the device attributes, or storing the hash. */
  datatype Fault = NoFault | ReadFault | DigestFault | WriteFault

  /** `if (storedId)`: an id is kept under the key and it is not the empty string. */
  predicate HasStoredId(items: map<string, string>) {
    DEVICE_ID_KEY in items && items[DEVICE_ID_KEY] != ""
  }

  /** The text the fallback id is hashed from: the clock in milliseconds, a dash,
      and the text of a random number. */
  function FallbackSeed(now: int, random: string): (r: string)
    ensures r == IntToString(now) + "-" + random
    ensures now >= 0 ==> SplitFirst(r, '-') == Some((IntToString(now), random))
  {
    var clock := IntToString(now);
    if now >= 0 then
      NatToStringOmits(now, '-');
      SplitFirstJoined(clock, '-', random);
      clock + "-" + random
    else
      clock + "-" + random
  }

  /** The main path falls back to a fresh random id when reading threw, or when
      there was no stored id and hashing or storing threw. */
  predicate TakesFallback(items: map<string, string>, fault: Fault) {
    fault == ReadFault || (!HasStoredId(items) && (fault == DigestFault || fault == WriteFault))
  }

  /** `getDeviceFingerprint()`. `hash` is the SHA-256 hex digest; `fingerprintData`
      is the JSON text of the device and application attributes and the clock.
      A stored id is returned as it is; without one, the digest of the attributes
      is stored and returned; after a fault, the digest of the fallback seed is
      stored and returned, and if that too throws the call rejects and nothing is
      stored. Only the one key is ever written. */
  method GetDeviceFingerprint(storage: AsyncStorage, hash: string -> string, fingerprintData: string,
                              now: int, random: string, fault: Fault, fallbackFails: bool)
    returns (id: Attempt<string>)
    modifies storage
    ensures !TakesFallback(old(storage.items), fault) && HasStoredId(old(storage.items)) ==>
              id == Done(old(storage.items)[DEVICE_ID_KEY]) && storage.items == old(storage.items)
    ensures !TakesFallback(old(storage.items), fault) && !HasStoredId(old(storage.items)) ==>
              id == Done(hash(fingerprintData))
              && storage.items == old(storage.items)[DEVICE_ID_KEY := hash(fingerprintData)]
    ensures TakesFallback(old(storage.items), fault) && fallbackFails ==>
              id == Raised && storage.items == old(storage.items)
    ensures TakesFallback(old(storage.items), fault) && !fallbackFails ==>
              id == Done(hash(FallbackSeed(now, random)))
              && storage.items == old(storage.items)[DEVICE_ID_KEY := hash(FallbackSeed(now, random))]
    ensures id.Done? ==> DEVICE_ID_KEY in storage.items && storage.items[DEVICE_ID_KEY] == id.value
    ensures storage.items - {DEVICE_ID_KEY} == old(storage.items) - {DEVICE_ID_KEY}
  {
    if fault != ReadFault {
      if HasStoredId(storage.items) {
        return Done(storage.items[DEVICE_ID_KEY]);
      }
      if fault == NoFault {
        var digest := hash(fingerprintData);
        storage.items := storage.items[DEVICE_ID_KEY := digest];
        return Done(digest);
      }
    }
    if fallbackFails {
      return Raised;
    }
    var fallbackId := hash(FallbackSeed(now, random));
    storage.items := storage.items[DEVICE_ID_KEY := fallbackId];
    id := Done(fallbackId);
  }

  /** `clearDeviceFingerprint()`: removes the key and nothing else; a failing
      removal is swallowed and leaves the store as it was. */
  method ClearDeviceFingerprint(storage: AsyncStorage, removeFails: bool)
    modifies storage
    ensures removeFails ==> storage.items == old(storage.items)
    ensures !removeFails ==> storage.items == old(storage.items) - {DEVICE_ID_KEY}
    ensures !HasStoredId(storage.items) || removeFails
  {
    if !removeFails {
      storage.items := storage.items - {DEVICE_ID_KEY};
    }
  }

  /** A digest is never empty, so once an id has been handed out, every later call
      whose read succeeds hands out the same id, whatever else goes wrong. */
  method LaterCallsAgree(storage: AsyncStorage, hash: string -> string,
                         data1: string, now1: int, random1: string, fault1: Fault, fallbackFails1: bool,
                         data2: string, now2: int, random2: string, fault2: Fault, fallbackFails2: bool)
    returns (first: Attempt<string>, second: Attempt<string>)
    requires forall s :: hash(s) != ""
    requires fault2 != ReadFault
    modifies storage
    ensures first.Done? ==> second == first
  {
    first := GetDeviceFingerprint(storage, hash, data1, now1, random1, fault1, fallbackFails1);
    second := GetDeviceFingerprint(storage, hash, data2, now2, random2, fault2, fallbackFails2);
  }

  /** A read that throws discards a stored id: the fallback overwrites it with a
      fresh random one, so the device is no longer recognised by its old id. */
  method ReadFaultReplacesStoredId(storage: AsyncStorage, hash: string -> string,
                                   fingerprintData: string, now: int, random: string)
    returns (id: Attempt<string>)
    requires HasStoredId(storage.items)
    modifies storage
    ensures id == Done(hash(FallbackSeed(now, random)))
    ensures DEVICE_ID_KEY in storage.items && storage.items[DEVICE_ID_KEY] == hash(FallbackSeed(now, random))
  {
    id := GetDeviceFingerprint(storage, hash, fingerprintData, now, random, ReadFault, false);
  }

  /** Clearing and then asking again derives a new id from the attributes. */
  method ClearThenRegenerate(storage: AsyncStorage, hash: string -> string, fingerprintData: string,
                             now: int, random: string)
    returns (id: Attempt<string>)
    modifies storage
    ensures id == Done(hash(fingerprintData))
    ensures storage.items == old(storage.items)[DEVICE_ID_KEY := hash(fingerprintData)]
  {
    ClearDeviceFingerprint(storage, false);
    id := GetDeviceFingerprint(storage, hash, fingerprintData, now, random, NoFault, false);
  }
}
