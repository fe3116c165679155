/** The token store (src/service/tokenStorage.ts) over the browser's
    key-value storage, modelled as a map from keys to the stored records.
    The clock is an input (`now`, in milliseconds).

    The write side stores the expiry as `Date.getTime()`, in milliseconds;
    the read side multiplies the stored number by 1000 again, both when
    checking expiry and when rebuilding the `Date`. The model keeps that:
    see `StoreThenRead` and `StoredTokenOutlivesExpiry`. */
module TokenStorage {
  import opened Wrappers
  import opened ApiClient

  const StorageKey := "token"

  /** The JSON record written under `StorageKey`: `{ key, expires }`. */
  datatype StoredToken = StoredToken(key: string, expires: int)

  /** `getStoredToken` on given storage contents at time `now`: nothing when
      no record is stored or when its expiry, read as seconds, lies before
      `now`; otherwise the key with the expiry scaled by 1000. */
  function ReadToken(entries: map<string, StoredToken>, now: int): (r: Option<TokenData>)
    ensures StorageKey !in entries ==> r == None
    ensures StorageKey in entries && entries[StorageKey].expires * 1000 < now ==> r == None
    ensures StorageKey in entries && entries[StorageKey].expires * 1000 >= now ==>
      r == Some(TokenData(entries[StorageKey].key, entries[StorageKey].expires * 1000))
  {
    if StorageKey !in entries then None
    else
      var raw := entries[StorageKey];
      if raw.expires * 1000 < now then None
      else Some(TokenData(raw.key, raw.expires * 1000))
  }

  /** The record `store` writes for a token. */
  function Record(tokenData: TokenData): StoredToken {
    StoredToken(tokenData.key, tokenData.expires)
  }

  class Storage {
    var entries: map<string, StoredToken>

    constructor ()
      ensures entries == map[]
    {
      entries := map[];
    }

    /** `store`: write the token under the single key, replacing any
        earlier record; other keys are untouched. */
    method Store(tokenData: TokenData)
      modifies this
      ensures entries == old(entries)[StorageKey := Record(tokenData)]
    {
      entries := entries[StorageKey := Record(tokenData)];
    }

    /** `getStoredToken`: read the token at time `now`. */
    method GetStoredToken(now: int) returns (r: Option<TokenData>)
      ensures r == ReadToken(entries, now)
    {
      if StorageKey !in entries {
        return None;
      }
      var raw := entries[StorageKey];
      if raw.expires * 1000 < now {
        return None;
      }
      r := Some(TokenData(raw.key, raw.expires * 1000));
    }

    /** `clearStorage`: remove the record. */
    method ClearStorage()
      modifies this
      ensures entries == old(entries) - {StorageKey}
    {
      entries := entries - {StorageKey};
    }
  }

  /** Reading after a store gives back the same key, but with the stored
      milliseconds multiplied by 1000, and it judges expiry on that scaled
      number. */
  lemma StoreThenRead(entries: map<string, StoredToken>, tokenData: TokenData, now: int)
    ensures var r := ReadToken(entries[StorageKey := Record(tokenData)], now);
      (r.Some? <==> tokenData.expires * 1000 >= now) &&
      (r.Some? ==> r.value.key == tokenData.key && r.value.expires == tokenData.expires * 1000)
  {
  }

  /** Because of the scaling, a stored token with a positive expiry is
      still returned after it has expired, at any `now` up to 1000 times
      its expiry. */
  lemma StoredTokenOutlivesExpiry(entries: map<string, StoredToken>, tokenData: TokenData, now: int)
    requires 0 < tokenData.expires < now <= tokenData.expires * 1000
    ensures ReadToken(entries[StorageKey := Record(tokenData)], now).Some?
  {
  }

  /** After clearing, nothing is read, at any time. */
  lemma ClearThenRead(entries: map<string, StoredToken>, now: int)
    ensures ReadToken(entries - {StorageKey}, now) == None
  {
  }

  /** Storing twice keeps only the second token. */
  lemma StoreOverwrites(entries: map<string, StoredToken>, first: TokenData, second: TokenData, now: int)
    ensures ReadToken(entries[StorageKey := Record(first)][StorageKey := Record(second)], now) ==
            ReadToken(entries[StorageKey := Record(second)], now)
  {
  }
}
