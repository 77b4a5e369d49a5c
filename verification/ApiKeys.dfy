// The credentials file (src/credentials/api-keys.ts): one record per provider, edited on a draft that
// replaces the document in memory once it is on disk.

module ApiKeys {
  import opened Options
  import opened CloudRecords

  /** What a key is bound to: everything that decides where a request with it goes. */
  datatype Config = Config(provider: string, baseUrl: Option<string>, headers: seq<Json>, models: seq<string>)

  function ConfigOf(p: Provider): Config {
    Config(p.name, p.baseUrl, p.headers, p.models)
  }

  /** The text in `bound_to`: a SHA-256 of a configuration, taken as injective, or something else. */
  datatype Hash = Sha256(config: Config) | OtherText(text: string)

  datatype KeyRecord = KeyRecord(apiKey: string, updatedAt: string, boundTo: Option<Hash>)

  type Keys = map<string, KeyRecord>

  function RecordOf(keys: Keys, provider: string): Option<KeyRecord> {
    if provider in keys then Some(keys[provider]) else None
  }

  /** The document after `set`; no key, or an empty one, removes the record. */
  function WithKey(keys: Keys, provider: string, key: Option<string>, now: string): Keys {
    if key.None? || key.value == "" then keys - {provider}
    else if provider in keys && keys[provider].apiKey == key.value then keys
    else keys[provider := KeyRecord(key.value, now, None)]
  }

  /** The document after `setBound`. */
  function WithBoundKey(keys: Keys, provider: string, key: Option<string>, hash: Hash, now: string): Keys {
    if key.None? || key.value == "" then keys - {provider}
    else
      var same := provider in keys && keys[provider].apiKey == key.value;
      keys[provider := KeyRecord(key.value, if same then keys[provider].updatedAt else now, Some(hash))]
  }

  /** The document after `restore`. */
  function WithRecord(keys: Keys, provider: string, record: Option<KeyRecord>): Keys {
    if record.Some? then keys[provider := record.value] else keys - {provider}
  }

  /** `restore` of the record from before undoes `setBound` and `remove`, whatever they wrote. */
  lemma RestoreUndoes(keys: Keys, provider: string, key: Option<string>, hash: Hash, now: string)
    ensures WithRecord(WithBoundKey(keys, provider, key, hash, now), provider, RecordOf(keys, provider)) == keys
    ensures WithRecord(WithKey(keys, provider, key, now), provider, RecordOf(keys, provider)) == keys
  {
    var bound := WithRecord(WithBoundKey(keys, provider, key, hash, now), provider, RecordOf(keys, provider));
    var plain := WithRecord(WithKey(keys, provider, key, now), provider, RecordOf(keys, provider));
    assert bound.Keys == keys.Keys && plain.Keys == keys.Keys;
    assert forall p: string :: p in keys ==> bound[p] == keys[p] && plain[p] == keys[p];
  }

  class ApiKeyStore {
    var doc: Keys
    /** What the file holds. */
    var file: Keys

    /** Between calls memory and file agree, whatever writes failed before. */
    ghost predicate Valid()
      reads this
    {
      doc == file && forall p: string :: p in doc ==> doc[p].apiKey != ""
    }

    constructor (loaded: Keys)
      requires forall p: string :: p in loaded ==> loaded[p].apiKey != ""
      ensures Valid() && doc == loaded
    {
      doc, file := loaded, loaded;
    }

    /** `mutate` once the change is made on the draft: write it, then swap it in. */
    method Mutate(draft: Keys, persists: bool) returns (ok: bool)
      requires Valid() && forall p: string :: p in draft ==> draft[p].apiKey != ""
      modifies this
      ensures Valid() && ok == (persists || draft == old(doc))
      ensures doc == if ok then draft else old(doc)
    {
      if draft == doc {
        return true;
      }
      if !persists {
        return false;
      }
      file := draft;
      doc := draft;
      ok := true;
    }

    method SetKey(provider: string, key: Option<string>, now: string, persists: bool) returns (ok: bool)
      requires Valid()
      modifies this
      ensures Valid() && ok == (persists || WithKey(old(doc), provider, key, now) == old(doc))
      ensures doc == if ok then WithKey(old(doc), provider, key, now) else old(doc)
    {
      ok := Mutate(WithKey(doc, provider, key, now), persists);
    }

    method SetBound(provider: string, key: Option<string>, hash: Hash, now: string, persists: bool) returns (ok: bool)
      requires Valid()
      modifies this
      ensures Valid() && ok == (persists || WithBoundKey(old(doc), provider, key, hash, now) == old(doc))
      ensures doc == if ok then WithBoundKey(old(doc), provider, key, hash, now) else old(doc)
    {
      ok := Mutate(WithBoundKey(doc, provider, key, hash, now), persists);
    }

    /** The record given back is one this store held, so its key is not empty. */
    method Restore(provider: string, record: Option<KeyRecord>, persists: bool) returns (ok: bool)
      requires Valid() && (record.Some? ==> record.value.apiKey != "")
      modifies this
      ensures Valid() && ok == (persists || WithRecord(old(doc), provider, record) == old(doc))
      ensures doc == if ok then WithRecord(old(doc), provider, record) else old(doc)
    {
      ok := Mutate(WithRecord(doc, provider, record), persists);
    }
  }
}
