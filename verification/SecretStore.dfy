/** The secret store, keyed by profile id (`system/psk_store.py`, `MemoryPskStore`). */
module SecretStore {
  import opened Wrappers

  /** The two tables of the store as a value. */
  datatype Contents = Contents(psks: map<string, string>, passwords: map<string, string>)

  function Lookup(m: map<string, string>, id: string): Option<string> {
    if id in m then Some(m[id]) else None
  }

  /** No empty id and no empty secret is ever stored. */
  predicate Clean(m: map<string, string>) {
    "" !in m && forall id | id in m :: m[id] != ""
  }

  class Store {
    var psks: map<string, string>
    var passwords: map<string, string>

    ghost predicate Valid()
      reads this
    {
      Clean(psks) && Clean(passwords)
    }

    function Value(): Contents
      reads this
    {
      Contents(psks, passwords)
    }

    constructor ()
      ensures Valid() && Value() == Contents(map[], map[])
    {
      psks, passwords := map[], map[];
    }

    method Get(id: string) returns (secret: Option<string>)
      requires Valid()
      ensures secret == Lookup(psks, id)
    {
      if id == "" {
        return None;
      }
      secret := if id in psks then Some(psks[id]) else None;
    }

    method GetPassword(id: string) returns (secret: Option<string>)
      requires Valid()
      ensures secret == Lookup(passwords, id)
    {
      if id == "" {
        return None;
      }
      secret := if id in passwords then Some(passwords[id]) else None;
    }

    /** `accepted` is whether the service took the secret; a refused write changes nothing. */
    method Set(id: string, secret: string, accepted: bool) returns (ok: bool)
      requires Valid()
      modifies this`psks
      ensures Valid()
      ensures ok == (accepted && id != "" && secret != "")
      ensures psks == if ok then old(psks)[id := secret] else old(psks)
    {
      ok := accepted && id != "" && secret != "";
      if ok {
        psks := psks[id := secret];
      }
    }

    method SetPassword(id: string, secret: string, accepted: bool) returns (ok: bool)
      requires Valid()
      modifies this`passwords
      ensures Valid()
      ensures ok == (accepted && id != "" && secret != "")
      ensures passwords == if ok then old(passwords)[id := secret] else old(passwords)
    {
      ok := accepted && id != "" && secret != "";
      if ok {
        passwords := passwords[id := secret];
      }
    }

    method Delete(id: string)
      requires Valid()
      modifies this`psks
      ensures Valid() && psks == old(psks) - {id}
    {
      psks := psks - {id};
    }

    method DeletePassword(id: string)
      requires Valid()
      modifies this`passwords
      ensures Valid() && passwords == old(passwords) - {id}
    {
      passwords := passwords - {id};
    }

    method DeleteAll(id: string)
      requires Valid()
      modifies this
      ensures Valid() && psks == old(psks) - {id} && passwords == old(passwords) - {id}
    {
      Delete(id);
      DeletePassword(id);
    }
  }
}
