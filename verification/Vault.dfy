/**
 The secret store. A key-encryption key wraps one data key per tenant, made on
 first use, and the data key seals the tenant's values. To its callers the
 store is a plain map from (tenant, name) to a secret, as VaultRefinement proves
 for every sequence of operations.
 */
module Vault {
  import opened Prelude
  import opened Naming
  import opened Envelope
  import opened Database

  datatype Secret = Secret(text: string, kind: SecretType, target: Option<string>)

  // --- Reading rows ---

  function DekOf(kek: Key, db: Db, t: Uuid): Option<Key> {
    if t in db.deks then OpenKey(kek, db.deks[t].nonce, db.deks[t].encryptedDek) else None
  }

  function TextOf(kek: Key, db: Db, t: Uuid, name: string): Option<string> {
    if (t, name) in db.secrets && DekOf(kek, db, t).Some?
    then OpenText(DekOf(kek, db, t).value, db.secrets[(t, name)].nonce, db.secrets[(t, name)].ciphertext)
    else None
  }

  /** The variable a secret is delivered under: its target, unless absent or empty. */
  function EnvKey(target: Option<string>, name: string): (v: string)
    ensures target.Some? && target.value != "" ==> target == Some(v)
    ensures target in {None, Some("")} ==> v == name
  {
    if target.Some? && target.value != "" then target.value else name
  }

  /** Every stored value opens under its own tenant's one data key. */
  ghost predicate Readable(kek: Key, db: Db) {
    && (forall t :: t in db.deks ==> DekOf(kek, db, t).Some?)
    && (forall t, name :: (t, name) in db.secrets ==> TextOf(kek, db, t, name).Some?)
  }

  /** The tenant's data key can be had: it opens, or there is none yet and a tenant to make it for. */
  predicate KeyUsable(kek: Key, db: Db, t: Uuid) {
    if t in db.deks then DekOf(kek, db, t).Some? else t in db.tenants
  }

  /** One tenant's key and values open. */
  ghost predicate TenantReadable(kek: Key, db: Db, t: Uuid) {
    && (t in db.deks ==> DekOf(kek, db, t).Some?)
    && (forall name :: (t, name) in db.secrets ==> TextOf(kek, db, t, name).Some?)
  }

  /** What the store holds, seen as a plain map. */
  ghost function Contents(kek: Key, db: Db): map<(Uuid, string), Secret> {
    map k | k in db.secrets && TextOf(kek, db, k.0, k.1).Some? ::
      Secret(TextOf(kek, db, k.0, k.1).value, db.secrets[k].kind, db.secrets[k].target)
  }

  /** A dictionary get_decrypted_secrets may return: each variable has the value of some secret mapped to it. */
  ghost predicate Retrieves(kek: Key, db: Db, t: Uuid, d: map<string, string>) {
    && (forall name :: (t, name) in db.secrets ==> TextOf(kek, db, t, name).Some?)
    && (forall name :: (t, name) in db.secrets ==> EnvKey(db.secrets[(t, name)].target, name) in d)
    && (forall v :: v in d ==> exists name ::
          && (t, name) in db.secrets
          && EnvKey(db.secrets[(t, name)].target, name) == v
          && TextOf(kek, db, t, name) == Some(d[v]))
  }

  /** The same, said of the plain map alone. */
  ghost predicate Rekeyed(items: map<(Uuid, string), Secret>, t: Uuid, d: map<string, string>) {
    && (forall name :: (t, name) in items ==> EnvKey(items[(t, name)].target, name) in d)
    && (forall v :: v in d ==> exists name ::
          && (t, name) in items
          && EnvKey(items[(t, name)].target, name) == v
          && items[(t, name)].text == d[v])
  }

  // --- Writing rows ---

  function DekEnsured(kek: Key, db: Db, drawn: nat, t: Uuid): Db {
    if t in db.deks then db
    else db.(deks := db.deks[t := DekRow(Sealed(kek, drawn + 1, KeyPayload(Key(drawn))), drawn + 1)])
  }

  /** The tenant's secrets can be fetched: there is a key to be had, and with it every value opens. */
  ghost predicate Fetchable(kek: Key, db: Db, drawn: nat, t: Uuid) {
    KeyUsable(kek, db, t) && TenantReadable(kek, DekEnsured(kek, db, drawn, t), t)
  }

  lemma ReadableFetches(kek: Key, db: Db, drawn: nat, t: Uuid)
    requires TenantReadable(kek, db, t) && (t in db.deks || t in db.tenants)
    ensures Fetchable(kek, db, drawn, t)
  {
  }

  /** A dictionary a start may be handed. */
  ghost predicate Fetched(kek: Key, db: Db, drawn: nat, t: Uuid, secrets: map<string, string>) {
    Fetchable(kek, db, drawn, t) && Retrieves(kek, DekEnsured(kek, db, drawn, t), t, secrets)
  }

  /** Where every value opens there is a dictionary to hand back. */
  lemma SomeDictionary(kek: Key, db: Db, t: Uuid) returns (d: map<string, string>)
    requires TenantReadable(kek, db, t)
    ensures Retrieves(kek, db, t, d)
  {
    hide DekOf, EnvKey;
    var rest := set k | k in db.secrets && k.0 == t :: k.1;
    var all := rest;
    d := map[];
    while rest != {}
      invariant forall name :: name in all <==> (t, name) in db.secrets
      invariant rest <= all
      invariant forall name :: name in all - rest ==> EnvKey(db.secrets[(t, name)].target, name) in d
      invariant forall v :: v in d ==> exists name ::
        && (t, name) in db.secrets
        && EnvKey(db.secrets[(t, name)].target, name) == v
        && TextOf(kek, db, t, name) == Some(d[v])
      decreases |rest|
    {
      var name :| name in rest;
      assert (t, name) in db.secrets;
      d := d[EnvKey(db.secrets[(t, name)].target, name) := TextOf(kek, db, t, name).value];
      rest := rest - {name};
    }
  }

  function DrawnByDek(db: Db, drawn: nat, t: Uuid): nat {
    if t in db.deks then drawn else drawn + 2
  }

  function SealedSecret(dek: Key, nonce: nat, s: Secret): SecretRow {
    SecretRow(Sealed(dek, nonce, TextPayload(s.text)), nonce, s.kind, s.target)
  }

  function Stored(kek: Key, db: Db, drawn: nat, t: Uuid, name: string, s: Secret): Db {
    var keyed := DekEnsured(kek, db, drawn, t);
    match DekOf(kek, keyed, t)
    case None => db
    case Some(dek) =>
      keyed.(secrets := keyed.secrets[(t, name) := SealedSecret(dek, DrawnByDek(db, drawn, t), s)])
  }

  function Forgotten(db: Db, t: Uuid, name: string): Db {
    db.(secrets := db.secrets - {(t, name)})
  }

  class VaultService {
    const vault: EnvelopeVault

    constructor (vault: EnvelopeVault)
      ensures this.vault == vault
    {
      this.vault := vault;
    }

    method EnsureTenantDek(session: Session, t: Uuid) returns (r: Result<Key>)
      modifies session`db, vault
      ensures r.Ok? ==> session.db == DekEnsured(vault.kek, old(session.db), old(vault.drawn), t)
      ensures r.Ok? ==> vault.drawn == DrawnByDek(old(session.db), old(vault.drawn), t)
      ensures r.Ok? ==> DekOf(vault.kek, session.db, t) == Some(r.value)
      ensures r == Err(IntegrityError) ==> t !in old(session.db.tenants) && t !in old(session.db.deks)
      ensures r == Err(InvalidTag) ==> t in old(session.db.deks) && DekOf(vault.kek, old(session.db), t) == None
      ensures r.Err? ==> r.error in {IntegrityError, InvalidTag, DatabaseError}
      ensures old(vault.drawn) <= vault.drawn
      ensures t in old(session.db.deks) ==> session.db == old(session.db)
      ensures r.Ok? ==> KeyUsable(vault.kek, old(session.db), t)
      ensures session.reliable && KeyUsable(vault.kek, old(session.db), t) ==> r.Ok?
      ensures session.reliable ==> r != Err(DatabaseError)
    {
      var ok := session.Await();
      if !ok {
        return Err(DatabaseError);
      }
      if t in session.db.deks {
        var row := session.db.deks[t];
        match OpenKey(vault.kek, row.nonce, row.encryptedDek) {
          case Some(dek) => return Ok(dek);
          case None => return Err(InvalidTag);
        }
      }
      var dek := vault.GenerateDek();
      var encDek, nonce := vault.EncryptDek(dek);
      ok := session.Await();
      if !ok {
        return Err(DatabaseError);
      }
      if t !in session.db.tenants {
        return Err(IntegrityError);
      }
      session.db := session.db.(deks := session.db.deks[t := DekRow(encDek, nonce)]);
      return Ok(dek);
    }

    method StoreSecret(session: Session, t: Uuid, name: string, s: Secret) returns (r: Result<()>)
      modifies session`db, vault
      ensures r.Ok? ==> session.db == Stored(vault.kek, old(session.db), old(vault.drawn), t, name, s)
      ensures r.Ok? ==> DekOf(vault.kek, session.db, t).Some? && KeyUsable(vault.kek, session.db, t)
      ensures r == Err(IntegrityError) ==> t !in old(session.db.tenants)
      ensures r == Err(InvalidTag) ==> t in old(session.db.deks) && DekOf(vault.kek, old(session.db), t) == None
      ensures r.Err? ==> r.error in {IntegrityError, InvalidTag, DatabaseError}
      ensures r.Ok? ==> KeyUsable(vault.kek, old(session.db), t)
      ensures r.Ok? ==> t in old(session.db.tenants) || (t, name) in old(session.db.secrets)
      ensures session.reliable && t in old(session.db.tenants) && KeyUsable(vault.kek, old(session.db), t) ==> r.Ok?
      ensures old(vault.drawn) <= vault.drawn
    {
      var dek := EnsureTenantDek(session, t);
      if dek.Err? {
        return Err(dek.error);
      }
      var ct, nonce := vault.EncryptValue(dek.value, s.text);
      var ok := session.Await();
      if !ok {
        return Err(DatabaseError);
      }
      if (t, name) in session.db.secrets {
        var existing := session.db.secrets[(t, name)];
        existing := existing.(ciphertext := ct, nonce := nonce);
        existing := existing.(kind := s.kind, target := s.target);
        session.db := session.db.(secrets := session.db.secrets[(t, name) := existing]);
      } else {
        if t !in session.db.tenants {
          return Err(IntegrityError);
        }
        var row := SecretRow(ct, nonce, s.kind, s.target);
        session.db := session.db.(secrets := session.db.secrets[(t, name) := row]);
      }
      ok := session.Await();
      return if ok then Ok(()) else Err(DatabaseError);
    }

    /** The selected rows decrypted into one dictionary; of two rows for a variable the later one stays. */
    method DecryptRows(session: Session, t: Uuid, dek: Key, rows: seq<string>) returns (r: Result<map<string, string>>)
      requires DekOf(vault.kek, session.db, t) == Some(dek)
      requires forall n :: n in rows <==> (t, n) in session.db.secrets
      ensures r.Ok? ==> Retrieves(vault.kek, session.db, t, r.value)
      ensures r.Ok? <==> TenantReadable(vault.kek, session.db, t)
      ensures r.Err? ==> r.error == InvalidTag
    {
      hide DekOf, EnvKey;
      var result: map<string, string> := map[];
      for i := 0 to |rows|
        invariant forall k :: 0 <= k < i ==> TextOf(vault.kek, session.db, t, rows[k]).Some?
        invariant forall k :: 0 <= k < i ==> EnvKey(session.db.secrets[(t, rows[k])].target, rows[k]) in result
        invariant forall v :: v in result ==> exists k ::
          && 0 <= k < i
          && EnvKey(session.db.secrets[(t, rows[k])].target, rows[k]) == v
          && TextOf(vault.kek, session.db, t, rows[k]) == Some(result[v])
      {
        assert rows[i] in rows;
        var row := session.db.secrets[(t, rows[i])];
        match OpenText(dek, row.nonce, row.ciphertext) {
          case None =>
            assert TextOf(vault.kek, session.db, t, rows[i]) == None;
            return Err(InvalidTag);
          case Some(text) =>
            result := result[EnvKey(row.target, rows[i]) := text];
        }
      }
      return Ok(result);
    }

    method GetDecryptedSecrets(session: Session, t: Uuid) returns (r: Result<map<string, string>>)
      modifies session`db, vault
      ensures r.Ok? ==> session.db == DekEnsured(vault.kek, old(session.db), old(vault.drawn), t)
      ensures r.Ok? ==> vault.drawn == DrawnByDek(old(session.db), old(vault.drawn), t)
      ensures r.Ok? ==> Fetched(vault.kek, old(session.db), old(vault.drawn), t, r.value)
      ensures r == Err(IntegrityError) ==> t !in old(session.db.tenants)
      ensures r.Err? ==> r.error in {IntegrityError, InvalidTag, DatabaseError}
      ensures r.Err? && r != Err(DatabaseError) ==> !Fetchable(vault.kek, old(session.db), old(vault.drawn), t)
      ensures session.reliable ==> r != Err(DatabaseError)
      ensures old(vault.drawn) <= vault.drawn
    {
      hide Retrieves, EnvKey;
      var dek := EnsureTenantDek(session, t);
      if dek.Err? {
        return Err(dek.error);
      }
      var ok := session.Await();
      if !ok {
        return Err(DatabaseError);
      }
      var rows := session.SelectSecretNames(t);
      r := DecryptRows(session, t, dek.value, rows);
    }

    method DeleteSecret(session: Session, t: Uuid, name: string) returns (r: Result<bool>)
      modifies session`db
      ensures r.Ok? ==> session.db == Forgotten(old(session.db), t, name)
      ensures r.Ok? ==> (r.value <==> (t, name) in old(session.db.secrets))
      ensures r.Err? ==> r.error == DatabaseError
    {
      var ok := session.Await();
      if !ok {
        return Err(DatabaseError);
      }
      if (t, name) in session.db.secrets {
        session.db := session.db.(secrets := session.db.secrets - {(t, name)});
        return Ok(true);
      }
      assert session.db.secrets - {(t, name)} == session.db.secrets;
      return Ok(false);
    }
  }
}
