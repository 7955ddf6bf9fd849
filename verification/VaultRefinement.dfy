/**
 Every sequence of secret operations, over any number of tenants, simulates the
 same operations on a plain map; and no tenant's values open under another key.
 */
module VaultRefinement {
  import opened Prelude
  import opened Naming
  import opened Envelope
  import opened Database
  import opened Vault

  datatype State = State(db: Db, drawn: nat)

  datatype Op =
    | AddTenant(t: Uuid, row: TenantRow)
    | DropTenant(t: Uuid)
    | Put(t: Uuid, name: string, secret: Secret)
    | Remove(t: Uuid, name: string)
    | Fetch(t: Uuid)

  /** One committed operation; a Put or Fetch for an unknown tenant violates a foreign key and rolls back. */
  function Step(kek: Key, st: State, op: Op): State {
    match op
    case AddTenant(t, row) =>
      if t in st.db.tenants then st else st.(db := st.db.(tenants := st.db.tenants[t := row]))
    case DropTenant(t) => st.(db := Cascaded(st.db, t))
    case Put(t, name, s) =>
      if t !in st.db.tenants then st
      else State(Stored(kek, st.db, st.drawn, t, name, s), DrawnByDek(st.db, st.drawn, t) + 1)
    case Remove(t, name) => st.(db := Forgotten(st.db, t, name))
    case Fetch(t) =>
      if t !in st.db.tenants then st
      else State(DekEnsured(kek, st.db, st.drawn, t), DrawnByDek(st.db, st.drawn, t))
  }

  function Run(kek: Key, st: State, ops: seq<Op>): State
    decreases |ops|
  {
    if ops == [] then st else Run(kek, Step(kek, st, ops[0]), ops[1..])
  }

  datatype Plain = Plain(tenants: set<Uuid>, items: map<(Uuid, string), Secret>)

  function PlainStep(p: Plain, op: Op): Plain {
    match op
    case AddTenant(t, _) => p.(tenants := p.tenants + {t})
    case DropTenant(t) => Plain(p.tenants - {t}, map k | k in p.items && k.0 != t :: p.items[k])
    case Put(t, name, s) => if t in p.tenants then p.(items := p.items[(t, name) := s]) else p
    case Remove(t, name) => p.(items := p.items - {(t, name)})
    case Fetch(_) => p
  }

  function PlainRun(p: Plain, ops: seq<Op>): Plain
    decreases |ops|
  {
    if ops == [] then p else PlainRun(PlainStep(p, ops[0]), ops[1..])
  }

  ghost function Abstraction(kek: Key, st: State): Plain {
    Plain(st.db.tenants.Keys, Contents(kek, st.db))
  }

  ghost predicate DekDrawn(kek: Key, st: State, t: Uuid) {
    && t in st.db.tenants
    && DekOf(kek, st.db, t).Some?
    && kek.seed < DekOf(kek, st.db, t).value.seed < st.drawn
  }

  ghost predicate SealedByOwner(kek: Key, st: State, k: (Uuid, string))
    requires k in st.db.secrets
  {
    var row := st.db.secrets[k];
    && k.0 in st.db.deks
    && row.nonce < st.drawn
    && row.ciphertext.nonce == row.nonce
    && Some(row.ciphertext.key) == DekOf(kek, st.db, k.0)
    && row.ciphertext.payload.TextPayload?
  }

  ghost predicate DeksDiffer(kek: Key, db: Db, t: Uuid, u: Uuid) {
    t in db.deks && u in db.deks && t != u ==> DekOf(kek, db, t) != DekOf(kek, db, u)
  }

  ghost predicate NoncesDiffer(db: Db, k: (Uuid, string), l: (Uuid, string)) {
    k in db.secrets && l in db.secrets && k != l ==> db.secrets[k].nonce != db.secrets[l].nonce
  }

  /** One data key per tenant, all drawn from the supply and all different. */
  ghost predicate DeksKeyed(kek: Key, st: State) {
    && kek.seed < st.drawn
    && (forall t :: t in st.db.deks ==> DekDrawn(kek, st, t))
    && (forall t, u {:trigger DeksDiffer(kek, st.db, t, u)} :: DeksDiffer(kek, st.db, t, u))
  }

  /** Every value sealed by its tenant's key, under a nonce of its own. */
  ghost predicate SecretsKeyed(kek: Key, st: State) {
    && (forall k :: k in st.db.secrets ==> SealedByOwner(kek, st, k))
    && (forall k, l {:trigger NoncesDiffer(st.db, k, l)} :: NoncesDiffer(st.db, k, l))
  }

  ghost predicate Keyed(kek: Key, st: State) {
    DeksKeyed(kek, st) && SecretsKeyed(kek, st)
  }

  lemma SealedOpens(kek: Key, st: State, k: (Uuid, string))
    requires k in st.db.secrets && SealedByOwner(kek, st, k)
    ensures TextOf(kek, st.db, k.0, k.1) == Some(st.db.secrets[k].ciphertext.payload.text)
  {
    assert k == (k.0, k.1);
  }

  lemma KeyedIsReadable(kek: Key, st: State)
    requires Keyed(kek, st)
    ensures Readable(kek, st.db)
  {
    forall t | t in st.db.deks ensures DekOf(kek, st.db, t).Some? {
      assert DekDrawn(kek, st, t);
    }
    forall t, name | (t, name) in st.db.secrets ensures TextOf(kek, st.db, t, name).Some? {
      SealedOpens(kek, st, (t, name));
    }
  }

  /** Under the invariant the plain map can be read off the rows. */
  ghost function Plaintexts(db: Db): map<(Uuid, string), Secret> {
    map k | k in db.secrets && db.secrets[k].ciphertext.payload.TextPayload? ::
      Secret(db.secrets[k].ciphertext.payload.text, db.secrets[k].kind, db.secrets[k].target)
  }

  lemma ContentsArePlaintexts(kek: Key, st: State)
    requires SecretsKeyed(kek, st)
    ensures Contents(kek, st.db) == Plaintexts(st.db)
    ensures Contents(kek, st.db).Keys == st.db.secrets.Keys
  {
    forall k | k in st.db.secrets
      ensures TextOf(kek, st.db, k.0, k.1) == Some(st.db.secrets[k].ciphertext.payload.text)
      ensures st.db.secrets[k].ciphertext.payload.TextPayload?
    {
      assert SealedByOwner(kek, st, k);
      SealedOpens(kek, st, k);
    }
  }

  /** Keys that keep their owners, and a supply that only grows, keep every old seal good. */
  lemma SealsSurvive(kek: Key, a: State, b: State)
    requires SecretsKeyed(kek, a) && a.drawn <= b.drawn
    requires forall k :: k in b.db.secrets ==> k in a.db.secrets && b.db.secrets[k] == a.db.secrets[k]
    requires forall k :: k in b.db.secrets ==> k.0 in b.db.deks && DekOf(kek, b.db, k.0) == DekOf(kek, a.db, k.0)
    ensures SecretsKeyed(kek, b)
  {
    forall k | k in b.db.secrets ensures SealedByOwner(kek, b, k) {
      assert SealedByOwner(kek, a, k);
    }
    forall k, l ensures NoncesDiffer(b.db, k, l) {
      assert NoncesDiffer(a.db, k, l);
    }
  }

  lemma OwnersHaveDeks(kek: Key, st: State)
    requires SecretsKeyed(kek, st)
    ensures forall k :: k in st.db.secrets ==> k.0 in st.db.deks
  {
    forall k | k in st.db.secrets ensures k.0 in st.db.deks {
      assert SealedByOwner(kek, st, k);
    }
  }

  lemma NewDek(kek: Key, st: State, t: Uuid)
    ensures
      var after := DekEnsured(kek, st.db, st.drawn, t);
      && after == st.db.(deks := after.deks)
      && after.deks.Keys == st.db.deks.Keys + {t}
      && (forall u :: u in st.db.deks ==> DekOf(kek, after, u) == DekOf(kek, st.db, u))
      && (t !in st.db.deks ==> DekOf(kek, after, t) == Some(Key(st.drawn)))
  {
  }

  lemma EnsureKeepsDeks(kek: Key, st: State, t: Uuid)
    requires DeksKeyed(kek, st) && t in st.db.tenants
    ensures DeksKeyed(kek, State(DekEnsured(kek, st.db, st.drawn, t), DrawnByDek(st.db, st.drawn, t)))
    ensures forall u :: u in st.db.deks ==> DekOf(kek, DekEnsured(kek, st.db, st.drawn, t), u) == DekOf(kek, st.db, u)
  {
    hide DekOf, DekEnsured;
    NewDek(kek, st, t);
    var after := State(DekEnsured(kek, st.db, st.drawn, t), DrawnByDek(st.db, st.drawn, t));
    forall u | u in after.db.deks ensures DekDrawn(kek, after, u) {
      if u in st.db.deks {
        assert DekDrawn(kek, st, u);
      }
    }
    forall u, v ensures DeksDiffer(kek, after.db, u, v) {
      assert DeksDiffer(kek, st.db, u, v);
      assert u in st.db.deks ==> DekDrawn(kek, st, u);
      assert v in st.db.deks ==> DekDrawn(kek, st, v);
    }
  }

  lemma DeksSurvive(kek: Key, a: State, b: State)
    requires DeksKeyed(kek, a) && a.drawn <= b.drawn
    requires forall t :: t in b.db.deks ==> t in a.db.deks && b.db.deks[t] == a.db.deks[t] && t in b.db.tenants
    ensures DeksKeyed(kek, b)
    ensures forall t :: t in b.db.deks ==> DekOf(kek, b.db, t) == DekOf(kek, a.db, t)
  {
    forall t | t in b.db.deks ensures DekDrawn(kek, b, t) {
      assert DekDrawn(kek, a, t);
    }
    forall t, u ensures DeksDiffer(kek, b.db, t, u) {
      assert DeksDiffer(kek, a.db, t, u);
    }
  }

  lemma DeksHaveTenants(kek: Key, st: State)
    requires DeksKeyed(kek, st)
    ensures forall t :: t in st.db.deks ==> t in st.db.tenants
  {
    forall t | t in st.db.deks ensures t in st.db.tenants {
      assert DekDrawn(kek, st, t);
    }
  }

  lemma FetchStep(kek: Key, st: State, t: Uuid)
    requires Keyed(kek, st) && t in st.db.tenants
    ensures Keyed(kek, Step(kek, st, Fetch(t)))
    ensures Contents(kek, Step(kek, st, Fetch(t)).db) == Contents(kek, st.db)
  {
    EnsureKeepsDeks(kek, st, t);
    OwnersHaveDeks(kek, st);
    SealsSurvive(kek, st, Step(kek, st, Fetch(t)));
    ContentsArePlaintexts(kek, st);
    ContentsArePlaintexts(kek, Step(kek, st, Fetch(t)));
  }

  lemma PutStep(kek: Key, st: State, t: Uuid, name: string, s: Secret)
    requires Keyed(kek, st) && t in st.db.tenants
    ensures Keyed(kek, Step(kek, st, Put(t, name, s)))
    ensures Contents(kek, Step(kek, st, Put(t, name, s)).db) == Contents(kek, st.db)[(t, name) := s]
  {
    FetchStep(kek, st, t);
    var keyed := Step(kek, st, Fetch(t));
    assert DekDrawn(kek, keyed, t);
    var after := Step(kek, st, Put(t, name, s));
    var row := SealedSecret(DekOf(kek, keyed.db, t).value, keyed.drawn, s);
    assert after == State(keyed.db.(secrets := keyed.db.secrets[(t, name) := row]), keyed.drawn + 1);
    PutRow(kek, keyed, after, t, name, s);
  }

  lemma PutRow(kek: Key, st: State, after: State, t: Uuid, name: string, s: Secret)
    requires Keyed(kek, st) && t in st.db.deks
    requires DekOf(kek, st.db, t).Some?
    requires after == State(
      st.db.(secrets := st.db.secrets[(t, name) := SealedSecret(DekOf(kek, st.db, t).value, st.drawn, s)]),
      st.drawn + 1)
    ensures Keyed(kek, after)
    ensures Contents(kek, after.db) == Contents(kek, st.db)[(t, name) := s]
  {
    PutRowSeals(kek, st, after, t, name, s);
    ContentsArePlaintexts(kek, st);
    ContentsArePlaintexts(kek, after);
  }

  lemma PutRowSeals(kek: Key, st: State, after: State, t: Uuid, name: string, s: Secret)
    requires Keyed(kek, st) && t in st.db.deks
    requires DekOf(kek, st.db, t).Some?
    requires after == State(
      st.db.(secrets := st.db.secrets[(t, name) := SealedSecret(DekOf(kek, st.db, t).value, st.drawn, s)]),
      st.drawn + 1)
    ensures Keyed(kek, after)
  {
    hide DekOf;
    DeksHaveTenants(kek, st);
    DeksSurvive(kek, st, after);
    forall k | k in after.db.secrets
      ensures SealedByOwner(kek, after, k)
      ensures k != (t, name) ==> after.db.secrets[k].nonce < st.drawn
    {
      assert k != (t, name) ==> SealedByOwner(kek, st, k);
    }
    forall k, l ensures NoncesDiffer(after.db, k, l) {
      assert NoncesDiffer(st.db, k, l);
    }
  }

  lemma DropStep(kek: Key, st: State, t: Uuid)
    requires Keyed(kek, st)
    ensures Keyed(kek, Step(kek, st, DropTenant(t)))
    ensures Abstraction(kek, Step(kek, st, DropTenant(t))) == PlainStep(Abstraction(kek, st), DropTenant(t))
  {
    var after := Step(kek, st, DropTenant(t));
    DeksHaveTenants(kek, st);
    DeksSurvive(kek, st, after);
    OwnersHaveDeks(kek, st);
    SealsSurvive(kek, st, after);
    ContentsArePlaintexts(kek, st);
    ContentsArePlaintexts(kek, after);
  }

  lemma RemoveStep(kek: Key, st: State, t: Uuid, name: string)
    requires Keyed(kek, st)
    ensures Keyed(kek, Step(kek, st, Remove(t, name)))
    ensures Contents(kek, Step(kek, st, Remove(t, name)).db) == Contents(kek, st.db) - {(t, name)}
  {
    var after := Step(kek, st, Remove(t, name));
    DeksHaveTenants(kek, st);
    DeksSurvive(kek, st, after);
    OwnersHaveDeks(kek, st);
    SealsSurvive(kek, st, after);
    ContentsArePlaintexts(kek, st);
    ContentsArePlaintexts(kek, after);
  }

  lemma AddStep(kek: Key, st: State, t: Uuid, row: TenantRow)
    requires Keyed(kek, st)
    ensures Keyed(kek, Step(kek, st, AddTenant(t, row)))
    ensures Contents(kek, Step(kek, st, AddTenant(t, row)).db) == Contents(kek, st.db)
    ensures Step(kek, st, AddTenant(t, row)).db.tenants.Keys == st.db.tenants.Keys + {t}
  {
    var after := Step(kek, st, AddTenant(t, row));
    DeksHaveTenants(kek, st);
    DeksSurvive(kek, st, after);
    OwnersHaveDeks(kek, st);
    SealsSurvive(kek, st, after);
    ContentsArePlaintexts(kek, st);
    ContentsArePlaintexts(kek, after);
  }

  lemma StepSimulates(kek: Key, st: State, op: Op)
    requires Keyed(kek, st)
    ensures Keyed(kek, Step(kek, st, op))
    ensures Abstraction(kek, Step(kek, st, op)) == PlainStep(Abstraction(kek, st), op)
  {
    match op
    case AddTenant(t, row) => AddStep(kek, st, t, row);
    case DropTenant(t) => DropStep(kek, st, t);
    case Put(t, name, s) => if t in st.db.tenants { PutStep(kek, st, t, name, s); }
    case Remove(t, name) => RemoveStep(kek, st, t, name);
    case Fetch(t) => if t in st.db.tenants { FetchStep(kek, st, t); }
  }

  /** The encrypted store is a plain map to its callers, over every run. */
  lemma {:induction false} RunSimulates(kek: Key, st: State, ops: seq<Op>)
    requires Keyed(kek, st)
    ensures Keyed(kek, Run(kek, st, ops)) && Readable(kek, Run(kek, st, ops).db)
    ensures Abstraction(kek, Run(kek, st, ops)) == PlainRun(Abstraction(kek, st), ops)
    decreases |ops|
  {
    if ops == [] {
      KeyedIsReadable(kek, st);
    } else {
      StepSimulates(kek, st, ops[0]);
      RunSimulates(kek, Step(kek, st, ops[0]), ops[1..]);
    }
  }

  /** Retrieval after any run returns the plain map of that run, re-keyed by target or name. */
  lemma RetrievalIsRekeying(kek: Key, st: State, ops: seq<Op>, t: Uuid, d: map<string, string>)
    requires Keyed(kek, st)
    ensures Retrieves(kek, Run(kek, st, ops).db, t, d) <==> Rekeyed(PlainRun(Abstraction(kek, st), ops).items, t, d)
  {
    RunSimulates(kek, st, ops);
    var after := Run(kek, st, ops);
    var items := Contents(kek, after.db);
    ContentsArePlaintexts(kek, after);
    forall name | (t, name) in after.db.secrets
      ensures TextOf(kek, after.db, t, name) == Some(items[(t, name)].text)
      ensures items[(t, name)].target == after.db.secrets[(t, name)].target
    {
      SealedOpens(kek, after, (t, name));
    }
    assert forall name :: (t, name) in items <==> (t, name) in after.db.secrets;
  }

  /** With distinct variables the dictionary is the same whatever order the rows come in. */
  lemma RetrievalUnique(items: map<(Uuid, string), Secret>, t: Uuid, d1: map<string, string>, d2: map<string, string>)
    requires Rekeyed(items, t, d1) && Rekeyed(items, t, d2)
    requires forall a, b :: (t, a) in items && (t, b) in items && a != b ==>
      EnvKey(items[(t, a)].target, a) != EnvKey(items[(t, b)].target, b)
    ensures d1 == d2
  {
    forall v | v in d1 ensures v in d2 && d2[v] == d1[v] {
      var name :| (t, name) in items && EnvKey(items[(t, name)].target, name) == v && items[(t, name)].text == d1[v];
    }
    assert forall v :: v in d2 ==> v in d1;
  }

  /** No value of one tenant opens under another tenant's data key or under the master key. */
  lemma NoCrossTenantRead(kek: Key, st: State, ops: seq<Op>, t: Uuid, name: string, key: Key, nonce: nat)
    requires Keyed(kek, st)
    requires (t, name) in Run(kek, st, ops).db.secrets
    requires key == kek || exists u :: u != t && DekOf(kek, Run(kek, st, ops).db, u) == Some(key)
    ensures Open(key, nonce, Run(kek, st, ops).db.secrets[(t, name)].ciphertext) == None
  {
    RunSimulates(kek, st, ops);
    var after := Run(kek, st, ops);
    assert SealedByOwner(kek, after, (t, name));
    assert DekDrawn(kek, after, t);
    if key != kek {
      var u :| u != t && DekOf(kek, after.db, u) == Some(key);
      assert DeksDiffer(kek, after.db, t, u);
    }
  }
}
