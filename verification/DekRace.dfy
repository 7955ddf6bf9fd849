/**
 Concurrent transactions that read or create a tenant's data key and write its
 secrets. A transaction's writes stay its own until it commits. An insert of a
 key another transaction has inserted but not committed waits for that
 transaction; one that finds the key committed aborts. Row locks and the
 foreign key make a tenant's deletion wait for writers in the same way.
 */
module DekRace {
  import opened Prelude
  import opened Naming
  import opened Envelope
  import opened Database
  import opened Vault

  datatype Phase = Open | Committed | Aborted

  /** What the transaction knows of its tenant's data key. */
  datatype Looked = NotYet | Missing | Have(key: Key)

  datatype Txn = Txn(
    t: Uuid,
    phase: Phase,
    looked: Looked,
    newDek: Option<DekRow>,
    selected: Option<(string, bool)>,
    writes: map<string, SecretRow>,
    deletes: set<string>)

  /** `retired` remembers deleted tenants: identifiers are never drawn again. */
  datatype State = State(db: Db, retired: set<Uuid>, drawn: nat, txns: seq<Txn>)

  datatype Step =
    | Begin(t: Uuid)
    | LookDek(p: nat)
    | InsertDek(p: nat)
    | SelectSecret(p: nat, name: string)
    | WriteSecret(p: nat, secret: Secret)
    | DeleteRow(p: nat, name: string)
    | Commit(p: nat)
    | Abort(p: nat)
    | AddTenant(t: Uuid, row: TenantRow)
    | DropTenant(t: Uuid)

  predicate Writer(x: Txn) {
    x.phase.Open? && (x.newDek.Some? || x.writes != map[] || x.deletes != {})
  }

  /** Another open transaction holds the key row of the same tenant. */
  predicate DekBlocked(s: State, p: nat)
    requires p < |s.txns|
  {
    exists q :: 0 <= q < |s.txns| && q != p && s.txns[q].phase.Open? && s.txns[q].t == s.txns[p].t
                && s.txns[q].newDek.Some?
  }

  /** Another open transaction holds the secret's row. */
  predicate RowBlocked(s: State, p: nat, name: string)
    requires p < |s.txns|
  {
    exists q :: 0 <= q < |s.txns| && q != p && s.txns[q].phase.Open? && s.txns[q].t == s.txns[p].t
                && (name in s.txns[q].writes || name in s.txns[q].deletes)
  }

  predicate DropBlocked(s: State, t: Uuid) {
    exists q :: 0 <= q < |s.txns| && s.txns[q].t == t && Writer(s.txns[q])
  }

  predicate OpenAt(s: State, p: nat) {
    p < |s.txns| && s.txns[p].phase.Open?
  }

  predicate Enabled(s: State, step: Step) {
    match step
    case Begin(_) => true
    case LookDek(p) => OpenAt(s, p) && s.txns[p].looked.NotYet?
    case InsertDek(p) => OpenAt(s, p) && s.txns[p].looked.Missing? && !DekBlocked(s, p)
    case SelectSecret(p, _) => OpenAt(s, p)
    case WriteSecret(p, _) =>
      && OpenAt(s, p) && s.txns[p].looked.Have? && s.txns[p].selected.Some?
      && !RowBlocked(s, p, s.txns[p].selected.value.0)
    case DeleteRow(p, name) => OpenAt(s, p) && Visible(s, p, name) && !RowBlocked(s, p, name)
    case Commit(p) => OpenAt(s, p)
    case Abort(p) => OpenAt(s, p)
    case AddTenant(t, _) => t !in s.db.tenants && t !in s.retired
    case DropTenant(t) => t in s.db.tenants && !DropBlocked(s, t)
  }

  /** What a transaction sees of a secret: its own writes over the committed rows. */
  predicate Visible(s: State, p: nat, name: string)
    requires p < |s.txns|
  {
    name in s.txns[p].writes || ((s.txns[p].t, name) in s.db.secrets && name !in s.txns[p].deletes)
  }

  function RowSeen(s: State, p: nat, name: string): SecretRow
    requires p < |s.txns| && Visible(s, p, name)
  {
    if name in s.txns[p].writes then s.txns[p].writes[name] else s.db.secrets[(s.txns[p].t, name)]
  }

  function With(s: State, p: nat, x: Txn): State
    requires p < |s.txns|
  {
    s.(txns := s.txns[p := x])
  }

  function Published(db: Db, x: Txn): Db {
    var deks := if x.newDek.Some? then db.deks[x.t := x.newDek.value] else db.deks;
    var kept := map k | k in db.secrets && !(k.0 == x.t && k.1 in x.deletes) :: db.secrets[k];
    var mine := map k | k in (set name | name in x.writes :: (x.t, name)) :: x.writes[k.1];
    db.(deks := deks, secrets := kept + mine)
  }

  function Take(kek: Key, s: State, step: Step): State
    requires Enabled(s, step)
  {
    match step
    case Begin(t) => s.(txns := s.txns + [Txn(t, Open, NotYet, None, None, map[], {})])
    case LookDek(p) =>
      var x := s.txns[p];
      if x.t in s.db.deks then
        (match DekOf(kek, s.db, x.t)
         case Some(key) => With(s, p, x.(looked := Have(key)))
         case None => With(s, p, x.(phase := Aborted)))
      else With(s, p, x.(looked := Missing))
    case InsertDek(p) =>
      var x := s.txns[p];
      if x.t !in s.db.tenants || x.t in s.db.deks then With(s, p, x.(phase := Aborted))
      else
        var row := DekRow(Sealed(kek, s.drawn + 1, KeyPayload(Key(s.drawn))), s.drawn + 1);
        With(s, p, x.(newDek := Some(row), looked := Have(Key(s.drawn)))).(drawn := s.drawn + 2)
    case SelectSecret(p, name) =>
      With(s, p, s.txns[p].(selected := Some((name, Visible(s, p, name)))))
    case WriteSecret(p, secret) =>
      var x := s.txns[p];
      var (name, existed) := x.selected.value;
      var row := SealedSecret(x.looked.key, s.drawn, secret);
      var fits := if existed then Visible(s, p, name) else !Visible(s, p, name) && x.t in s.db.tenants;
      if fits then With(s, p, x.(writes := x.writes[name := row])).(drawn := s.drawn + 1)
      else With(s, p, x.(phase := Aborted))
    case DeleteRow(p, name) =>
      var x := s.txns[p];
      With(s, p, x.(writes := x.writes - {name}, deletes := x.deletes + {name}))
    case Commit(p) =>
      With(s, p, s.txns[p].(phase := Committed)).(db := Published(s.db, s.txns[p]))
    case Abort(p) => With(s, p, s.txns[p].(phase := Aborted))
    case AddTenant(t, row) => s.(db := s.db.(tenants := s.db.tenants[t := row]))
    case DropTenant(t) => s.(db := Cascaded(s.db, t), retired := s.retired + {t})
  }

  predicate Legal(kek: Key, s: State, steps: seq<Step>)
    decreases |steps|
  {
    steps != [] ==> Enabled(s, steps[0]) && Legal(kek, Take(kek, s, steps[0]), steps[1..])
  }

  function Run(kek: Key, s: State, steps: seq<Step>): State
    requires Legal(kek, s, steps)
    decreases |steps|
  {
    if steps == [] then s else Run(kek, Take(kek, s, steps[0]), steps[1..])
  }

  // --- The invariant of every interleaving ---

  predicate OpensWith(key: Key, row: SecretRow) {
    OpenText(key, row.nonce, row.ciphertext).Some?
  }

  ghost predicate DbInv(kek: Key, s: State) {
    && (forall t :: t in s.retired ==> t !in s.db.tenants)
    && (forall t :: t in s.db.deks ==> t in s.db.tenants && DekOf(kek, s.db, t).Some?)
    && (forall k :: k in s.db.secrets ==> SecretInv(kek, s.db, k))
  }

  ghost predicate SecretInv(kek: Key, db: Db, k: (Uuid, string))
    requires k in db.secrets
  {
    k.0 in db.deks && DekOf(kek, db, k.0).Some? && OpensWith(DekOf(kek, db, k.0).value, db.secrets[k])
  }

  ghost predicate TxnInv(kek: Key, s: State, x: Txn) {
    x.phase.Open? ==>
      && (x.looked.Have? && x.newDek.None? ==> x.t in s.retired || DekOf(kek, s.db, x.t) == Some(x.looked.key))
      && (x.newDek.Some? ==>
            && x.looked.Have?
            && x.t in s.db.tenants && x.t !in s.db.deks
            && OpenKey(kek, x.newDek.value.nonce, x.newDek.value.encryptedDek) == Some(x.looked.key))
      && (x.writes != map[] ==> x.looked.Have? && x.t in s.db.tenants)
      && (forall name :: name in x.writes ==> x.looked.Have? && OpensWith(x.looked.key, x.writes[name]))
  }

  /** At most one open transaction per tenant has inserted a key. */
  ghost predicate OneInserter(s: State, p: nat, q: nat) {
    p < |s.txns| && q < |s.txns| && p != q
    && s.txns[p].phase.Open? && s.txns[q].phase.Open? && s.txns[p].newDek.Some? && s.txns[q].newDek.Some?
    ==> s.txns[p].t != s.txns[q].t
  }

  ghost predicate Inv(kek: Key, s: State) {
    && DbInv(kek, s)
    && (forall p :: 0 <= p < |s.txns| ==> TxnInv(kek, s, s.txns[p]))
    && (forall p: nat, q: nat {:trigger OneInserter(s, p, q)} :: OneInserter(s, p, q))
  }

  lemma InvReadable(kek: Key, s: State)
    requires Inv(kek, s)
    ensures Readable(kek, s.db)
  {
    forall t, name | (t, name) in s.db.secrets ensures TextOf(kek, s.db, t, name).Some? {
      assert SecretInv(kek, s.db, (t, name));
    }
  }

  /** Steps that change one transaction and no committed row. */
  lemma PrivateStep(kek: Key, s: State, s': State, p: nat)
    requires Inv(kek, s) && p < |s.txns|
    requires |s'.txns| == |s.txns| && s' == s.(txns := s.txns[p := s'.txns[p]], drawn := s'.drawn)
    requires TxnInv(kek, s', s'.txns[p])
    requires s'.txns[p].t == s.txns[p].t
    requires s'.txns[p].phase.Open? && s'.txns[p].newDek.Some? ==>
      s.txns[p].phase.Open? && (s.txns[p].newDek.Some? || !DekBlocked(s, p))
    ensures Inv(kek, s')
  {
    forall q | 0 <= q < |s'.txns| ensures TxnInv(kek, s', s'.txns[q]) {
      assert TxnInv(kek, s, s.txns[q]);
    }
    forall a: nat, b: nat ensures OneInserter(s', a, b) {
      assert OneInserter(s, a, b);
    }
  }

  lemma LookKeeps(kek: Key, s: State, step: Step)
    requires Inv(kek, s) && Enabled(s, step) && step.LookDek?
    ensures Inv(kek, Take(kek, s, step))
  {
    assert TxnInv(kek, s, s.txns[step.p]);
    PrivateStep(kek, s, Take(kek, s, step), step.p);
  }

  lemma InsertKeeps(kek: Key, s: State, step: Step)
    requires Inv(kek, s) && Enabled(s, step) && step.InsertDek?
    ensures Inv(kek, Take(kek, s, step))
  {
    assert TxnInv(kek, s, s.txns[step.p]);
    PrivateStep(kek, s, Take(kek, s, step), step.p);
  }

  /** A committed row of a tenant opens with the key every transaction of that tenant has found. */
  lemma FoundKeyOpens(kek: Key, s: State, x: Txn, name: string)
    requires DbInv(kek, s) && TxnInv(kek, s, x) && x.phase.Open? && x.looked.Have? && (x.t, name) in s.db.secrets
    ensures OpensWith(x.looked.key, s.db.secrets[(x.t, name)]) && x.t in s.db.tenants && x.newDek.None?
  {
    assert SecretInv(kek, s.db, (x.t, name));
  }

  lemma WriteKeeps(kek: Key, s: State, step: Step)
    requires Inv(kek, s) && Enabled(s, step) && step.WriteSecret?
    ensures Inv(kek, Take(kek, s, step))
  {
    var x := s.txns[step.p];
    assert TxnInv(kek, s, x);
    var name := x.selected.value.0;
    if (x.t, name) in s.db.secrets {
      FoundKeyOpens(kek, s, x, name);
    }
    PrivateStep(kek, s, Take(kek, s, step), step.p);
  }

  lemma QuietStepKeeps(kek: Key, s: State, step: Step)
    requires Inv(kek, s) && Enabled(s, step) && (step.SelectSecret? || step.DeleteRow? || step.Abort?)
    ensures Inv(kek, Take(kek, s, step))
  {
    assert TxnInv(kek, s, s.txns[step.p]);
    PrivateStep(kek, s, Take(kek, s, step), step.p);
  }

  lemma BeginKeeps(kek: Key, s: State, step: Step)
    requires Inv(kek, s) && step.Begin?
    ensures Inv(kek, Take(kek, s, step))
  {
    var s' := Take(kek, s, step);
    forall q | 0 <= q < |s'.txns| ensures TxnInv(kek, s', s'.txns[q]) {
      assert q < |s.txns| ==> TxnInv(kek, s, s.txns[q]);
    }
    forall a: nat, b: nat ensures OneInserter(s', a, b) {
      assert OneInserter(s, a, b);
    }
  }

  lemma TenantsKeep(kek: Key, s: State, step: Step)
    requires Inv(kek, s) && Enabled(s, step) && (step.AddTenant? || step.DropTenant?)
    ensures Inv(kek, Take(kek, s, step))
  {
    var s' := Take(kek, s, step);
    assert forall t :: t in s'.db.deks ==> DekOf(kek, s'.db, t) == DekOf(kek, s.db, t);
    forall k | k in s'.db.secrets ensures SecretInv(kek, s'.db, k) {
      assert SecretInv(kek, s.db, k);
    }
    forall q | 0 <= q < |s'.txns| ensures TxnInv(kek, s', s'.txns[q]) {
      assert TxnInv(kek, s, s.txns[q]);
    }
    forall a: nat, b: nat ensures OneInserter(s', a, b) {
      assert OneInserter(s, a, b);
    }
  }

  /** Publishing installs the inserted key, or leaves the tenant's key as every transaction knows it. */
  lemma PublishedKey(kek: Key, s: State, x: Txn)
    requires DbInv(kek, s) && TxnInv(kek, s, x) && x.phase.Open?
    ensures forall t :: t in s.db.deks ==> DekOf(kek, Published(s.db, x), t) == DekOf(kek, s.db, t)
    ensures x.writes != map[] ==> x.t in Published(s.db, x).deks
    ensures x.writes != map[] ==> DekOf(kek, Published(s.db, x), x.t) == Some(x.looked.key)
    ensures forall t :: t in Published(s.db, x).deks ==> t in s.db.deks || (t == x.t && x.newDek.Some?)
  {
  }

  lemma PublishedSecrets(kek: Key, s: State, x: Txn, k: (Uuid, string))
    requires DbInv(kek, s) && TxnInv(kek, s, x) && x.phase.Open? && k in Published(s.db, x).secrets
    ensures SecretInv(kek, Published(s.db, x), k)
  {
    PublishedKey(kek, s, x);
    if k.0 == x.t && k.1 in x.writes {
      assert Published(s.db, x).secrets[k] == x.writes[k.1] by {
        assert (x.t, k.1) == k;
      }
      assert x.writes != map[];
    } else {
      assert k in s.db.secrets && Published(s.db, x).secrets[k] == s.db.secrets[k];
      assert SecretInv(kek, s.db, k);
    }
  }

  lemma CommitKeeps(kek: Key, s: State, step: Step)
    requires Inv(kek, s) && Enabled(s, step) && step.Commit?
    ensures Inv(kek, Take(kek, s, step))
  {
    var x := s.txns[step.p];
    var s' := Take(kek, s, step);
    assert TxnInv(kek, s, x);
    PublishedKey(kek, s, x);
    forall k | k in s'.db.secrets ensures SecretInv(kek, s'.db, k) {
      PublishedSecrets(kek, s, x, k);
    }
    forall q | 0 <= q < |s'.txns| ensures TxnInv(kek, s', s'.txns[q]) {
      assert TxnInv(kek, s, s.txns[q]);
      assert OneInserter(s, step.p, q);
      assert OneInserter(s, q, step.p);
    }
    forall a: nat, b: nat ensures OneInserter(s', a, b) {
      assert OneInserter(s, a, b);
    }
  }

  lemma StepKeeps(kek: Key, s: State, step: Step)
    requires Inv(kek, s) && Enabled(s, step)
    ensures Inv(kek, Take(kek, s, step))
  {
    hide Inv, Take;
    match step
    case Begin(_) => BeginKeeps(kek, s, step);
    case LookDek(_) => LookKeeps(kek, s, step);
    case InsertDek(_) => InsertKeeps(kek, s, step);
    case WriteSecret(_, _) => WriteKeeps(kek, s, step);
    case SelectSecret(_, _) => QuietStepKeeps(kek, s, step);
    case DeleteRow(_, _) => QuietStepKeeps(kek, s, step);
    case Abort(_) => QuietStepKeeps(kek, s, step);
    case Commit(_) => CommitKeeps(kek, s, step);
    case AddTenant(_, _) => TenantsKeep(kek, s, step);
    case DropTenant(_) => TenantsKeep(kek, s, step);
  }

  lemma {:induction false} RunKeeps(kek: Key, s: State, steps: seq<Step>)
    requires Inv(kek, s) && Legal(kek, s, steps)
    ensures Inv(kek, Run(kek, s, steps))
    decreases |steps|
  {
    hide Inv, Take, Enabled;
    if steps != [] {
      StepKeeps(kek, s, steps[0]);
      RunKeeps(kek, Take(kek, s, steps[0]), steps[1..]);
    }
  }

  // --- The theorems ---

  /** In every interleaving, every committed secret opens under its tenant's one committed key. */
  lemma DekAgreement(kek: Key, s: State, steps: seq<Step>)
    requires Inv(kek, s) && Legal(kek, s, steps)
    ensures Readable(kek, Run(kek, s, steps).db)
    ensures forall k :: k in Run(kek, s, steps).db.secrets ==> k.0 in Run(kek, s, steps).db.deks
  {
    RunKeeps(kek, s, steps);
    var after := Run(kek, s, steps);
    InvReadable(kek, after);
    forall k | k in after.db.secrets ensures k.0 in after.db.deks {
      assert SecretInv(kek, after.db, k);
    }
  }

  /** Decryption never fails inside a transaction either: whatever it sees opens with the key it holds. */
  lemma ReadsSucceed(kek: Key, s: State, steps: seq<Step>, p: nat, name: string)
    requires Inv(kek, s) && Legal(kek, s, steps)
    requires OpenAt(Run(kek, s, steps), p) && Run(kek, s, steps).txns[p].looked.Have?
    requires Visible(Run(kek, s, steps), p, name)
    ensures OpensWith(Run(kek, s, steps).txns[p].looked.key, RowSeen(Run(kek, s, steps), p, name))
  {
    RunKeeps(kek, s, steps);
    var after := Run(kek, s, steps);
    assert TxnInv(kek, after, after.txns[p]);
    if name !in after.txns[p].writes {
      FoundKeyOpens(kek, after, after.txns[p], name);
    }
  }

  /** A committed key is never replaced: it lasts until its tenant is deleted. */
  lemma {:induction false} DekIsForGood(kek: Key, s: State, steps: seq<Step>, t: Uuid)
    requires Inv(kek, s) && Legal(kek, s, steps) && (t in s.retired || t in s.db.deks)
    ensures
      var after := Run(kek, s, steps);
      t in after.retired || (t in s.db.deks && t in after.db.deks && after.db.deks[t] == s.db.deks[t])
    decreases |steps|
  {
    if steps != [] {
      StepKeeps(kek, s, steps[0]);
      DekStays(kek, s, steps[0], t);
      DekIsForGood(kek, Take(kek, s, steps[0]), steps[1..], t);
    }
  }

  lemma DekStays(kek: Key, s: State, step: Step, t: Uuid)
    requires Inv(kek, s) && Enabled(s, step)
    ensures t in s.retired ==> t in Take(kek, s, step).retired
    ensures t in s.db.deks ==>
      || t in Take(kek, s, step).retired
      || (t in Take(kek, s, step).db.deks && Take(kek, s, step).db.deks[t] == s.db.deks[t])
  {
    if step.Commit? {
      assert TxnInv(kek, s, s.txns[step.p]);
    }
  }

  /** Nothing of the transaction has reached, or will reach, the committed rows. */
  predicate Empty(x: Txn) {
    x.newDek.None? && x.writes == map[]
  }

  /** It looked for a key, found none, and somebody else's is now committed. */
  predicate Lost(s: State, p: nat) {
    && p < |s.txns|
    && (s.txns[p].t in s.db.deks || s.txns[p].t in s.retired)
    && (s.txns[p].looked.Missing? || !s.txns[p].phase.Open?)
    && Empty(s.txns[p])
  }

  lemma LostStays(kek: Key, s: State, step: Step, p: nat)
    requires Inv(kek, s) && Enabled(s, step) && Lost(s, p)
    ensures Lost(Take(kek, s, step), p)
  {
    DekStays(kek, s, step, s.txns[p].t);
  }

  /**
   The loser of a creation race: once another transaction's key is committed, a
   transaction that found none writes nothing in any continuation, and its own
   attempt to insert a key aborts it.
   */
  lemma {:induction false} LoserWritesNothing(kek: Key, s: State, steps: seq<Step>, p: nat)
    requires Inv(kek, s) && Legal(kek, s, steps)
    requires OpenAt(s, p) && s.txns[p].looked.Missing? && s.txns[p].t in s.db.deks
    ensures Enabled(s, InsertDek(p)) ==> Take(kek, s, InsertDek(p)).txns[p].phase.Aborted?
    ensures Enabled(s, InsertDek(p)) ==> Take(kek, s, InsertDek(p)).db == s.db
    ensures p < |Run(kek, s, steps).txns| && Empty(Run(kek, s, steps).txns[p])
  {
    assert TxnInv(kek, s, s.txns[p]);
    LostForever(kek, s, steps, p);
  }

  lemma {:induction false} LostForever(kek: Key, s: State, steps: seq<Step>, p: nat)
    requires Inv(kek, s) && Legal(kek, s, steps) && Lost(s, p)
    ensures Lost(Run(kek, s, steps), p)
    decreases |steps|
  {
    if steps != [] {
      StepKeeps(kek, s, steps[0]);
      LostStays(kek, s, steps[0], p);
      LostForever(kek, Take(kek, s, steps[0]), steps[1..], p);
    }
  }

  // --- One transaction alone ---

  function Solo(db: Db, drawn: nat, t: Uuid): State {
    State(db, {}, drawn, [Txn(t, Open, NotYet, None, None, map[], {})])
  }

  function After(kek: Key, s: State, step: Step): State {
    if Enabled(s, step) then Take(kek, s, step) else s
  }

  /** The transaction's knowledge once it has looked for the key and, finding none, made it. */
  lemma SoloKey(kek: Key, db: Db, drawn: nat, t: Uuid)
    requires t in db.tenants && (t in db.deks ==> DekOf(kek, db, t).Some?)
    ensures
      var keyed := After(kek, After(kek, Solo(db, drawn, t), LookDek(0)), InsertDek(0));
      var after := DekEnsured(kek, db, drawn, t);
      && DekOf(kek, after, t).Some?
      && keyed == State(db, {}, DrawnByDek(db, drawn, t), [Txn(
           t, Open, Have(DekOf(kek, after, t).value),
           if t in db.deks then None else Some(after.deks[t]), None, map[], {})])
  {
  }

  /** The race's steps refine the whole operation: alone, they commit exactly what store_secret stores. */
  lemma SoloIsStore(kek: Key, db: Db, drawn: nat, t: Uuid, name: string, s: Secret)
    requires t in db.tenants && (t in db.deks ==> DekOf(kek, db, t).Some?)
    ensures
      var keyed := After(kek, After(kek, Solo(db, drawn, t), LookDek(0)), InsertDek(0));
      var written := After(kek, After(kek, keyed, SelectSecret(0, name)), WriteSecret(0, s));
      && Enabled(written, Commit(0))
      && Take(kek, written, Commit(0)).db == Stored(kek, db, drawn, t, name, s)
      && Take(kek, written, Commit(0)).txns[0].phase == Committed
  {
    SoloKey(kek, db, drawn, t);
    hide DekOf, DekEnsured;
    var keyed := After(kek, After(kek, Solo(db, drawn, t), LookDek(0)), InsertDek(0));
    var row := SealedSecret(keyed.txns[0].looked.key, keyed.drawn, s);
    var written := After(kek, After(kek, keyed, SelectSecret(0, name)), WriteSecret(0, s));
    assert written.txns[0].writes == map[name := row];
    SoloPublished(db, written.txns[0], name, row);
    SoloStored(kek, db, drawn, t, name, s);
  }

  /** And a deletion alone commits exactly what deleting a secret deletes. */
  lemma SoloIsDelete(kek: Key, db: Db, drawn: nat, t: Uuid, name: string)
    requires (t, name) in db.secrets
    ensures Enabled(Solo(db, drawn, t), DeleteRow(0, name))
    ensures
      var deleted := Take(kek, Solo(db, drawn, t), DeleteRow(0, name));
      && Enabled(deleted, Commit(0))
      && Take(kek, deleted, Commit(0)).db == db.(secrets := db.secrets - {(t, name)})
  {
    var deleted := Take(kek, Solo(db, drawn, t), DeleteRow(0, name));
    var after := Published(db, deleted.txns[0]).secrets;
    assert deleted.txns[0].writes == map[] && deleted.txns[0].deletes == {name};
    assert forall k :: k in after <==> k in db.secrets && k != (t, name);
    assert after == db.secrets - {(t, name)};
  }

  lemma SoloPublished(db: Db, x: Txn, name: string, row: SecretRow)
    requires x.writes == map[name := row] && x.deletes == {}
    ensures Published(db, x).secrets == db.secrets[(x.t, name) := row]
  {
    var after := Published(db, x).secrets;
    assert name in x.writes && forall n :: n in x.writes ==> n == name;
    assert forall k :: k in after <==> k in db.secrets || k == (x.t, name);
  }

  lemma SoloStored(kek: Key, db: Db, drawn: nat, t: Uuid, name: string, s: Secret)
    requires DekOf(kek, DekEnsured(kek, db, drawn, t), t).Some?
    ensures
      var keyed := DekEnsured(kek, db, drawn, t);
      var row := SealedSecret(DekOf(kek, keyed, t).value, DrawnByDek(db, drawn, t), s);
      Stored(kek, db, drawn, t, name, s) == db.(
        deks := if t in db.deks then db.deks else db.deks[t := keyed.deks[t]],
        secrets := db.secrets[(t, name) := row])
  {
  }

  /** Before the first request the invariant holds. */
  lemma EmptyHolds(kek: Key, drawn: nat)
    ensures Inv(kek, State(Db(map[], map[], map[], map[], map[], []), {}, drawn, []))
  {
  }
}
