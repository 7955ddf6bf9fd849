/**
 The rewrite of a tenant's openclaw.json. The file is a JSON tree; the rewrite
 owns a handful of paths in it and must leave every other path alone.
 */
module TenantConfig {
  import opened Prelude

  /** A JSON value; `Broken` is a text that is not JSON at all. */
  datatype Json =
    | Broken
    | Null
    | Bool(b: bool)
    | Num(n: int)
    | Str(s: string)
    | Arr(items: seq<Json>)
    | Obj(fields: map<string, Json>)

  type Path = seq<string>

  datatype ProviderSpec = ProviderSpec(
    envVar: string,
    providerName: string,
    modelId: string,
    modelName: string,
    displayName: string,
    baseUrl: Option<string>,
    apiType: Option<string>,
    builtin: bool)

  const GATEWAY_PORT: int := 18789
  const FALLBACK: string := "dangerouslyAllowHostHeaderOriginFallback"

  const EMPTY: Json := Obj(map[])

  // --- Trees and paths ---

  /** The value at a path, if the path leads anywhere. */
  function At(j: Json, p: Path): Option<Json>
    decreases |p|
  {
    if p == [] then Some(j)
    else if j.Obj? && p[0] in j.fields then At(j.fields[p[0]], p[1..])
    else None
  }

  function Child(j: Json, key: string): Json
    requires j.Obj?
  {
    if key in j.fields then j.fields[key] else EMPTY
  }

  /** Everything on the way to the path is an object or absent. */
  predicate Writable(j: Json, p: Path)
    decreases |p|
  {
    p == [] || (j.Obj? && Writable(Child(j, p[0]), p[1..]))
  }

  function Put(j: Json, p: Path, v: Json): Json
    requires Writable(j, p)
    decreases |p|
  {
    if p == [] then v
    else Obj(j.fields[p[0] := Put(Child(j, p[0]), p[1..], v)])
  }

  function Drop(j: Json, p: Path): Json
    requires Writable(j, p)
    decreases |p|
  {
    if p == [] || p[0] !in j.fields then j
    else if |p| == 1 then Obj(j.fields - {p[0]})
    else Obj(j.fields[p[0] := Drop(j.fields[p[0]], p[1..])])
  }

  /** Neither path leads through the other. */
  predicate Unrelated(p: Path, q: Path) {
    !(p <= q) && !(q <= p)
  }

  lemma UnrelatedTail(p: Path, q: Path)
    requires Unrelated(p, q)
    ensures p != [] && q != []
    ensures p[0] == q[0] ==> Unrelated(p[1..], q[1..])
  {
    assert p == [p[0]] + p[1..] && q == [q[0]] + q[1..];
  }

  lemma {:induction false} WritableIfPresent(j: Json, p: Path)
    requires At(j, p).Some?
    ensures Writable(j, p)
    decreases |p|
  {
    if p != [] {
      WritableIfPresent(j.fields[p[0]], p[1..]);
    }
  }

  lemma {:induction false} PutThenAt(j: Json, p: Path, v: Json)
    requires Writable(j, p)
    ensures At(Put(j, p, v), p) == Some(v)
    decreases |p|
  {
    if p != [] {
      PutThenAt(Child(j, p[0]), p[1..], v);
    }
  }

  lemma {:induction false} PutKeepsOthers(j: Json, p: Path, v: Json, q: Path)
    requires Writable(j, p) && Unrelated(p, q)
    ensures At(Put(j, p, v), q) == At(j, q)
    ensures Writable(Put(j, p, v), q) <==> Writable(j, q)
    decreases |p|
  {
    UnrelatedTail(p, q);
    if p[0] == q[0] {
      PutKeepsOthers(Child(j, p[0]), p[1..], v, q[1..]);
      if p[0] !in j.fields {
        UnrelatedTail(p[1..], q[1..]);
      }
    }
  }

  lemma {:induction false} PutPresent(j: Json, p: Path, v: Json)
    requires At(j, p) == Some(v)
    ensures Writable(j, p) && Put(j, p, v) == j
    decreases |p|
  {
    WritableIfPresent(j, p);
    if p != [] {
      PutPresent(j.fields[p[0]], p[1..], v);
      assert j.fields[p[0] := j.fields[p[0]]] == j.fields;
    }
  }

  lemma {:induction false} DropThenAt(j: Json, p: Path)
    requires Writable(j, p) && p != []
    ensures At(Drop(j, p), p) == None
    decreases |p|
  {
    if p[0] in j.fields && |p| > 1 {
      DropThenAt(j.fields[p[0]], p[1..]);
    }
  }

  lemma {:induction false} DropKeepsOthers(j: Json, p: Path, q: Path)
    requires Writable(j, p) && Unrelated(p, q)
    ensures At(Drop(j, p), q) == At(j, q)
    ensures Writable(Drop(j, p), q) <==> Writable(j, q)
    decreases |p|
  {
    UnrelatedTail(p, q);
    if p[0] == q[0] && p[0] in j.fields {
      UnrelatedTail(p[1..], q[1..]);
      DropKeepsOthers(j.fields[p[0]], p[1..], q[1..]);
    }
  }

  lemma {:induction false} DropAbsent(j: Json, p: Path)
    requires Writable(j, p) && At(j, p) == None
    ensures Drop(j, p) == j
    decreases |p|
  {
    if p[0] in j.fields && |p| > 1 {
      DropAbsent(j.fields[p[0]], p[1..]);
      assert j.fields[p[0] := j.fields[p[0]]] == j.fields;
    }
  }

  lemma {:induction false} DropKeepsWritable(j: Json, p: Path)
    requires Writable(j, p)
    ensures Writable(Drop(j, p), p)
    decreases |p|
  {
    if p != [] && p[0] in j.fields && |p| > 1 {
      DropKeepsWritable(j.fields[p[0]], p[1..]);
    }
  }

  // --- Batches of edits ---

  datatype Edit = Write(path: Path, value: Json) | Erase(path: Path)

  function Do(j: Json, e: Edit): Json
    requires Writable(j, e.path)
  {
    match e
    case Write(p, v) => Put(j, p, v)
    case Erase(p) => Drop(j, p)
  }

  function DoAll(j: Json, edits: seq<Edit>): (r: Result<Json>)
    ensures r.Err? ==> r.error == MalformedConfig
    decreases |edits|
  {
    if edits == [] then Ok(j)
    else if Writable(j, edits[0].path) then DoAll(Do(j, edits[0]), edits[1..])
    else Err(MalformedConfig)
  }

  predicate Independent(edits: seq<Edit>) {
    && (forall i :: 0 <= i < |edits| ==> edits[i].path != [])
    && (forall i, k :: 0 <= i < k < |edits| ==> Unrelated(edits[i].path, edits[k].path))
  }

  predicate Holds(j: Json, e: Edit) {
    At(j, e.path) == if e.Write? then Some(e.value) else None
  }

  predicate AllWritable(j: Json, edits: seq<Edit>) {
    forall i :: 0 <= i < |edits| ==> Writable(j, edits[i].path)
  }

  lemma DoKeepsOthers(j: Json, e: Edit, q: Path)
    requires Writable(j, e.path) && Unrelated(e.path, q)
    ensures At(Do(j, e), q) == At(j, q)
    ensures Writable(Do(j, e), q) <==> Writable(j, q)
  {
    match e
    case Write(p, v) => PutKeepsOthers(j, p, v, q);
    case Erase(p) => DropKeepsOthers(j, p, q);
  }

  lemma DoEstablishes(j: Json, e: Edit)
    requires Writable(j, e.path) && e.path != []
    ensures Holds(Do(j, e), e) && Writable(Do(j, e), e.path)
  {
    match e
    case Write(p, v) =>
      PutThenAt(j, p, v);
      WritableIfPresent(Do(j, e), p);
    case Erase(p) =>
      DropThenAt(j, p);
      DropKeepsWritable(j, p);
  }

  lemma DoneAlready(j: Json, e: Edit)
    requires Writable(j, e.path) && Holds(j, e)
    ensures Do(j, e) == j
  {
    match e
    case Write(p, v) => PutPresent(j, p, v);
    case Erase(p) => DropAbsent(j, p);
  }

  /** A batch of independent edits succeeds exactly when every edited path can be reached. */
  lemma {:induction false} BatchSucceeds(j: Json, edits: seq<Edit>)
    requires Independent(edits)
    ensures DoAll(j, edits).Ok? <==> AllWritable(j, edits)
    decreases |edits|
  {
    if edits != [] && Writable(j, edits[0].path) {
      var j' := Do(j, edits[0]);
      BatchSucceeds(j', edits[1..]);
      forall i | 1 <= i < |edits|
        ensures Writable(j', edits[i].path) <==> Writable(j, edits[i].path)
      {
        DoKeepsOthers(j, edits[0], edits[i].path);
      }
      assert forall i :: 1 <= i < |edits| ==> edits[i] == edits[1..][i - 1];
    }
  }

  /** A path none of the edits is related to keeps its value, or its absence. */
  lemma {:induction false} BatchKeepsOthers(j: Json, edits: seq<Edit>, q: Path)
    requires DoAll(j, edits).Ok?
    requires forall i :: 0 <= i < |edits| ==> Unrelated(edits[i].path, q)
    ensures At(DoAll(j, edits).value, q) == At(j, q)
    ensures Writable(DoAll(j, edits).value, q) <==> Writable(j, q)
    decreases |edits|
  {
    if edits != [] {
      DoKeepsOthers(j, edits[0], q);
      BatchKeepsOthers(Do(j, edits[0]), edits[1..], q);
    }
  }

  lemma {:induction false} BatchEstablishes(j: Json, edits: seq<Edit>, i: nat)
    requires Independent(edits) && i < |edits| && DoAll(j, edits).Ok?
    ensures Holds(DoAll(j, edits).value, edits[i])
    ensures Writable(DoAll(j, edits).value, edits[i].path)
    decreases |edits|
  {
    var j' := Do(j, edits[0]);
    if i == 0 {
      DoEstablishes(j, edits[0]);
      forall k | 0 <= k < |edits[1..]| ensures Unrelated(edits[1..][k].path, edits[0].path) {
        assert Unrelated(edits[0].path, edits[k + 1].path);
      }
      BatchKeepsOthers(j', edits[1..], edits[0].path);
    } else {
      BatchEstablishes(j', edits[1..], i - 1);
    }
  }

  lemma {:induction false} BatchDoneAlready(j: Json, edits: seq<Edit>)
    requires forall i :: 0 <= i < |edits| ==> Holds(j, edits[i]) && Writable(j, edits[i].path)
    ensures DoAll(j, edits) == Ok(j)
    decreases |edits|
  {
    if edits != [] {
      DoneAlready(j, edits[0]);
      BatchDoneAlready(j, edits[1..]);
    }
  }

  // --- The rewrite ---

  const GATEWAY_EDITS: seq<Edit> := [
    Write(["gateway", "bind"], Str("lan")),
    Write(["gateway", "port"], Num(GATEWAY_PORT)),
    Write(["gateway", "controlUi", FALLBACK], Bool(true))]

  function ProviderEntry(spec: ProviderSpec): Json {
    var key := map["apiKey" := Str("${" + spec.envVar + "}")];
    var url := if spec.baseUrl.Some? && spec.baseUrl.value != ""
               then map["baseUrl" := Str(spec.baseUrl.value)] else map[];
    var api := if spec.apiType.Some? && spec.apiType.value != ""
               then map["api" := Str(spec.apiType.value)] else map[];
    var model := Obj(map["id" := Str(spec.modelName), "name" := Str(spec.displayName)]);
    Obj(key + url + api + map["models" := Arr([model])])
  }

  function EntryPath(spec: ProviderSpec): Path {
    ["models", "providers", spec.providerName]
  }

  /** What the rewrite owns, and the value it gives each owned path. */
  function Edits(spec: Option<ProviderSpec>): seq<Edit> {
    match spec
    case None => GATEWAY_EDITS
    case Some(p) =>
      GATEWAY_EDITS
      + [Write(["agents", "defaults", "model"], Obj(map["primary" := Str(p.modelId)]))]
      + (if p.builtin then [Erase(EntryPath(p))]
         else [Write(["models", "mode"], Str("merge")), Write(EntryPath(p), ProviderEntry(p))])
  }

  function Configured(config: Json, spec: Option<ProviderSpec>): Result<Json> {
    DoAll(config, Edits(spec))
  }

  lemma DifferEarly(p: Path, q: Path)
    requires |p| >= 2 && |q| >= 2 && (p[0] != q[0] || p[1] != q[1])
    ensures Unrelated(p, q)
  {
  }

  lemma EditsIndependent(spec: Option<ProviderSpec>)
    ensures Independent(Edits(spec))
  {
    var edits := Edits(spec);
    forall i, k | 0 <= i < k < |edits| ensures Unrelated(edits[i].path, edits[k].path) {
      DifferEarly(edits[i].path, edits[k].path);
    }
  }

  /** The rewrite fails exactly when something it must walk through is not an object. */
  lemma ConfigureSucceeds(config: Json, spec: Option<ProviderSpec>)
    ensures Configured(config, spec).Ok? <==> AllWritable(config, Edits(spec))
  {
    EditsIndependent(spec);
    BatchSucceeds(config, Edits(spec));
  }

  lemma ConfigureIdempotent(config: Json, spec: Option<ProviderSpec>)
    requires Configured(config, spec).Ok?
    ensures Configured(Configured(config, spec).value, spec) == Configured(config, spec)
  {
    EditsIndependent(spec);
    var done := Configured(config, spec).value;
    forall i | 0 <= i < |Edits(spec)|
      ensures Holds(done, Edits(spec)[i]) && Writable(done, Edits(spec)[i].path)
    {
      BatchEstablishes(config, Edits(spec), i);
    }
    BatchDoneAlready(done, Edits(spec));
  }

  lemma ConfigurePreserves(config: Json, spec: Option<ProviderSpec>, q: Path)
    requires Configured(config, spec).Ok?
    requires forall i :: 0 <= i < |Edits(spec)| ==> Unrelated(Edits(spec)[i].path, q)
    ensures At(Configured(config, spec).value, q) == At(config, q)
  {
    BatchKeepsOthers(config, Edits(spec), q);
  }

  lemma ConfigureSelects(config: Json, p: ProviderSpec)
    requires Configured(config, Some(p)).Ok?
    ensures At(Configured(config, Some(p)).value, ["agents", "defaults", "model", "primary"]) == Some(Str(p.modelId))
    ensures At(Configured(config, Some(p)).value, ["models", "providers", p.providerName])
      == if p.builtin then None else Some(ProviderEntry(p))
  {
    hide At, ProviderEntry, DoAll, Independent, Writable;
    EditsIndependent(Some(p));
    var edits := Edits(Some(p));
    var done := Configured(config, Some(p)).value;
    BatchEstablishes(config, edits, 3);
    AtAppend(done, ["agents", "defaults", "model"], "primary");
    assert ["agents", "defaults", "model"] + ["primary"] == ["agents", "defaults", "model", "primary"];
    BatchEstablishes(config, edits, |edits| - 1);
  }

  /** Whatever the provider, the gateway listens to the edge on its port. */
  lemma ConfigureOpensGateway(config: Json, spec: Option<ProviderSpec>)
    requires Configured(config, spec).Ok?
    ensures
      var done := Configured(config, spec).value;
      && At(done, ["gateway", "bind"]) == Some(Str("lan"))
      && At(done, ["gateway", "port"]) == Some(Num(18789))
      && At(done, ["gateway", "controlUi", "dangerouslyAllowHostHeaderOriginFallback"]) == Some(Bool(true))
  {
    hide At, DoAll, Independent, Writable, ProviderEntry;
    EditsIndependent(spec);
    BatchEstablishes(config, Edits(spec), 0);
    BatchEstablishes(config, Edits(spec), 1);
    BatchEstablishes(config, Edits(spec), 2);
  }

  /** A custom provider's entry names its variable, its address and protocol where it has them, and its one model. */
  lemma ConfigureWritesEntry(config: Json, p: ProviderSpec)
    requires Configured(config, Some(p)).Ok? && !p.builtin
    ensures
      var done := Configured(config, Some(p)).value;
      var entry := At(done, ["models", "providers", p.providerName]);
      && At(done, ["models", "mode"]) == Some(Str("merge"))
      && entry.Some? && entry.value.Obj?
      && var fields := entry.value.fields;
      && "apiKey" in fields && fields["apiKey"] == Str("${" + p.envVar + "}")
      && ("baseUrl" in fields <==> p.baseUrl.Some? && p.baseUrl.value != "")
      && ("baseUrl" in fields ==> fields["baseUrl"] == Str(p.baseUrl.value))
      && ("api" in fields <==> p.apiType.Some? && p.apiType.value != "")
      && ("api" in fields ==> fields["api"] == Str(p.apiType.value))
      && "models" in fields
      && fields["models"] == Arr([Obj(map["id" := Str(p.modelName), "name" := Str(p.displayName)])])
      && fields.Keys <= {"apiKey", "baseUrl", "api", "models"}
  {
    hide At, DoAll, Independent, Writable;
    EditsIndependent(Some(p));
    BatchEstablishes(config, Edits(Some(p)), 4);
    BatchEstablishes(config, Edits(Some(p)), 5);
  }

  lemma {:induction false} AtAppend(j: Json, p: Path, key: string)
    ensures At(j, p + [key]) == match At(j, p) {
      case Some(Obj(fields)) => if key in fields then Some(fields[key]) else None
      case _ => None
    }
    decreases |p|
  {
    if p == [] {
      assert p + [key] == [key];
    } else {
      assert (p + [key])[1..] == p[1..] + [key];
      if j.Obj? && p[0] in j.fields {
        AtAppend(j.fields[p[0]], p[1..], key);
      }
    }
  }

  /**
   A custom provider's entry disappears when the provider of the same name is
   next configured as built in, whatever other rewrites came between the two.
   */
  lemma {:induction false} BuiltinRemovesStaleEntry(
    config: Json, custom: ProviderSpec, between: seq<Option<ProviderSpec>>, builtin: ProviderSpec)
    requires !custom.builtin && builtin.builtin && custom.providerName == builtin.providerName
    requires ConfiguredAll(config, [Some(custom)] + between + [Some(builtin)]).Ok?
    ensures At(Configured(config, Some(custom)).value, EntryPath(custom)).Some?
    ensures At(ConfiguredAll(config, [Some(custom)] + between + [Some(builtin)]).value, EntryPath(custom)) == None
  {
    var all := [Some(custom)] + between + [Some(builtin)];
    ConfigureSelects(config, custom);
    LastOfAll(config, [Some(custom)] + between, Some(builtin));
    var before := ConfiguredAll(config, [Some(custom)] + between).value;
    ConfigureSelects(before, builtin);
  }

  function ConfiguredAll(config: Json, specs: seq<Option<ProviderSpec>>): Result<Json>
    decreases |specs|
  {
    if specs == [] then Ok(config)
    else
      var r := Configured(config, specs[0]);
      if r.Ok? then ConfiguredAll(r.value, specs[1..]) else r
  }

  lemma {:induction false} LastOfAll(config: Json, specs: seq<Option<ProviderSpec>>, last: Option<ProviderSpec>)
    requires ConfiguredAll(config, specs + [last]).Ok?
    ensures ConfiguredAll(config, specs).Ok?
    ensures Configured(ConfiguredAll(config, specs).value, last) == ConfiguredAll(config, specs + [last])
    decreases |specs|
  {
    if specs != [] {
      assert (specs + [last])[0] == specs[0] && (specs + [last])[1..] == specs[1..] + [last];
      LastOfAll(Configured(config, specs[0]).value, specs[1..], last);
    } else {
      assert [last][1..] == [];
      assert specs + [last] == [last];
    }
  }

  // --- The rewrite as the program carries it out: dictionaries fetched, changed, put back ---

  lemma TwoDeep(j: Json, a: string, b: string)
    ensures Writable(j, [a, b]) <==> j.Obj? && Child(j, a).Obj?
    ensures Writable(j, [a, b]) ==> forall v ::
      Put(j, [a, b], v) == Obj(j.fields[a := Obj(Child(j, a).fields[b := v])])
  {
    assert [a, b][1..] == [b] && [b][1..] == [];
    if j.Obj? && Child(j, a).Obj? {
      assert Writable(Child(j, a), [b]);
      forall v ensures Put(j, [a, b], v) == Obj(j.fields[a := Obj(Child(j, a).fields[b := v])]) {
        assert Put(Child(j, a), [b], v) == Obj(Child(j, a).fields[b := v]);
      }
    }
  }

  lemma ThreeDeep(j: Json, a: string, b: string, c: string)
    ensures Writable(j, [a, b, c]) <==> j.Obj? && Writable(Child(j, a), [b, c])
    ensures Writable(j, [a, b, c]) ==> forall v ::
      Put(j, [a, b, c], v) == Obj(j.fields[a := Put(Child(j, a), [b, c], v)])
  {
    assert [a, b, c][1..] == [b, c];
  }

  lemma {:induction false} DoAllConcat(j: Json, first: seq<Edit>, second: seq<Edit>)
    ensures DoAll(j, first + second)
         == if DoAll(j, first).Ok? then DoAll(DoAll(j, first).value, second) else Err(MalformedConfig)
    decreases |first|
  {
    if first == [] {
      assert first + second == second;
    } else {
      assert (first + second)[0] == first[0] && (first + second)[1..] == first[1..] + second;
      if Writable(j, first[0].path) {
        DoAllConcat(Do(j, first[0]), first[1..], second);
      }
    }
  }

  lemma DoAllOne(j: Json, e: Edit)
    ensures DoAll(j, [e]) == if Writable(j, e.path) then Ok(Do(j, e)) else Err(MalformedConfig)
  {
    assert [e][1..] == [];
  }

  method RewriteGateway(original: Json) returns (r: Result<Json>)
    ensures r == DoAll(original, GATEWAY_EDITS)
  {
    var config := original;
    TwoDeep(config, "gateway", "bind");
    if !config.Obj? || !Child(config, "gateway").Obj? {
      return Err(MalformedConfig);
    }
    var gateway := Child(config, "gateway");
    gateway := Obj(gateway.fields["bind" := Str("lan")]);
    ghost var bound := Obj(config.fields["gateway" := gateway]);
    TwoDeep(bound, "gateway", "port");
    gateway := Obj(gateway.fields["port" := Num(GATEWAY_PORT)]);
    ghost var ported := Obj(config.fields["gateway" := gateway]);
    assert bound.fields["gateway" := gateway] == ported.fields;
    ThreeDeep(ported, "gateway", "controlUi", FALLBACK);
    TwoDeep(gateway, "controlUi", FALLBACK);
    ghost var last := GATEWAY_EDITS[2];
    assert DoAll(original, GATEWAY_EDITS) == DoAll(ported, [last]) by {
      assert GATEWAY_EDITS[1..][1..] == [last];
    }
    DoAllOne(ported, last);
    var controlUi := Child(gateway, "controlUi");
    if !controlUi.Obj? {
      return Err(MalformedConfig);
    }
    controlUi := Obj(controlUi.fields[FALLBACK := Bool(true)]);
    gateway := Obj(gateway.fields["controlUi" := controlUi]);
    config := Obj(config.fields["gateway" := gateway]);
    assert ported.fields["gateway" := gateway] == config.fields;
    return Ok(config);
  }

  method RewriteModel(original: Json, modelId: string) returns (r: Result<Json>)
    ensures r == DoAll(original, [Write(["agents", "defaults", "model"], Obj(map["primary" := Str(modelId)]))])
  {
    var config := original;
    DoAllOne(config, Write(["agents", "defaults", "model"], Obj(map["primary" := Str(modelId)])));
    ThreeDeep(config, "agents", "defaults", "model");
    if !config.Obj? {
      return Err(MalformedConfig);
    }
    var agents := Child(config, "agents");
    TwoDeep(agents, "defaults", "model");
    if !agents.Obj? || !Child(agents, "defaults").Obj? {
      return Err(MalformedConfig);
    }
    var defaults := Child(agents, "defaults");
    defaults := Obj(defaults.fields["model" := Obj(map["primary" := Str(modelId)])]);
    agents := Obj(agents.fields["defaults" := defaults]);
    config := Obj(config.fields["agents" := agents]);
    return Ok(config);
  }

  method RewriteBuiltin(original: Json, p: ProviderSpec) returns (r: Result<Json>)
    ensures r == DoAll(original, [Erase(EntryPath(p))])
  {
    DoAllOne(original, Erase(EntryPath(p)));
    ThreeDeep(original, "models", "providers", p.providerName);
    if !original.Obj? {
      return Err(MalformedConfig);
    }
    var models := Child(original, "models");
    TwoDeep(models, "providers", p.providerName);
    if !models.Obj? || !Child(models, "providers").Obj? {
      return Err(MalformedConfig);
    }
    assert EntryPath(p)[1..] == ["providers", p.providerName];
    assert ["providers", p.providerName][1..] == [p.providerName];
    if "models" !in original.fields || "providers" !in models.fields {
      // The popped entry belonged to a temporary dictionary.
      if "models" in original.fields {
        assert Drop(models, ["providers", p.providerName]) == models;
        assert original.fields["models" := models] == original.fields;
      }
      return Ok(original);
    }
    var providers := models.fields["providers"];
    assert Drop(models, ["providers", p.providerName])
        == Obj(models.fields["providers" := Drop(providers, [p.providerName])]);
    providers := Obj(providers.fields - {p.providerName});
    if p.providerName !in models.fields["providers"].fields {
      assert providers.fields == models.fields["providers"].fields;
    }
    models := Obj(models.fields["providers" := providers]);
    var config := Obj(original.fields["models" := models]);
    return Ok(config);
  }

  method RewriteCustom(original: Json, p: ProviderSpec) returns (r: Result<Json>)
    ensures r == DoAll(original, [Write(["models", "mode"], Str("merge")), Write(EntryPath(p), ProviderEntry(p))])
  {
    var config := original;
    TwoDeep(config, "models", "mode");
    if !config.Obj? || !Child(config, "models").Obj? {
      return Err(MalformedConfig);
    }
    var models := Child(config, "models");
    models := Obj(models.fields["mode" := Str("merge")]);
    ghost var merged := Obj(config.fields["models" := models]);
    DoAllOne(merged, Write(EntryPath(p), ProviderEntry(p)));
    ThreeDeep(merged, "models", "providers", p.providerName);
    TwoDeep(models, "providers", p.providerName);
    var providers := Child(models, "providers");
    if !providers.Obj? {
      return Err(MalformedConfig);
    }
    providers := Obj(providers.fields[p.providerName := ProviderEntry(p)]);
    models := Obj(models.fields["providers" := providers]);
    config := Obj(config.fields["models" := models]);
    assert merged.fields["models" := models] == config.fields;
    return Ok(config);
  }

  method Rewrite(original: Json, spec: Option<ProviderSpec>) returns (r: Result<Json>)
    ensures r == Configured(original, spec)
    ensures r.Err? ==> r.error == MalformedConfig
  {
    r := RewriteGateway(original);
    if r.Err? || spec.None? {
      if spec.Some? {
        var rest := Edits(spec)[3..];
        DoAllConcat(original, GATEWAY_EDITS, rest);
        assert Edits(spec) == GATEWAY_EDITS + rest;
      }
      return r;
    }
    var p := spec.value;
    ghost var select := [Write(["agents", "defaults", "model"], Obj(map["primary" := Str(p.modelId)]))];
    ghost var rest := Edits(spec)[4..];
    assert Edits(spec) == GATEWAY_EDITS + (select + rest);
    DoAllConcat(original, GATEWAY_EDITS, select + rest);
    DoAllConcat(r.value, select, rest);
    r := RewriteModel(r.value, p.modelId);
    if r.Err? {
      return r;
    }
    if p.builtin {
      assert rest == [Erase(EntryPath(p))];
      r := RewriteBuiltin(r.value, p);
    } else {
      assert rest == [Write(["models", "mode"], Str("merge")), Write(EntryPath(p), ProviderEntry(p))];
      r := RewriteCustom(r.value, p);
    }
  }
}
