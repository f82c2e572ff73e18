/** The import of a catalog document: what it would create, update, disable or leave alone,
    and what is wrong with it. */
module ImportPlan {
  import opened Text
  import opened Json
  import opened Keyed

  datatype Strategy = MergeAll | CreateOnly | Replace

  datatype CliFields = CliFields(
    displayName: string, executable: string, versionConstraint: string,
    requiredFeatures: seq<string>, parameterSchema: string)

  datatype ModelFields = ModelFields(
    modelKey: string, displayName: string, compatibleCliKeys: seq<string>, parameters: map<string, Json>,
    contextWindow: int, inputCost: real, outputCost: real, tier: string)

  type Cli = Entry<CliFields>
  type Model = Entry<ModelFields>

  datatype Catalog = Catalog(orgId: string, revision: int, clis: seq<Cli>, models: seq<Model>)

  /** An entry as a document carries it. */
  datatype Exported<+V> = Exported(key: string, enabled: bool, fields: V)

  datatype Document = Document(clis: seq<Exported<CliFields>>, models: seq<Exported<ModelFields>>)

  /** The JSON-schema engine: what it says of a schema, and of parameters under a schema. */
  datatype Validators = Validators(
    schemaError: string -> Option<string>,
    parameterError: (string, map<string, Json>) -> Option<string>)

  datatype Kind = CliKind | ModelKind

  datatype Action = Create | Update | Unchanged | Disable

  datatype Item = Item(kind: Kind, key: string, action: Action)

  datatype Problem =
    | DuplicateKey
    | InvalidEntry(message: string)
    | Unfilled(what: Missing)
    | BadParameters(message: string)

  datatype Diagnostic = Diagnostic(kind: Kind, index: Option<nat>, key: string, problem: Problem)

  const DEFAULT_SCHEMA := "{\"type\":\"object\",\"additionalProperties\":false}"

  // ---------------------------------------------------------------------------
  // One entry
  // ---------------------------------------------------------------------------

  function OrRaw(xs: seq<string>): seq<string> {
    match Normalized(xs) case Some(ts) => ts case None => xs
  }

  function NormalCli(x: Exported<CliFields>): Exported<CliFields> {
    var f := x.fields;
    Exported(TrimSpace(x.key), x.enabled,
             CliFields(TrimSpace(f.displayName), TrimSpace(f.executable), f.versionConstraint, OrRaw(f.requiredFeatures),
                       if f.parameterSchema == "" then DEFAULT_SCHEMA else f.parameterSchema))
  }

  function NormalModel(x: Exported<ModelFields>): Exported<ModelFields> {
    var f := x.fields;
    var modelKey, shown := TrimSpace(f.modelKey), TrimSpace(f.displayName);
    Exported(TrimSpace(x.key), x.enabled,
             f.(modelKey := modelKey, displayName := if shown == "" then modelKey else shown,
                compatibleCliKeys := OrRaw(f.compatibleCliKeys)))
  }

  function CliProblem(env: Validators, key: string, f: CliFields): Option<string> {
    if !StableKey(key) then Some("key must be a stable lowercase key")
    else if f.displayName == "" || f.executable == "" then Some("display_name and executable are required")
    else if Normalized(f.requiredFeatures).None? then Some("values must be non-empty and unique")
    else env.schemaError(f.parameterSchema)
  }

  function ModelProblem(key: string, f: ModelFields): Option<string> {
    if !StableKey(key) then Some("key must be a stable lowercase key")
    else if f.modelKey == "" then Some("model_key is required")
    else
      match Normalized(f.compatibleCliKeys)
      case None => Some("at least one compatible_cli_key is required")
      case Some(ks) => if ks == [] then Some("at least one compatible_cli_key is required") else None
  }

  function ProblemDiags(kind: Kind, i: nat, key: string, problem: Option<string>): set<Diagnostic> {
    match problem case None => {} case Some(m) => {Diagnostic(kind, Some(i), key, InvalidEntry(m))}
  }

  function UnfilledDiags(i: nat, key: string, missing: set<Missing>): set<Diagnostic> {
    set m | m in missing :: Diagnostic(ModelKind, Some(i), key, Unfilled(m))
  }

  /** The document's entry asks for nothing that the catalog's entry does not already say. */
  predicate SameImport<V(==)>(prior: Entry<V>, x: Exported<V>) {
    prior.fields == x.fields && prior.enabled == x.enabled
  }

  function Stamped(createdAt: int, now: int): int {
    if createdAt == 0 then now else createdAt
  }

  function Created<V>(orgId: string, now: int, x: Exported<V>): Entry<V> {
    Entry("", orgId, x.key, x.enabled, false, now, now, x.fields)
  }

  function Updated<V>(orgId: string, now: int, prior: Entry<V>, x: Exported<V>): Entry<V> {
    Entry(prior.id, orgId, x.key, x.enabled, prior.system, Stamped(prior.createdAt, now), now, x.fields)
  }

  /** What one entry of the document, the `i`-th of its list, contributes to the plan. */
  datatype Outcome<V> = Outcome(item: Item, put: Option<Entry<V>>, diags: set<Diagnostic>)

  function CliOutcome(env: Validators, orgId: string, now: int, strategy: Strategy, existing: map<string, Cli>,
                      i: nat, raw: Exported<CliFields>): Outcome<CliFields>
  {
    var x := NormalCli(raw);
    var problem := ProblemDiags(CliKind, i, x.key, CliProblem(env, x.key, x.fields));
    if x.key in existing then
      if strategy == CreateOnly || SameImport(existing[x.key], x) then
        Outcome(Item(CliKind, x.key, Unchanged), None, {})
      else
        Outcome(Item(CliKind, x.key, Update), Some(Updated(orgId, now, existing[x.key], x)), problem)
    else
      Outcome(Item(CliKind, x.key, Create), Some(Created(orgId, now, x)), problem)
  }

  function Refilled(x: Exported<ModelFields>, prior: map<string, Json>): Exported<ModelFields> {
    x.(fields := x.fields.(parameters := Restore(Obj(x.fields.parameters), Obj(prior)).fields))
  }

  function ExistingModelOutcome(orgId: string, now: int, prior: Model, i: nat, x: Exported<ModelFields>): Outcome<ModelFields> {
    var y := Refilled(x, prior.fields.parameters);
    var unfilled := UnfilledDiags(i, x.key, Unresolved(Obj(x.fields.parameters), Obj(prior.fields.parameters), []));
    if SameImport(prior, y) then
      Outcome(Item(ModelKind, x.key, Unchanged), None, unfilled)
    else
      Outcome(Item(ModelKind, x.key, Update), Some(Updated(orgId, now, prior, y)),
              unfilled + ProblemDiags(ModelKind, i, x.key, ModelProblem(x.key, y.fields)))
  }

  function ModelOutcome(orgId: string, now: int, strategy: Strategy, existing: map<string, Model>,
                        i: nat, raw: Exported<ModelFields>): Outcome<ModelFields>
  {
    var x := NormalModel(raw);
    if x.key in existing then
      if strategy == CreateOnly then Outcome(Item(ModelKind, x.key, Unchanged), None, {})
      else ExistingModelOutcome(orgId, now, existing[x.key], i, x)
    else
      Outcome(Item(ModelKind, x.key, Create), Some(Created(orgId, now, x)),
              UnfilledDiags(i, x.key, Unresolved(Obj(x.fields.parameters), Obj(map[]), [])) +
              ProblemDiags(ModelKind, i, x.key, ModelProblem(x.key, x.fields)))
  }

  // ---------------------------------------------------------------------------
  // One list of entries
  // ---------------------------------------------------------------------------

  datatype Pass<V> = Pass(seen: set<string>, puts: seq<Entry<V>>, items: seq<Item>, diags: set<Diagnostic>)

  function PutList<V>(o: Outcome<V>): seq<Entry<V>> {
    match o.put case None => [] case Some(x) => [x]
  }

  /** One more entry: a repeated key is reported and otherwise ignored. */
  function Absorbed<V>(p: Pass<V>, kind: Kind, i: nat, key: string, o: Outcome<V>): Pass<V> {
    if key in p.seen then p.(diags := p.diags + {Diagnostic(kind, Some(i), key, DuplicateKey)})
    else Pass(p.seen + {key}, p.puts + PutList(o), p.items + [o.item], p.diags + o.diags)
  }

  /** The first `n` entries taken in turn. */
  function Fold<V>(kind: Kind, keys: seq<string>, os: seq<Outcome<V>>, n: nat): Pass<V>
    requires n <= |keys| == |os|
  {
    if n == 0 then Pass({}, [], [], {})
    else Absorbed(Fold(kind, keys, os, n - 1), kind, n - 1, keys[n - 1], os[n - 1])
  }

  /** The enabled entries that the document does not mention, disabled. */
  function Retired<V>(xs: seq<Entry<V>>, seen: set<string>, now: int): seq<Entry<V>> {
    if xs == [] then []
    else
      var rest, x := Retired(xs[..|xs| - 1], seen, now), xs[|xs| - 1];
      if x.key !in seen && x.enabled then rest + [x.(enabled := false, updatedAt := now)] else rest
  }

  function DisableItems<V>(kind: Kind, xs: seq<Entry<V>>): seq<Item> {
    seq(|xs|, i requires 0 <= i < |xs| => Item(kind, xs[i].key, Disable))
  }

  // ---------------------------------------------------------------------------
  // The whole plan
  // ---------------------------------------------------------------------------

  datatype Mutation = Mutation(clis: seq<Cli>, models: seq<Model>)

  datatype Plan = Plan(mutation: Mutation, items: seq<Item>, diags: set<Diagnostic>)

  ghost function Candidate(current: Catalog, m: Mutation): Catalog {
    current.(clis := Merged(current.clis, m.clis), models := Merged(current.models, m.models))
  }

  /** The first complaint about the model's parameters among the CLIs that it names and that exist. */
  function FirstParameterError(env: Validators, clis: map<string, Cli>, keys: seq<string>, params: map<string, Json>): Option<string> {
    if keys == [] then None
    else
      var rest := FirstParameterError(env, clis, keys[1..], params);
      if keys[0] in clis then
        match env.parameterError(clis[keys[0]].fields.parameterSchema, params)
        case Some(e) => Some(e)
        case None => rest
      else rest
  }

  function ModelParameterError(env: Validators, clis: map<string, Cli>, x: Model): Option<string> {
    FirstParameterError(env, clis, x.fields.compatibleCliKeys, x.fields.parameters)
  }

  function ParameterDiags(env: Validators, clis: map<string, Cli>, models: seq<Model>): set<Diagnostic> {
    set x | x in models && ModelParameterError(env, clis, x).Some? ::
      Diagnostic(ModelKind, None, x.key, BadParameters(ModelParameterError(env, clis, x).value))
  }

  function CliKeys(xs: seq<Exported<CliFields>>): seq<string> {
    seq(|xs|, i requires 0 <= i < |xs| => TrimSpace(xs[i].key))
  }

  function ModelKeys(xs: seq<Exported<ModelFields>>): seq<string> {
    seq(|xs|, i requires 0 <= i < |xs| => TrimSpace(xs[i].key))
  }

  function CliOutcomes(env: Validators, orgId: string, now: int, strategy: Strategy, existing: map<string, Cli>,
                       xs: seq<Exported<CliFields>>): seq<Outcome<CliFields>> {
    seq(|xs|, i requires 0 <= i < |xs| => CliOutcome(env, orgId, now, strategy, existing, i, xs[i]))
  }

  function ModelOutcomes(orgId: string, now: int, strategy: Strategy, existing: map<string, Model>,
                         xs: seq<Exported<ModelFields>>): seq<Outcome<ModelFields>> {
    seq(|xs|, i requires 0 <= i < |xs| => ModelOutcome(orgId, now, strategy, existing, i, xs[i]))
  }

  /** The first `n` CLIs of the document. */
  function CliPassTo(env: Validators, orgId: string, now: int, current: Catalog, doc: Document, strategy: Strategy, n: nat): Pass<CliFields>
    requires n <= |doc.clis|
  {
    Fold(CliKind, CliKeys(doc.clis), CliOutcomes(env, orgId, now, strategy, ByKey(current.clis), doc.clis), n)
  }

  function CliPass(env: Validators, orgId: string, now: int, current: Catalog, doc: Document, strategy: Strategy): Pass<CliFields> {
    CliPassTo(env, orgId, now, current, doc, strategy, |doc.clis|)
  }

  /** The first `n` models of the document. */
  function ModelPassTo(orgId: string, now: int, current: Catalog, doc: Document, strategy: Strategy, n: nat): Pass<ModelFields>
    requires n <= |doc.models|
  {
    Fold(ModelKind, ModelKeys(doc.models), ModelOutcomes(orgId, now, strategy, ByKey(current.models), doc.models), n)
  }

  function ModelPass(orgId: string, now: int, current: Catalog, doc: Document, strategy: Strategy): Pass<ModelFields> {
    ModelPassTo(orgId, now, current, doc, strategy, |doc.models|)
  }

  function RetiredClis(env: Validators, orgId: string, now: int, current: Catalog, doc: Document, strategy: Strategy): seq<Cli> {
    if strategy == Replace then Retired(current.clis, CliPass(env, orgId, now, current, doc, strategy).seen, now) else []
  }

  function RetiredModels(orgId: string, now: int, current: Catalog, doc: Document, strategy: Strategy): seq<Model> {
    if strategy == Replace then Retired(current.models, ModelPass(orgId, now, current, doc, strategy).seen, now) else []
  }

  ghost function Assembled(env: Validators, current: Catalog, c: Pass<CliFields>, m: Pass<ModelFields>,
                           rc: seq<Cli>, rm: seq<Model>): Plan {
    var mutation := Mutation(c.puts + rc, m.puts + rm);
    var after := Candidate(current, mutation);
    Plan(mutation,
         c.items + m.items + DisableItems(ModelKind, rm) + DisableItems(CliKind, rc),
         c.diags + m.diags + ParameterDiags(env, ByKey(after.clis), after.models))
  }

  ghost function PlanOf(env: Validators, orgId: string, now: int, current: Catalog, doc: Document, strategy: Strategy): Plan {
    Assembled(env, current,
              CliPass(env, orgId, now, current, doc, strategy), ModelPass(orgId, now, current, doc, strategy),
              RetiredClis(env, orgId, now, current, doc, strategy), RetiredModels(orgId, now, current, doc, strategy))
  }

  predicate AllUnchanged(items: seq<Item>) {
    forall i :: 0 <= i < |items| ==> items[i].action == Unchanged
  }

  // ---------------------------------------------------------------------------
  // The loops that compute the plan
  // ---------------------------------------------------------------------------

  /** The body of the CLI loop, for an entry whose key was not seen before. */
  method DecideCli(env: Validators, orgId: string, now: int, existing: map<string, Cli>, strategy: Strategy,
                   i: nat, raw: Exported<CliFields>)
    returns (o: Outcome<CliFields>)
    ensures o == CliOutcome(env, orgId, now, strategy, existing, i, raw)
  {
    var f := raw.fields.(displayName := TrimSpace(raw.fields.displayName), executable := TrimSpace(raw.fields.executable));
    var features := NormalizeStrings(f.requiredFeatures);
    if features.Some? {
      f := f.(requiredFeatures := features.value);
    }
    if f.parameterSchema == "" {
      f := f.(parameterSchema := DEFAULT_SCHEMA);
    }
    var x := Exported(TrimSpace(raw.key), raw.enabled, f);
    assert x == NormalCli(raw);
    var entity := Created(orgId, 0, x);
    var action := Create;
    if x.key in existing {
      var prior := existing[x.key];
      if strategy == CreateOnly {
        return Outcome(Item(CliKind, x.key, Unchanged), None, {});
      }
      entity := entity.(id := prior.id, system := prior.system, createdAt := prior.createdAt);
      if SameImport(prior, x) {
        return Outcome(Item(CliKind, x.key, Unchanged), None, {});
      }
      action := Update;
    }
    entity := entity.(updatedAt := now);
    if entity.createdAt == 0 {
      entity := entity.(createdAt := now);
    }
    var problem := CliProblem(env, entity.key, entity.fields);
    return Outcome(Item(CliKind, x.key, action), Some(entity), ProblemDiags(CliKind, i, x.key, problem));
  }

  /** The body of the model loop, for an entry whose key was not seen before. */
  method DecideModel(orgId: string, now: int, existing: map<string, Model>, strategy: Strategy,
                     i: nat, raw: Exported<ModelFields>)
    returns (o: Outcome<ModelFields>)
    ensures o == ModelOutcome(orgId, now, strategy, existing, i, raw)
  {
    var f := raw.fields.(modelKey := TrimSpace(raw.fields.modelKey), displayName := TrimSpace(raw.fields.displayName));
    if f.displayName == "" {
      f := f.(displayName := f.modelKey);
    }
    var keys := NormalizeStrings(f.compatibleCliKeys);
    if keys.Some? {
      f := f.(compatibleCliKeys := keys.value);
    }
    var x := Exported(TrimSpace(raw.key), raw.enabled, f);
    assert x == NormalModel(raw);
    if x.key in existing {
      if strategy == CreateOnly {
        return Outcome(Item(ModelKind, x.key, Unchanged), None, {});
      }
      o := DecideExistingModel(orgId, now, existing[x.key], i, x);
    } else {
      var _, missing := PreserveRedactedMap(f.parameters, map[], []);
      var problem := ModelProblem(x.key, x.fields);
      o := Outcome(Item(ModelKind, x.key, Create), Some(Created(orgId, now, x)),
                   UnfilledDiags(i, x.key, missing) + ProblemDiags(ModelKind, i, x.key, problem));
    }
  }

  /** The branch of the model loop for a key that the catalog has. */
  method DecideExistingModel(orgId: string, now: int, prior: Model, i: nat, x: Exported<ModelFields>)
    returns (o: Outcome<ModelFields>)
    ensures o == ExistingModelOutcome(orgId, now, prior, i, x)
  {
    var params, missing := PreserveRedactedMap(x.fields.parameters, prior.fields.parameters, []);
    var entity := Created(orgId, now, x);
    entity := entity.(fields := x.fields.(parameters := params), id := prior.id, system := prior.system, createdAt := prior.createdAt);
    var diags := UnfilledDiags(i, x.key, missing);
    if prior.fields == entity.fields && prior.enabled == entity.enabled {
      return Outcome(Item(ModelKind, x.key, Unchanged), None, diags);
    }
    if entity.createdAt == 0 {
      entity := entity.(createdAt := now);
    }
    var problem := ModelProblem(entity.key, entity.fields);
    return Outcome(Item(ModelKind, x.key, Update), Some(entity), diags + ProblemDiags(ModelKind, i, x.key, problem));
  }

  method Absorb<V>(p: Pass<V>, kind: Kind, i: nat, key: string, o: Outcome<V>) returns (q: Pass<V>)
    ensures q == Absorbed(p, kind, i, key, o)
  {
    q := p;
    if key in q.seen {
      q := q.(diags := q.diags + {Diagnostic(kind, Some(i), key, DuplicateKey)});
      return;
    }
    q := q.(seen := q.seen + {key}, items := q.items + [o.item], diags := q.diags + o.diags);
    match o.put
    case None => assert p.puts + PutList(o) == p.puts;
    case Some(x) => q := q.(puts := q.puts + [x]);
  }

  lemma CliPassGrows(env: Validators, orgId: string, now: int, current: Catalog, doc: Document, strategy: Strategy, i: nat)
    requires i < |doc.clis|
    ensures CliPassTo(env, orgId, now, current, doc, strategy, i + 1) ==
            Absorbed(CliPassTo(env, orgId, now, current, doc, strategy, i), CliKind, i, TrimSpace(doc.clis[i].key),
                     CliOutcome(env, orgId, now, strategy, ByKey(current.clis), i, doc.clis[i]))
  {
  }

  lemma ModelPassGrows(orgId: string, now: int, current: Catalog, doc: Document, strategy: Strategy, i: nat)
    requires i < |doc.models|
    ensures ModelPassTo(orgId, now, current, doc, strategy, i + 1) ==
            Absorbed(ModelPassTo(orgId, now, current, doc, strategy, i), ModelKind, i, TrimSpace(doc.models[i].key),
                     ModelOutcome(orgId, now, strategy, ByKey(current.models), i, doc.models[i]))
  {
  }

  method PlanClis(env: Validators, orgId: string, now: int, current: Catalog, doc: Document, strategy: Strategy)
    returns (p: Pass<CliFields>)
    ensures p == CliPass(env, orgId, now, current, doc, strategy)
  {
    var existing := IndexByKey(current.clis);
    p := Pass({}, [], [], {});
    for i := 0 to |doc.clis|
      invariant p == CliPassTo(env, orgId, now, current, doc, strategy, i)
    {
      var o := DecideCli(env, orgId, now, existing, strategy, i, doc.clis[i]);
      CliPassGrows(env, orgId, now, current, doc, strategy, i);
      p := Absorb(p, CliKind, i, TrimSpace(doc.clis[i].key), o);
    }
  }

  method PlanModels(orgId: string, now: int, current: Catalog, doc: Document, strategy: Strategy)
    returns (p: Pass<ModelFields>)
    ensures p == ModelPass(orgId, now, current, doc, strategy)
  {
    var existing := IndexByKey(current.models);
    p := Pass({}, [], [], {});
    for i := 0 to |doc.models|
      invariant p == ModelPassTo(orgId, now, current, doc, strategy, i)
    {
      var o := DecideModel(orgId, now, existing, strategy, i, doc.models[i]);
      ModelPassGrows(orgId, now, current, doc, strategy, i);
      p := Absorb(p, ModelKind, i, TrimSpace(doc.models[i].key), o);
    }
  }

  method Retire<V>(kind: Kind, xs: seq<Entry<V>>, seen: set<string>, now: int) returns (puts: seq<Entry<V>>, items: seq<Item>)
    ensures puts == Retired(xs, seen, now) && items == DisableItems(kind, puts)
  {
    puts, items := [], [];
    for i := 0 to |xs|
      invariant puts == Retired(xs[..i], seen, now) && items == DisableItems(kind, puts)
    {
      assert xs[..i + 1][..i] == xs[..i];
      if xs[i].key !in seen && xs[i].enabled {
        puts := puts + [xs[i].(enabled := false, updatedAt := now)];
        items := items + [Item(kind, xs[i].key, Disable)];
      }
    }
    assert xs[..|xs|] == xs;
  }

  /** The loop over the CLIs that one model names. */
  method ValidateParameters(env: Validators, clis: map<string, Cli>, x: Model) returns (error: Option<string>)
    ensures error == ModelParameterError(env, clis, x)
  {
    var keys := x.fields.compatibleCliKeys;
    assert keys[0..] == keys;
    for i := 0 to |keys|
      invariant ModelParameterError(env, clis, x) == FirstParameterError(env, clis, keys[i..], x.fields.parameters)
    {
      assert keys[i..][1..] == keys[i + 1..];
      if keys[i] in clis {
        error := env.parameterError(clis[keys[i]].fields.parameterSchema, x.fields.parameters);
        if error.Some? {
          return;
        }
      }
    }
    return None;
  }

  /** The check of every model of the catalog that the import would leave. */
  method CheckParameters(env: Validators, clis: seq<Cli>, models: seq<Model>) returns (diags: set<Diagnostic>)
    ensures diags == ParameterDiags(env, ByKey(clis), models)
  {
    var byKey := IndexByKey(clis);
    diags := {};
    for i := 0 to |models|
      invariant diags == ParameterDiags(env, byKey, models[..i])
    {
      var e := ValidateParameters(env, byKey, models[i]);
      assert forall x :: x in models[..i + 1] <==> x in models[..i] || x == models[i];
      if e.Some? {
        diags := diags + {Diagnostic(ModelKind, None, models[i].key, BadParameters(e.value))};
      }
    }
    assert models[..|models|] == models;
  }

  method Assemble(env: Validators, current: Catalog, c: Pass<CliFields>, m: Pass<ModelFields>, rc: seq<Cli>, rm: seq<Model>,
                  disabled: seq<Item>)
    returns (plan: Plan)
    requires disabled == DisableItems(ModelKind, rm) + DisableItems(CliKind, rc)
    ensures plan == Assembled(env, current, c, m, rc, rm)
  {
    var puts := Mutation(c.puts + rc, m.puts + rm);
    var clis := Merge(current.clis, puts.clis);
    var models := Merge(current.models, puts.models);
    var bad := CheckParameters(env, clis, models);
    plan := Plan(puts, c.items + m.items + disabled, c.diags + m.diags + bad);
    assert c.items + m.items + DisableItems(ModelKind, rm) + DisableItems(CliKind, rc) == c.items + m.items + disabled;
  }

  method PlanImport(env: Validators, orgId: string, now: int, current: Catalog, doc: Document, strategy: Strategy)
    returns (plan: Plan)
    ensures plan == PlanOf(env, orgId, now, current, doc, strategy)
  {
    var c := PlanClis(env, orgId, now, current, doc, strategy);
    var m := PlanModels(orgId, now, current, doc, strategy);
    var rc: seq<Cli>, rcItems: seq<Item> := [], [];
    var rm: seq<Model>, rmItems: seq<Item> := [], [];
    if strategy == Replace {
      rm, rmItems := Retire(ModelKind, current.models, m.seen, now);
      rc, rcItems := Retire(CliKind, current.clis, c.seen, now);
    }
    plan := Assemble(env, current, c, m, rc, rm, rmItems + rcItems);
  }
}
