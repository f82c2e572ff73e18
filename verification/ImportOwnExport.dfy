/** Importing a catalog's own export: exactly which catalogs come back unchanged. */
module ImportOwnExport {
  import opened Text
  import opened Json
  import opened Keyed
  import opened ImportPlan
  import opened ImportLaws
  import opened ImportIdempotence

  function ExportCli(x: Cli): Exported<CliFields> {
    Exported(x.key, x.enabled, x.fields)
  }

  function ExportModel(x: Model): Exported<ModelFields> {
    Exported(x.key, x.enabled, x.fields.(parameters := Redact(Obj(x.fields.parameters)).fields))
  }

  /** The export of a catalog whose lists are in key order already, as the repository returns them. */
  function ExportOf(cat: Catalog): Document {
    Document(ExportedClis(cat.clis), ExportedModels(cat.models))
  }

  ghost predicate AsStored(cat: Catalog) {
    InKeyOrder(cat.clis) && InKeyOrder(cat.models)
  }

  /** A stored CLI that its own export leaves alone. Under create_only only the key counts. */
  predicate StableCli(strategy: Strategy, x: Cli) {
    && Trimmed(x.key)
    && (strategy != CreateOnly ==>
        && Trimmed(x.fields.displayName) && Trimmed(x.fields.executable)
        && NothingToTrim(x.fields.requiredFeatures) && x.fields.parameterSchema != "")
  }

  /** A stored model that its own export leaves alone. */
  predicate StableModel(strategy: Strategy, x: Model) {
    && Trimmed(x.key)
    && (strategy != CreateOnly ==>
        && Trimmed(x.fields.modelKey) && Trimmed(x.fields.displayName)
        && (x.fields.displayName == "" ==> x.fields.modelKey == "")
        && NothingToTrim(x.fields.compatibleCliKeys) && Exportable(Obj(x.fields.parameters)))
  }

  lemma NormalCliExactlyWhen(strategy: Strategy, x: Cli)
    requires strategy != CreateOnly
    ensures NormalCli(ExportCli(x)) == ExportCli(x) <==> StableCli(strategy, x)
  {
    TrimmedExactlyWhen(x.key);
    TrimmedExactlyWhen(x.fields.displayName);
    TrimmedExactlyWhen(x.fields.executable);
    NothingToTrimExactlyWhen(x.fields.requiredFeatures);
  }

  lemma NormalModelExactlyWhen(strategy: Strategy, x: Model)
    requires strategy != CreateOnly
    ensures NormalModel(ExportModel(x)) == ExportModel(x) && Exportable(Obj(x.fields.parameters)) <==> StableModel(strategy, x)
  {
    TrimmedExactlyWhen(x.key);
    TrimmedExactlyWhen(x.fields.modelKey);
    TrimmedExactlyWhen(x.fields.displayName);
    NothingToTrimExactlyWhen(x.fields.compatibleCliKeys);
  }

  predicate InNormalForm(strategy: Strategy, cat: Catalog) {
    && (forall i :: 0 <= i < |cat.clis| ==> StableCli(strategy, cat.clis[i]))
    && (forall i :: 0 <= i < |cat.models| ==> StableModel(strategy, cat.models[i]))
  }

  predicate ParametersValid(env: Validators, cat: Catalog) {
    forall x :: x in cat.models ==> ModelParameterError(env, ByKey(cat.clis), x).None?
  }

  /** The `i`-th outcome asks for nothing: neither a write nor a complaint. */
  predicate Quiet<V(==)>(o: Outcome<V>) {
    o.put.None? && o.diags == {}
  }

  lemma CliQuietIffStable(env: Validators, orgId: string, now: int, strategy: Strategy, x: Cli, existing: map<string, Cli>, i: nat)
    requires TrimSpace(x.key) == x.key && x.key in existing && existing[x.key] == x
    ensures Quiet(CliOutcome(env, orgId, now, strategy, existing, i, ExportCli(x))) <==> StableCli(strategy, x)
    ensures StableCli(strategy, x) ==>
            CliOutcome(env, orgId, now, strategy, existing, i, ExportCli(x)) == Outcome(Item(CliKind, x.key, Unchanged), None, {})
  {
    TrimmedExactlyWhen(x.key);
    if strategy != CreateOnly {
      NormalCliExactlyWhen(strategy, x);
    }
  }

  lemma ModelQuietIffStable(orgId: string, now: int, strategy: Strategy, x: Model, existing: map<string, Model>, i: nat)
    requires TrimSpace(x.key) == x.key && x.key in existing && existing[x.key] == x
    ensures Quiet(ModelOutcome(orgId, now, strategy, existing, i, ExportModel(x))) <==> StableModel(strategy, x)
    ensures StableModel(strategy, x) ==>
            ModelOutcome(orgId, now, strategy, existing, i, ExportModel(x)) == Outcome(Item(ModelKind, x.key, Unchanged), None, {})
  {
    TrimmedExactlyWhen(x.key);
    if strategy != CreateOnly {
      NormalModelExactlyWhen(strategy, x);
      var e := ExportModel(x);
      var params := Obj(x.fields.parameters);
      assert Obj(e.fields.parameters) == Redact(params);
      UnfilledIffMissing(i, x.key, Unresolved(Redact(params), params, []));
      UnresolvedIffNotResolves(Redact(params), params, []);
      RestoreUndoesRedact(params);
      var y := NormalModel(e);
      assert y.fields.parameters == e.fields.parameters;
      var z := Refilled(y, x.fields.parameters);
      if Exportable(params) {
        assert z.fields.parameters == x.fields.parameters;
        assert x.fields == z.fields <==> e.fields == y.fields by {
          assert z.fields == y.fields.(parameters := x.fields.parameters);
          assert e.fields == x.fields.(parameters := e.fields.parameters);
          if x.fields == z.fields {
            assert y.fields == z.fields.(parameters := e.fields.parameters);
          }
        }
      }
    }
  }

  /** If no key repeats once trimmed and every trimmed key is a key of the catalog, every key is trimmed. */
  lemma KeysAreTrimmed<V>(xs: seq<Entry<V>>, keys: seq<string>, i: nat)
    requires |keys| == |xs| && forall j :: 0 <= j < |xs| ==> keys[j] == TrimSpace(xs[j].key)
    requires DistinctTo(keys, |keys|)
    requires i < |xs| && keys[i] in ByKey(xs)
    ensures TrimSpace(xs[i].key) == xs[i].key
  {
    ByKeyFindsLast(xs, keys[i]);
    var j :| 0 <= j < |xs| && xs[j].key == keys[i];
    TrimIsIdempotent(xs[i].key);
    assert keys[j] == keys[i];
    assert i == j;
  }

  lemma {:induction false} NoPutsNoWrites<V>(kind: Kind, keys: seq<string>, os: seq<Outcome<V>>, n: nat)
    requires n <= |keys| == |os| && DistinctTo(keys, n)
    ensures Fold(kind, keys, os, n).puts == [] <==> forall i :: 0 <= i < n ==> os[i].put.None?
  {
    if n > 0 {
      NoPutsNoWrites(kind, keys, os, n - 1);
      PassIsCleanExactlyWhen(kind, keys, os, n - 1);
    }
  }

  ghost predicate AllQuiet<V>(os: seq<Outcome<V>>) {
    forall i :: 0 <= i < |os| ==> Quiet(os[i])
  }

  lemma PassIsQuietExactlyWhen<V>(kind: Kind, keys: seq<string>, os: seq<Outcome<V>>)
    requires |keys| == |os|
    ensures var p := Fold(kind, keys, os, |keys|);
            (p.puts == [] && p.diags == {}) <==> DistinctTo(keys, |keys|) && AllQuiet(os)
  {
    PassIsCleanExactlyWhen(kind, keys, os, |keys|);
    if DistinctTo(keys, |keys|) {
      NoPutsNoWrites(kind, keys, os, |keys|);
    }
  }

  /** A pass over a stored list's own export is quiet exactly when every entry is stable. */
  lemma QuietExactlyWhenStable<V>(keys: seq<string>, os: seq<Outcome<V>>, xs: seq<Entry<V>>, stable: seq<bool>)
    requires |keys| == |os| == |xs| == |stable| && InKeyOrder(xs)
    requires forall i :: 0 <= i < |xs| ==> keys[i] == TrimSpace(xs[i].key)
    requires forall i :: 0 <= i < |xs| && os[i].put.None? ==> keys[i] in ByKey(xs)
    requires forall i :: 0 <= i < |xs| && keys[i] == xs[i].key ==> (Quiet(os[i]) <==> stable[i])
    requires forall i :: 0 <= i < |xs| && stable[i] ==> keys[i] == xs[i].key
    ensures DistinctTo(keys, |keys|) && AllQuiet(os) <==> forall i :: 0 <= i < |stable| ==> stable[i]
  {
    if DistinctTo(keys, |keys|) && AllQuiet(os) {
      forall i | 0 <= i < |stable| ensures stable[i] {
        assert Quiet(os[i]);
        KeysAreTrimmed(xs, keys, i);
      }
    }
    if forall i :: 0 <= i < |stable| ==> stable[i] {
      DistinctKeysInOrder(xs);
      forall i | 0 <= i < |os| ensures keys[i] == xs[i].key && Quiet(os[i]) { assert stable[i]; }
    }
  }

  function ExportedClis(xs: seq<Cli>): seq<Exported<CliFields>> {
    seq(|xs|, i requires 0 <= i < |xs| => ExportCli(xs[i]))
  }

  function ExportedModels(xs: seq<Model>): seq<Exported<ModelFields>> {
    seq(|xs|, i requires 0 <= i < |xs| => ExportModel(xs[i]))
  }

  function StableClis(strategy: Strategy, xs: seq<Cli>): seq<bool> {
    seq(|xs|, i requires 0 <= i < |xs| => StableCli(strategy, xs[i]))
  }

  function StableModels(strategy: Strategy, xs: seq<Model>): seq<bool> {
    seq(|xs|, i requires 0 <= i < |xs| => StableModel(strategy, xs[i]))
  }

  lemma CliEntryQuiet(env: Validators, orgId: string, now: int, strategy: Strategy, xs: seq<Cli>, i: nat)
    requires InKeyOrder(xs) && i < |xs| && TrimSpace(xs[i].key) == xs[i].key
    ensures Quiet(CliOutcome(env, orgId, now, strategy, ByKey(xs), i, ExportCli(xs[i]))) <==> StableCli(strategy, xs[i])
  {
    DistinctKeysInOrder(xs);
    ByKeyOfDistinct(xs, i);
    CliQuietIffStable(env, orgId, now, strategy, xs[i], ByKey(xs), i);
  }

  lemma ModelEntryQuiet(orgId: string, now: int, strategy: Strategy, xs: seq<Model>, i: nat)
    requires InKeyOrder(xs) && i < |xs| && TrimSpace(xs[i].key) == xs[i].key
    ensures Quiet(ModelOutcome(orgId, now, strategy, ByKey(xs), i, ExportModel(xs[i]))) <==> StableModel(strategy, xs[i])
  {
    DistinctKeysInOrder(xs);
    ByKeyOfDistinct(xs, i);
    ModelQuietIffStable(orgId, now, strategy, xs[i], ByKey(xs), i);
  }

  lemma CliPassQuiet(env: Validators, orgId: string, now: int, strategy: Strategy, cat: Catalog)
    requires AsStored(cat)
    ensures var p := CliPass(env, orgId, now, cat, ExportOf(cat), strategy);
            (p.puts == [] && p.diags == {}) <==> forall i :: 0 <= i < |cat.clis| ==> StableClis(strategy, cat.clis)[i]
  {
    var xs := cat.clis;
    var doc := ExportedClis(xs);
    var keys, os := CliKeys(doc), CliOutcomes(env, orgId, now, strategy, ByKey(xs), doc);
    forall i | 0 <= i < |xs| && keys[i] == xs[i].key ensures Quiet(os[i]) <==> StableClis(strategy, xs)[i] {
      CliEntryQuiet(env, orgId, now, strategy, xs, i);
    }
    CliOutcomesAreKeyed(env, orgId, now, strategy, ByKey(xs), doc);
    forall i | 0 <= i < |xs| && StableClis(strategy, xs)[i] ensures keys[i] == xs[i].key {
      TrimmedExactlyWhen(xs[i].key);
    }
    QuietExactlyWhenStable(keys, os, xs, StableClis(strategy, xs));
    PassIsQuietExactlyWhen(CliKind, keys, os);
  }

  lemma ModelPassQuiet(orgId: string, now: int, strategy: Strategy, cat: Catalog)
    requires AsStored(cat)
    ensures var p := ModelPass(orgId, now, cat, ExportOf(cat), strategy);
            (p.puts == [] && p.diags == {}) <==> forall i :: 0 <= i < |cat.models| ==> StableModels(strategy, cat.models)[i]
  {
    var xs := cat.models;
    var doc := ExportedModels(xs);
    var keys, os := ModelKeys(doc), ModelOutcomes(orgId, now, strategy, ByKey(xs), doc);
    forall i | 0 <= i < |xs| && keys[i] == xs[i].key ensures Quiet(os[i]) <==> StableModels(strategy, xs)[i] {
      ModelEntryQuiet(orgId, now, strategy, xs, i);
    }
    ModelOutcomesAreKeyed(orgId, now, strategy, ByKey(xs), doc);
    forall i | 0 <= i < |xs| && StableModels(strategy, xs)[i] ensures keys[i] == xs[i].key {
      TrimmedExactlyWhen(xs[i].key);
    }
    QuietExactlyWhenStable(keys, os, xs, StableModels(strategy, xs));
    PassIsQuietExactlyWhen(ModelKind, keys, os);
  }

  lemma NothingToRetireOfStable<V>(kind: Kind, keys: seq<string>, os: seq<Outcome<V>>, xs: seq<Entry<V>>, now: int)
    requires |keys| == |os| == |xs| && forall i :: 0 <= i < |xs| ==> keys[i] == xs[i].key
    ensures Retired(xs, Fold(kind, keys, os, |keys|).seen, now) == []
  {
    var seen := Fold(kind, keys, os, |keys|).seen;
    PassIsCleanExactlyWhen(kind, keys, os, |keys|);
    RetiredHolds(xs, seen, now);
    forall x | x in xs ensures x.key in seen {
      var i :| 0 <= i < |xs| && xs[i] == x;
      assert keys[i] == x.key;
    }
  }

  lemma NoClisRetired(env: Validators, orgId: string, now: int, strategy: Strategy, cat: Catalog)
    requires forall i :: 0 <= i < |cat.clis| ==> StableCli(strategy, cat.clis[i])
    ensures RetiredClis(env, orgId, now, cat, ExportOf(cat), strategy) == []
  {
    var doc := ExportedClis(cat.clis);
    forall i | 0 <= i < |cat.clis| ensures CliKeys(doc)[i] == cat.clis[i].key {
      assert StableCli(strategy, cat.clis[i]);
      TrimmedExactlyWhen(cat.clis[i].key);
    }
    NothingToRetireOfStable(CliKind, CliKeys(doc), CliOutcomes(env, orgId, now, strategy, ByKey(cat.clis), doc), cat.clis, now);
  }

  lemma NoModelsRetired(orgId: string, now: int, strategy: Strategy, cat: Catalog)
    requires forall i :: 0 <= i < |cat.models| ==> StableModel(strategy, cat.models[i])
    ensures RetiredModels(orgId, now, cat, ExportOf(cat), strategy) == []
  {
    var doc := ExportedModels(cat.models);
    forall i | 0 <= i < |cat.models| ensures ModelKeys(doc)[i] == cat.models[i].key {
      assert StableModel(strategy, cat.models[i]);
      TrimmedExactlyWhen(cat.models[i].key);
    }
    NothingToRetireOfStable(ModelKind, ModelKeys(doc), ModelOutcomes(orgId, now, strategy, ByKey(cat.models), doc), cat.models, now);
  }

  /** An entry that is not written is reported as unchanged. */
  lemma QuietPassReportsUnchanged<V>(kind: Kind, keys: seq<string>, os: seq<Outcome<V>>)
    requires |keys| == |os|
    requires forall i :: 0 <= i < |os| && os[i].put.None? ==> os[i].item.action == Unchanged
    requires Fold(kind, keys, os, |keys|).puts == [] && Fold(kind, keys, os, |keys|).diags == {}
    ensures NothingToDo(Fold(kind, keys, os, |keys|), |keys|)
  {
    PassIsQuietExactlyWhen(kind, keys, os);
    PassReportsEveryEntry(kind, keys, os, |keys|);
    forall i | 0 <= i < |keys| ensures Fold(kind, keys, os, |keys|).items[i].action == Unchanged { assert Quiet(os[i]); }
  }

  lemma UnputCliIsUnchanged(env: Validators, orgId: string, now: int, strategy: Strategy, existing: map<string, Cli>, i: nat, raw: Exported<CliFields>)
    ensures var o := CliOutcome(env, orgId, now, strategy, existing, i, raw); o.put.None? ==> o.item.action == Unchanged
  {
  }

  lemma CliPassReportsUnchanged(env: Validators, orgId: string, now: int, strategy: Strategy, current: Catalog, doc: Document)
    requires var p := CliPass(env, orgId, now, current, doc, strategy); p.puts == [] && p.diags == {}
    ensures NothingToDo(CliPass(env, orgId, now, current, doc, strategy), |doc.clis|)
  {
    var os := CliOutcomes(env, orgId, now, strategy, ByKey(current.clis), doc.clis);
    forall i | 0 <= i < |os| ensures os[i].put.None? ==> os[i].item.action == Unchanged {
      UnputCliIsUnchanged(env, orgId, now, strategy, ByKey(current.clis), i, doc.clis[i]);
    }
    QuietPassReportsUnchanged(CliKind, CliKeys(doc.clis), os);
  }

  lemma UnputModelIsUnchanged(orgId: string, now: int, strategy: Strategy, existing: map<string, Model>, i: nat, raw: Exported<ModelFields>)
    ensures var o := ModelOutcome(orgId, now, strategy, existing, i, raw); o.put.None? ==> o.item.action == Unchanged
  {
  }

  lemma ModelPassReportsUnchanged(orgId: string, now: int, strategy: Strategy, current: Catalog, doc: Document)
    requires var p := ModelPass(orgId, now, current, doc, strategy); p.puts == [] && p.diags == {}
    ensures NothingToDo(ModelPass(orgId, now, current, doc, strategy), |doc.models|)
  {
    var os := ModelOutcomes(orgId, now, strategy, ByKey(current.models), doc.models);
    forall i | 0 <= i < |os| ensures os[i].put.None? ==> os[i].item.action == Unchanged {
      UnputModelIsUnchanged(orgId, now, strategy, ByKey(current.models), i, doc.models[i]);
    }
    QuietPassReportsUnchanged(ModelKind, ModelKeys(doc.models), os);
  }

  lemma StoredCatalogIsItsOwnCandidate(env: Validators, cat: Catalog)
    requires AsStored(cat)
    ensures Candidate(cat, Mutation([], [])) == cat
    ensures ParameterDiags(env, ByKey(cat.clis), cat.models) == {} <==> ParametersValid(env, cat)
  {
    OrderedIsOwnListing(cat.clis);
    OrderedIsOwnListing(cat.models);
    assert ByKey(cat.clis) + map[] == ByKey(cat.clis);
    assert ByKey(cat.models) + map[] == ByKey(cat.models);
    forall x | x in cat.models
      ensures ModelParameterError(env, ByKey(cat.clis), x).Some? ==> ParameterDiags(env, ByKey(cat.clis), cat.models) != {}
    {
      FaultIsReported(env, ByKey(cat.clis), cat.models, x);
    }
  }

  ghost predicate QuietPlan(plan: Plan) {
    plan.mutation == Mutation([], []) && plan.diags == {}
  }

  lemma QuietPlanHasQuietPasses(env: Validators, current: Catalog, c: Pass<CliFields>, m: Pass<ModelFields>, rc: seq<Cli>, rm: seq<Model>)
    requires QuietPlan(Assembled(env, current, c, m, rc, rm))
    ensures c.puts == [] && c.diags == {} && m.puts == [] && m.diags == {}
    ensures ParameterDiags(env, ByKey(Candidate(current, Mutation([], [])).clis), Candidate(current, Mutation([], [])).models) == {}
  {
  }

  lemma NormalFormIsNeeded(env: Validators, orgId: string, now: int, strategy: Strategy, cat: Catalog)
    requires AsStored(cat)
    requires QuietPlan(PlanOf(env, orgId, now, cat, ExportOf(cat), strategy))
    ensures InNormalForm(strategy, cat) && ParametersValid(env, cat)
  {
    var doc := ExportOf(cat);
    QuietPlanHasQuietPasses(env, cat, CliPass(env, orgId, now, cat, doc, strategy), ModelPass(orgId, now, cat, doc, strategy),
                            RetiredClis(env, orgId, now, cat, doc, strategy), RetiredModels(orgId, now, cat, doc, strategy));
    CliPassQuiet(env, orgId, now, strategy, cat);
    ModelPassQuiet(orgId, now, strategy, cat);
    StoredCatalogIsItsOwnCandidate(env, cat);
    forall i | 0 <= i < |cat.clis| ensures StableCli(strategy, cat.clis[i]) { assert StableClis(strategy, cat.clis)[i]; }
    forall i | 0 <= i < |cat.models| ensures StableModel(strategy, cat.models[i]) { assert StableModels(strategy, cat.models)[i]; }
  }

  lemma NormalClisAreQuiet(env: Validators, orgId: string, now: int, strategy: Strategy, cat: Catalog)
    requires AsStored(cat) && InNormalForm(strategy, cat)
    ensures NothingToDo(CliPass(env, orgId, now, cat, ExportOf(cat), strategy), |cat.clis|)
    ensures RetiredClis(env, orgId, now, cat, ExportOf(cat), strategy) == []
  {
    CliPassQuiet(env, orgId, now, strategy, cat);
    NoClisRetired(env, orgId, now, strategy, cat);
    CliPassReportsUnchanged(env, orgId, now, strategy, cat, ExportOf(cat));
  }

  lemma NormalModelsAreQuiet(orgId: string, now: int, strategy: Strategy, cat: Catalog)
    requires AsStored(cat) && InNormalForm(strategy, cat)
    ensures NothingToDo(ModelPass(orgId, now, cat, ExportOf(cat), strategy), |cat.models|)
    ensures RetiredModels(orgId, now, cat, ExportOf(cat), strategy) == []
  {
    ModelPassQuiet(orgId, now, strategy, cat);
    NoModelsRetired(orgId, now, strategy, cat);
    ModelPassReportsUnchanged(orgId, now, strategy, cat, ExportOf(cat));
  }

  lemma NormalFormSuffices(env: Validators, orgId: string, now: int, strategy: Strategy, cat: Catalog)
    requires AsStored(cat) && InNormalForm(strategy, cat) && ParametersValid(env, cat)
    ensures var plan := PlanOf(env, orgId, now, cat, ExportOf(cat), strategy);
            QuietPlan(plan) && |plan.items| == |cat.clis| + |cat.models| && AllUnchanged(plan.items)
  {
    var doc := ExportOf(cat);
    NormalClisAreQuiet(env, orgId, now, strategy, cat);
    NormalModelsAreQuiet(orgId, now, strategy, cat);
    StoredCatalogIsItsOwnCandidate(env, cat);
    AssembledOfNothing(env, cat, CliPass(env, orgId, now, cat, doc, strategy), ModelPass(orgId, now, cat, doc, strategy),
                       |cat.clis|, |cat.models|);
  }

  /** Importing a stored catalog's own export writes nothing and complains of nothing exactly
      when the catalog is in normal form and its models' parameters satisfy their schemas;
      and then every entry is reported as unchanged. */
  lemma OwnExportChangesNothingExactlyWhen(env: Validators, orgId: string, now: int, strategy: Strategy, cat: Catalog)
    requires AsStored(cat)
    ensures var plan := PlanOf(env, orgId, now, cat, ExportOf(cat), strategy);
            && (QuietPlan(plan) <==> InNormalForm(strategy, cat) && ParametersValid(env, cat))
            && (QuietPlan(plan) ==> |plan.items| == |cat.clis| + |cat.models| && AllUnchanged(plan.items))
  {
    if QuietPlan(PlanOf(env, orgId, now, cat, ExportOf(cat), strategy)) {
      NormalFormIsNeeded(env, orgId, now, strategy, cat);
    }
    if InNormalForm(strategy, cat) && ParametersValid(env, cat) {
      NormalFormSuffices(env, orgId, now, strategy, cat);
    }
  }
}
