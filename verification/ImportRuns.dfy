/** Sequences of imports: what the stored catalog keeps from one import to the next. */
module ImportRuns {
  import opened Text
  import opened Json
  import opened Keyed
  import opened ImportPlan
  import opened ImportLaws
  import opened ImportIdempotence
  import opened ImportOwnExport

  // ---------------------------------------------------------------------------
  // What the repository writes
  // ---------------------------------------------------------------------------

  /** Writing a row: an existing row keeps its id, its system mark and its creation time. */
  function Upsert<V>(rows: map<string, Entry<V>>, x: Entry<V>): map<string, Entry<V>> {
    if x.key in rows then
      var prior := rows[x.key];
      rows[x.key := x.(id := prior.id, system := prior.system, createdAt := prior.createdAt)]
    else
      rows[x.key := x]
  }

  function Upserts<V>(rows: map<string, Entry<V>>, xs: seq<Entry<V>>): map<string, Entry<V>> {
    if xs == [] then rows else Upsert(Upserts(rows, xs[..|xs| - 1]), xs[|xs| - 1])
  }

  /** The catalog read back after the mutation has been written. */
  ghost function Persisted(current: Catalog, m: Mutation): Catalog {
    Catalog(current.orgId, current.revision + 1,
            Listing(Upserts(ByKey(current.clis), m.clis)), Listing(Upserts(ByKey(current.models), m.models)))
  }

  predicate SameIdentity<V(==)>(a: Entry<V>, b: Entry<V>) {
    a.key == b.key && a.id == b.id && a.system == b.system && a.createdAt == b.createdAt
  }

  ghost predicate DistinctKeys<V>(xs: seq<Entry<V>>) {
    forall p, q :: 0 <= p < q < |xs| ==> xs[p].key != xs[q].key
  }

  ghost predicate KeepsIdentity<V>(rows: map<string, Entry<V>>, xs: seq<Entry<V>>) {
    forall i :: 0 <= i < |xs| && xs[i].key in rows ==> SameIdentity(xs[i], rows[xs[i].key])
  }

  /** When the written entries keep the identity of the rows they replace, the table ends up
      holding exactly the entries that were laid over it. */
  lemma {:induction false} UpsertsAreOverrides<V>(rows: map<string, Entry<V>>, xs: seq<Entry<V>>)
    requires KeepsIdentity(rows, xs) && DistinctKeys(xs)
    ensures Upserts(rows, xs) == rows + ByKey(xs)
  {
    if xs != [] {
      var n := |xs| - 1;
      UpsertsAreOverrides(rows, xs[..n]);
      ByKeyFindsLast(xs[..n], xs[n].key);
      assert xs[n].key !in ByKey(xs[..n]);
    }
  }

  // ---------------------------------------------------------------------------
  // One list, after an import
  // ---------------------------------------------------------------------------

  /** Every entry has an id and a creation time. */
  ghost predicate Rooted<V>(xs: seq<Entry<V>>) {
    InKeyOrder(xs) && forall i :: 0 <= i < |xs| ==> xs[i].id != "" && xs[i].createdAt != 0
  }

  lemma RootedLookup<V>(xs: seq<Entry<V>>, k: string)
    requires Rooted(xs) && k in ByKey(xs)
    ensures ByKey(xs)[k].key == k && ByKey(xs)[k].id != "" && ByKey(xs)[k].createdAt != 0
  {
    ByKeyFindsLast(xs, k);
  }

  /** What an entry puts over an existing one keeps its identity; what it creates has a creation time. */
  ghost predicate PutsKeepIdentity<V>(rows: map<string, Entry<V>>, os: seq<Outcome<V>>) {
    forall i :: 0 <= i < |os| && os[i].put.Some? ==>
      && os[i].put.value.createdAt != 0
      && (os[i].put.value.key in rows ==> SameIdentity(os[i].put.value, rows[os[i].put.value.key]))
  }

  lemma {:induction false} PutsAreOutcomes<V>(kind: Kind, keys: seq<string>, os: seq<Outcome<V>>, n: nat)
    requires n <= |keys| && PutsAreKeyed(keys, os) && DistinctTo(keys, n)
    ensures var puts := Fold(kind, keys, os, n).puts;
            && DistinctKeys(puts)
            && forall x :: x in puts ==> exists i :: 0 <= i < n && os[i].put == Some(x)
  {
    if n > 0 {
      PutsAreOutcomes(kind, keys, os, n - 1);
      PassIsCleanExactlyWhen(kind, keys, os, n - 1);
      var prior := Fold(kind, keys, os, n - 1);
      forall x | x in prior.puts ensures x.key != keys[n - 1] {
        var i :| 0 <= i < n - 1 && os[i].put == Some(x);
        assert keys[i] != keys[n - 1];
      }
    }
  }

  lemma {:induction false} RetiredComeFrom<V>(xs: seq<Entry<V>>, seen: set<string>, now: int)
    requires DistinctKeys(xs)
    ensures DistinctKeys(Retired(xs, seen, now))
    ensures forall y :: y in Retired(xs, seen, now) ==>
              y.key !in seen && exists x :: x in xs && y == x.(enabled := false, updatedAt := now)
  {
    if xs != [] {
      var n := |xs| - 1;
      RetiredComeFrom(xs[..n], seen, now);
      var rest := Retired(xs[..n], seen, now);
      forall y | y in rest ensures y.key != xs[n].key && exists x :: x in xs && y == x.(enabled := false, updatedAt := now) {
        var x :| x in xs[..n] && y == x.(enabled := false, updatedAt := now);
        assert x in xs;
      }
    }
  }

  /** The entries a plan writes to one list: pairwise different keys, identities kept. */
  lemma WrittenKeepIdentity<V>(kind: Kind, keys: seq<string>, os: seq<Outcome<V>>, current: seq<Entry<V>>,
                               retired: seq<Entry<V>>, filled: seq<Entry<V>>, now: int)
    requires PutsAreKeyed(keys, os) && DistinctTo(keys, |keys|) && Rooted(current)
    requires PutsKeepIdentity(ByKey(current), os)
    requires retired == [] || retired == Retired(current, Fold(kind, keys, os, |keys|).seen, now)
    requires IdsFilled(Fold(kind, keys, os, |keys|).puts + retired, filled)
    ensures DistinctKeys(filled) && KeepsIdentity(ByKey(current), filled)
    ensures forall i :: 0 <= i < |filled| ==> filled[i].id != "" && filled[i].createdAt != 0
  {
    var p := Fold(kind, keys, os, |keys|);
    var all := p.puts + retired;
    PutsAreOutcomes(kind, keys, os, |keys|);
    PutsAreSeen(kind, keys, os);
    DistinctKeysInOrder(current);
    RetiredComeFrom(current, p.seen, now);
    assert DistinctKeys(all) by {
      forall a, b | 0 <= a < b < |all| ensures all[a].key != all[b].key {
        if a < |p.puts| <= b {
          assert p.puts[a] in p.puts && retired[b - |p.puts|] in retired;
        }
      }
    }
    forall i | 0 <= i < |all|
      ensures all[i].createdAt != 0 && (all[i].key in ByKey(current) ==> SameIdentity(all[i], ByKey(current)[all[i].key]))
    {
      WrittenEntryKeepsIdentity(kind, keys, os, current, retired, now, all[i]);
    }
    forall i | 0 <= i < |filled| && filled[i].key in ByKey(current)
      ensures SameIdentity(filled[i], ByKey(current)[filled[i].key])
    {
      RootedLookup(current, filled[i].key);
      assert SameButId(all[i], filled[i]);
    }
  }

  lemma WrittenEntryKeepsIdentity<V>(kind: Kind, keys: seq<string>, os: seq<Outcome<V>>, current: seq<Entry<V>>,
                                     retired: seq<Entry<V>>, now: int, y: Entry<V>)
    requires PutsAreKeyed(keys, os) && DistinctTo(keys, |keys|) && Rooted(current)
    requires PutsKeepIdentity(ByKey(current), os)
    requires retired == [] || retired == Retired(current, Fold(kind, keys, os, |keys|).seen, now)
    requires y in Fold(kind, keys, os, |keys|).puts + retired
    ensures y.createdAt != 0
    ensures y.key in ByKey(current) ==> SameIdentity(y, ByKey(current)[y.key])
  {
    var p := Fold(kind, keys, os, |keys|);
    PutsAreOutcomes(kind, keys, os, |keys|);
    DistinctKeysInOrder(current);
    RetiredComeFrom(current, p.seen, now);
    if y in p.puts {
      var i :| 0 <= i < |keys| && os[i].put == Some(y);
    } else {
      assert y in retired;
      var x :| x in current && y == x.(enabled := false, updatedAt := now);
      var j :| 0 <= j < |current| && current[j] == x;
      ByKeyOfDistinct(current, j);
    }
  }

  /** What one list holds after an import, key by key. `mentioned` are the document's keys. */
  ghost predicate ListKept<V>(strategy: Strategy, mentioned: set<string>, before: map<string, Entry<V>>, after: map<string, Entry<V>>) {
    && before.Keys <= after.Keys <= before.Keys + mentioned
    && (forall k :: k in before ==> SameIdentity(after[k], before[k]))
    && (strategy == CreateOnly ==> forall k :: k in before ==> after[k] == before[k])
    && (strategy == MergeAll ==> forall k :: k in before && k !in mentioned ==> after[k] == before[k])
    && (strategy == Replace ==> forall k :: k in after && after[k].enabled ==> k in mentioned)
    && (strategy == Replace ==> forall k :: k in before && k !in mentioned ==> after[k].fields == before[k].fields)
  }

  /** The hypotheses under which one list is written. */
  ghost predicate WritesList<V>(kind: Kind, keys: seq<string>, os: seq<Outcome<V>>, strategy: Strategy, current: seq<Entry<V>>,
                                retired: seq<Entry<V>>, filled: seq<Entry<V>>, now: int)
  {
    && PutsAreKeyed(keys, os) && DistinctTo(keys, |keys|) && Rooted(current)
    && PutsKeepIdentity(ByKey(current), os)
    && retired == (if strategy == Replace then Retired(current, Fold(kind, keys, os, |keys|).seen, now) else [])
    && IdsFilled(Fold(kind, keys, os, |keys|).puts + retired, filled)
    && (strategy == CreateOnly ==> forall i :: 0 <= i < |keys| && keys[i] in ByKey(current) ==> os[i].put.None?)
  }

  /** A key that the mutation writes is either mentioned and put, or unmentioned and retired. */
  lemma WrittenKey<V>(kind: Kind, keys: seq<string>, os: seq<Outcome<V>>, strategy: Strategy, current: seq<Entry<V>>,
                      retired: seq<Entry<V>>, filled: seq<Entry<V>>, now: int, k: string)
    requires WritesList(kind, keys, os, strategy, current, retired, filled, now)
    requires k in ByKey(filled)
    ensures k in ByKey(Fold(kind, keys, os, |keys|).puts + retired)
    ensures var y := ByKey(Fold(kind, keys, os, |keys|).puts + retired)[k];
            && y.key == k && SameButId(y, ByKey(filled)[k])
            && (k in Fold(kind, keys, os, |keys|).seen ==>
                  exists i :: 0 <= i < |keys| && keys[i] == k && os[i].put == Some(y))
            && (k !in Fold(kind, keys, os, |keys|).seen ==>
                  strategy == Replace && k in ByKey(current) && y == ByKey(current)[k].(enabled := false, updatedAt := now))
  {
    var p := Fold(kind, keys, os, |keys|);
    var all := p.puts + retired;
    IdsFilledLookup(all, filled);
    ByKeyFindsLast(all, k);
    var y := ByKey(all)[k];
    PutsAreOutcomes(kind, keys, os, |keys|);
    PutsAreSeen(kind, keys, os);
    DistinctKeysInOrder(current);
    RetiredComeFrom(current, p.seen, now);
    if y in p.puts {
      var i :| 0 <= i < |keys| && os[i].put == Some(y);
      assert keys[i] == k;
    } else {
      assert y in retired;
      var x :| x in current && y == x.(enabled := false, updatedAt := now);
      var j :| 0 <= j < |current| && current[j] == x;
      ByKeyOfDistinct(current, j);
    }
  }

  lemma ListAfterImport<V>(kind: Kind, keys: seq<string>, os: seq<Outcome<V>>, strategy: Strategy, current: seq<Entry<V>>,
                           retired: seq<Entry<V>>, filled: seq<Entry<V>>, now: int)
    requires WritesList(kind, keys, os, strategy, current, retired, filled, now)
    ensures ListKept(strategy, Fold(kind, keys, os, |keys|).seen, ByKey(current), ByKey(current) + ByKey(filled))
  {
    var seen, before, written := Fold(kind, keys, os, |keys|).seen, ByKey(current), ByKey(filled);
    PassIsCleanExactlyWhen(kind, keys, os, |keys|);
    WrittenKeepIdentity(kind, keys, os, current, retired, filled, now);
    forall k | k in written
      ensures k in before || k in seen
      ensures k in before ==> SameIdentity(written[k], before[k])
      ensures k !in seen ==> strategy == Replace && !written[k].enabled && k in before && written[k].fields == before[k].fields
      ensures strategy == CreateOnly ==> k !in before
    {
      WrittenKey(kind, keys, os, strategy, current, retired, filled, now, k);
      ByKeyFindsLast(filled, k);
      if k in before {
        var i :| 0 <= i < |filled| && filled[i] == written[k];
        assert SameIdentity(filled[i], before[k]);
      }
    }
    forall k | k in before ensures SameIdentity((before + written)[k], before[k]) {
      ByKeyFindsLast(current, k);
    }
    if strategy == Replace {
      forall k | k in before && k !in seen && k !in written ensures !before[k].enabled {
        ByKeyFindsLast(current, k);
        RetiredCovers(current, seen, now, before[k]);
        ByKeyOfConcat(Fold(kind, keys, os, |keys|).puts, retired);
        IdsFilledLookup(Fold(kind, keys, os, |keys|).puts + retired, filled);
      }
    }
  }

  lemma RootedAfterImport<V>(current: seq<Entry<V>>, filled: seq<Entry<V>>)
    requires Rooted(current)
    requires forall i :: 0 <= i < |filled| ==> filled[i].id != "" && filled[i].createdAt != 0
    ensures Rooted(Merged(current, filled))
  {
    MergedLookup(current, filled);
    var out := Merged(current, filled);
    forall i | 0 <= i < |out| ensures out[i].id != "" && out[i].createdAt != 0 {
      ListedIsFound(current, filled, out[i]);
      var k := out[i].key;
      if k in ByKey(filled) {
        ByKeyFindsLast(filled, k);
      } else {
        RootedLookup(current, k);
      }
    }
  }

  // ---------------------------------------------------------------------------
  // One import
  // ---------------------------------------------------------------------------

  datatype Request = Request(doc: Document, strategy: Strategy, now: int)

  ghost function PlanFor(env: Validators, before: Catalog, req: Request): Plan {
    PlanOf(env, before.orgId, req.now, before, req.doc, req.strategy)
  }

  /** An import either is refused, or finds nothing to change, or is written. */
  ghost predicate ImportStep(env: Validators, before: Catalog, req: Request, after: Catalog) {
    var plan := PlanFor(env, before, req);
    if plan.diags != {} || AllUnchanged(plan.items) then after == before
    else exists filled :: MutationIdsFilled(plan.mutation, filled) && after == Persisted(before, filled)
  }

  ghost predicate NoPlaceholders(xs: seq<Model>) {
    forall i :: 0 <= i < |xs| ==> PlaceholderFree(Obj(xs[i].fields.parameters))
  }

  ghost predicate Sound(cat: Catalog) {
    Rooted(cat.clis) && Rooted(cat.models) && NoPlaceholders(cat.models)
  }

  lemma CliPutsKeepIdentity(env: Validators, orgId: string, now: int, strategy: Strategy, current: seq<Cli>, xs: seq<Exported<CliFields>>)
    requires Rooted(current) && now != 0
    ensures PutsKeepIdentity(ByKey(current), CliOutcomes(env, orgId, now, strategy, ByKey(current), xs))
  {
    forall i | 0 <= i < |xs| && TrimSpace(xs[i].key) in ByKey(current)
      ensures ByKey(current)[TrimSpace(xs[i].key)].createdAt != 0 && ByKey(current)[TrimSpace(xs[i].key)].key == TrimSpace(xs[i].key)
    {
      RootedLookup(current, TrimSpace(xs[i].key));
    }
  }

  lemma ModelPutsKeepIdentity(orgId: string, now: int, strategy: Strategy, current: seq<Model>, xs: seq<Exported<ModelFields>>)
    requires Rooted(current) && now != 0
    ensures PutsKeepIdentity(ByKey(current), ModelOutcomes(orgId, now, strategy, ByKey(current), xs))
  {
    forall i | 0 <= i < |xs| && TrimSpace(xs[i].key) in ByKey(current)
      ensures ByKey(current)[TrimSpace(xs[i].key)].createdAt != 0 && ByKey(current)[TrimSpace(xs[i].key)].key == TrimSpace(xs[i].key)
    {
      RootedLookup(current, TrimSpace(xs[i].key));
    }
  }

  /** The stored value of a faultless entry carries no placeholder. */
  lemma PutHasNoPlaceholder(orgId: string, now: int, strategy: Strategy, existing: map<string, Model>, i: nat, raw: Exported<ModelFields>)
    requires forall k :: k in existing ==> PlaceholderFree(Obj(existing[k].fields.parameters))
    requires ModelOutcome(orgId, now, strategy, existing, i, raw).diags == {}
    ensures var o := ModelOutcome(orgId, now, strategy, existing, i, raw);
            o.put.Some? ==> PlaceholderFree(Obj(o.put.value.fields.parameters))
  {
    var x := NormalModel(raw);
    var params := Obj(x.fields.parameters);
    if x.key in existing {
      if strategy != CreateOnly {
        var prior := Obj(existing[x.key].fields.parameters);
        UnfilledIffMissing(i, x.key, Unresolved(params, prior, []));
        UnresolvedIffNotResolves(params, prior, []);
        RestoreStoresNoPlaceholder(params, prior);
      }
    } else {
      UnfilledIffMissing(i, x.key, Unresolved(params, Obj(map[]), []));
      UnresolvedIffNotResolves(params, Obj(map[]), []);
      ResolvesAgainstNothing(params, Obj(map[]));
    }
  }

  ghost predicate ClisWritten(env: Validators, before: Catalog, req: Request, filled: seq<Cli>) {
    WritesList(CliKind, CliKeys(req.doc.clis), CliOutcomes(env, before.orgId, req.now, req.strategy, ByKey(before.clis), req.doc.clis),
               req.strategy, before.clis, RetiredClis(env, before.orgId, req.now, before, req.doc, req.strategy), filled, req.now)
  }

  ghost predicate ModelsWritten(before: Catalog, req: Request, filled: seq<Model>) {
    WritesList(ModelKind, ModelKeys(req.doc.models), ModelOutcomes(before.orgId, req.now, req.strategy, ByKey(before.models), req.doc.models),
               req.strategy, before.models, RetiredModels(before.orgId, req.now, before, req.doc, req.strategy), filled, req.now)
  }

  lemma AcceptedClisAreWritten(env: Validators, before: Catalog, req: Request, filled: Mutation)
    requires Rooted(before.clis) && req.now != 0 && PlanFor(env, before, req).diags == {}
    requires MutationIdsFilled(PlanFor(env, before, req).mutation, filled)
    ensures ClisWritten(env, before, req, filled.clis)
  {
    var keys := CliKeys(req.doc.clis);
    var os := CliOutcomes(env, before.orgId, req.now, req.strategy, ByKey(before.clis), req.doc.clis);
    assert CliPass(env, before.orgId, req.now, before, req.doc, req.strategy).diags == {};
    PassIsCleanExactlyWhen(CliKind, keys, os, |keys|);
    CliOutcomesAreKeyed(env, before.orgId, req.now, req.strategy, ByKey(before.clis), req.doc.clis);
    CliPutsKeepIdentity(env, before.orgId, req.now, req.strategy, before.clis, req.doc.clis);
  }

  lemma AcceptedModelsAreWritten(env: Validators, before: Catalog, req: Request, filled: Mutation)
    requires Rooted(before.models) && req.now != 0 && PlanFor(env, before, req).diags == {}
    requires MutationIdsFilled(PlanFor(env, before, req).mutation, filled)
    ensures ModelsWritten(before, req, filled.models)
    ensures forall i :: 0 <= i < |req.doc.models| ==>
              ModelOutcomes(before.orgId, req.now, req.strategy, ByKey(before.models), req.doc.models)[i].diags == {}
  {
    var keys := ModelKeys(req.doc.models);
    var os := ModelOutcomes(before.orgId, req.now, req.strategy, ByKey(before.models), req.doc.models);
    assert ModelPass(before.orgId, req.now, before, req.doc, req.strategy).diags == {};
    PassIsCleanExactlyWhen(ModelKind, keys, os, |keys|);
    ModelOutcomesAreKeyed(before.orgId, req.now, req.strategy, ByKey(before.models), req.doc.models);
    ModelPutsKeepIdentity(before.orgId, req.now, req.strategy, before.models, req.doc.models);
  }

  /** The parameters are those that some entry of the document puts. */
  ghost predicate PutByDocument(before: Catalog, req: Request, params: map<string, Json>) {
    exists i :: 0 <= i < |req.doc.models| &&
      var o := ModelOutcome(before.orgId, req.now, req.strategy, ByKey(before.models), i, req.doc.models[i]);
      o.put.Some? && o.put.value.fields.parameters == params
  }

  lemma WrittenModelOrigin(before: Catalog, req: Request, filled: seq<Model>, k: string)
    requires ModelsWritten(before, req, filled) && k in ByKey(filled)
    ensures || PutByDocument(before, req, ByKey(filled)[k].fields.parameters)
            || (k in ByKey(before.models) && ByKey(filled)[k].fields.parameters == ByKey(before.models)[k].fields.parameters)
  {
    var keys := ModelKeys(req.doc.models);
    var os := ModelOutcomes(before.orgId, req.now, req.strategy, ByKey(before.models), req.doc.models);
    WrittenKey(ModelKind, keys, os, req.strategy, before.models,
               RetiredModels(before.orgId, req.now, before, req.doc, req.strategy), filled, req.now, k);
    if k in Fold(ModelKind, keys, os, |keys|).seen {
      var i :| 0 <= i < |keys| && keys[i] == k && os[i].put.Some? && SameButId(os[i].put.value, ByKey(filled)[k]);
      assert os[i] == ModelOutcome(before.orgId, req.now, req.strategy, ByKey(before.models), i, req.doc.models[i]);
    }
  }

  lemma WrittenModelHasNoPlaceholder(env: Validators, before: Catalog, req: Request, filled: Mutation, k: string)
    requires Sound(before) && req.now != 0 && PlanFor(env, before, req).diags == {}
    requires MutationIdsFilled(PlanFor(env, before, req).mutation, filled) && k in ByKey(filled.models)
    ensures PlaceholderFree(Obj(ByKey(filled.models)[k].fields.parameters))
  {
    AcceptedModelsAreWritten(env, before, req, filled);
    WrittenModelOrigin(before, req, filled.models, k);
    var params := ByKey(filled.models)[k].fields.parameters;
    if PutByDocument(before, req, params) {
      PutParametersAreFree(env, before, req, filled, params);
    } else {
      ByKeyFindsLast(before.models, k);
    }
  }

  lemma PutParametersAreFree(env: Validators, before: Catalog, req: Request, filled: Mutation, params: map<string, Json>)
    requires Sound(before) && req.now != 0 && PlanFor(env, before, req).diags == {}
    requires MutationIdsFilled(PlanFor(env, before, req).mutation, filled) && PutByDocument(before, req, params)
    ensures PlaceholderFree(Obj(params))
  {
    AcceptedModelsAreWritten(env, before, req, filled);
    forall k | k in ByKey(before.models) ensures PlaceholderFree(Obj(ByKey(before.models)[k].fields.parameters)) {
      ByKeyFindsLast(before.models, k);
    }
    var i :| 0 <= i < |req.doc.models| &&
      var o := ModelOutcome(before.orgId, req.now, req.strategy, ByKey(before.models), i, req.doc.models[i]);
      o.put.Some? && o.put.value.fields.parameters == params;
    assert ModelOutcomes(before.orgId, req.now, req.strategy, ByKey(before.models), req.doc.models)[i] ==
           ModelOutcome(before.orgId, req.now, req.strategy, ByKey(before.models), i, req.doc.models[i]);
    PutHasNoPlaceholder(before.orgId, req.now, req.strategy, ByKey(before.models), i, req.doc.models[i]);
  }

  lemma NoPlaceholderAfterImport(env: Validators, before: Catalog, req: Request, filled: Mutation)
    requires Sound(before) && req.now != 0 && PlanFor(env, before, req).diags == {}
    requires MutationIdsFilled(PlanFor(env, before, req).mutation, filled)
    ensures NoPlaceholders(Merged(before.models, filled.models))
  {
    var out := Merged(before.models, filled.models);
    forall j | 0 <= j < |out| ensures PlaceholderFree(Obj(out[j].fields.parameters)) {
      ListedIsFound(before.models, filled.models, out[j]);
      var k := out[j].key;
      if k in ByKey(filled.models) {
        WrittenModelHasNoPlaceholder(env, before, req, filled, k);
      } else {
        ByKeyFindsLast(before.models, k);
      }
    }
  }

  lemma ClisUpserted(env: Validators, before: Catalog, req: Request, filled: seq<Cli>)
    requires ClisWritten(env, before, req, filled)
    ensures Upserts(ByKey(before.clis), filled) == ByKey(before.clis) + ByKey(filled)
  {
    WrittenKeepIdentity(CliKind, CliKeys(req.doc.clis), CliOutcomes(env, before.orgId, req.now, req.strategy, ByKey(before.clis), req.doc.clis),
                        before.clis, RetiredClis(env, before.orgId, req.now, before, req.doc, req.strategy), filled, req.now);
    UpsertsAreOverrides(ByKey(before.clis), filled);
  }

  lemma ModelsUpserted(before: Catalog, req: Request, filled: seq<Model>)
    requires ModelsWritten(before, req, filled)
    ensures Upserts(ByKey(before.models), filled) == ByKey(before.models) + ByKey(filled)
  {
    WrittenKeepIdentity(ModelKind, ModelKeys(req.doc.models), ModelOutcomes(before.orgId, req.now, req.strategy, ByKey(before.models), req.doc.models),
                        before.models, RetiredModels(before.orgId, req.now, before, req.doc, req.strategy), filled, req.now);
    UpsertsAreOverrides(ByKey(before.models), filled);
  }

  /** What the database holds after an accepted import is what the audit record says it holds. */
  lemma PersistedIsTheCandidate(env: Validators, before: Catalog, req: Request, filled: Mutation)
    requires Sound(before) && req.now != 0 && PlanFor(env, before, req).diags == {}
    requires MutationIdsFilled(PlanFor(env, before, req).mutation, filled)
    ensures Persisted(before, filled) == Candidate(before, filled).(revision := before.revision + 1)
  {
    AcceptedClisAreWritten(env, before, req, filled);
    AcceptedModelsAreWritten(env, before, req, filled);
    ClisUpserted(env, before, req, filled.clis);
    ModelsUpserted(before, req, filled.models);
  }

  function MentionedClis(doc: Document): set<string> {
    set k | k in CliKeys(doc.clis)
  }

  function MentionedModels(doc: Document): set<string> {
    set k | k in ModelKeys(doc.models)
  }

  ghost predicate CatalogKept(strategy: Strategy, doc: Document, before: Catalog, after: Catalog) {
    && ListKept(strategy, MentionedClis(doc), ByKey(before.clis), ByKey(after.clis))
    && ListKept(strategy, MentionedModels(doc), ByKey(before.models), ByKey(after.models))
  }

  lemma WrittenImportKeeps(env: Validators, before: Catalog, req: Request, filled: Mutation)
    requires Sound(before) && req.now != 0 && PlanFor(env, before, req).diags == {}
    requires MutationIdsFilled(PlanFor(env, before, req).mutation, filled)
    ensures Sound(Candidate(before, filled))
    ensures CatalogKept(req.strategy, req.doc, before, Candidate(before, filled))
  {
    AcceptedClisAreWritten(env, before, req, filled);
    AcceptedModelsAreWritten(env, before, req, filled);
    NoPlaceholderAfterImport(env, before, req, filled);
    MergedLookup(before.clis, filled.clis);
    MergedLookup(before.models, filled.models);
    ClisKept(env, before, req, filled.clis);
    ModelsKept(env, before, req, filled.models);
  }

  lemma ClisKept(env: Validators, before: Catalog, req: Request, filled: seq<Cli>)
    requires ClisWritten(env, before, req, filled)
    ensures Rooted(Merged(before.clis, filled))
    ensures ListKept(req.strategy, MentionedClis(req.doc), ByKey(before.clis), ByKey(before.clis) + ByKey(filled))
  {
    var keys := CliKeys(req.doc.clis);
    var os := CliOutcomes(env, before.orgId, req.now, req.strategy, ByKey(before.clis), req.doc.clis);
    var retired := RetiredClis(env, before.orgId, req.now, before, req.doc, req.strategy);
    PassIsCleanExactlyWhen(CliKind, keys, os, |keys|);
    assert Fold(CliKind, keys, os, |keys|).seen == MentionedClis(req.doc);
    ListAfterImport(CliKind, keys, os, req.strategy, before.clis, retired, filled, req.now);
    WrittenKeepIdentity(CliKind, keys, os, before.clis, retired, filled, req.now);
    RootedAfterImport(before.clis, filled);
  }

  lemma ModelsSeen(before: Catalog, req: Request)
    ensures ModelPass(before.orgId, req.now, before, req.doc, req.strategy).seen == MentionedModels(req.doc)
  {
    var keys := ModelKeys(req.doc.models);
    var os := ModelOutcomes(before.orgId, req.now, req.strategy, ByKey(before.models), req.doc.models);
    PassIsCleanExactlyWhen(ModelKind, keys, os, |keys|);
  }

  lemma ModelsKept(env: Validators, before: Catalog, req: Request, filled: seq<Model>)
    requires ModelsWritten(before, req, filled)
    ensures Rooted(Merged(before.models, filled))
    ensures ListKept(req.strategy, MentionedModels(req.doc), ByKey(before.models), ByKey(before.models) + ByKey(filled))
  {
    var keys := ModelKeys(req.doc.models);
    var os := ModelOutcomes(before.orgId, req.now, req.strategy, ByKey(before.models), req.doc.models);
    var retired := RetiredModels(before.orgId, req.now, before, req.doc, req.strategy);
    ModelsSeen(before, req);
    ListAfterImport(ModelKind, keys, os, req.strategy, before.models, retired, filled, req.now);
    WrittenKeepIdentity(ModelKind, keys, os, before.models, retired, filled, req.now);
    RootedAfterImport(before.models, filled);
  }

  lemma UnchangedItemsWriteNothing<V>(kind: Kind, keys: seq<string>, os: seq<Outcome<V>>)
    requires |keys| == |os| && DistinctTo(keys, |keys|)
    requires forall i :: 0 <= i < |os| && os[i].item.action == Unchanged ==> os[i].put.None?
    requires AllUnchanged(Fold(kind, keys, os, |keys|).items)
    ensures Fold(kind, keys, os, |keys|).puts == []
  {
    PassReportsEveryEntry(kind, keys, os, |keys|);
    NoPutsNoWrites(kind, keys, os, |keys|);
    forall i | 0 <= i < |keys| ensures os[i].put.None? { assert Fold(kind, keys, os, |keys|).items[i] == os[i].item; }
  }

  lemma BothUnchanged(a: seq<Item>, b: seq<Item>)
    requires AllUnchanged(a + b)
    ensures AllUnchanged(a) && AllUnchanged(b)
  {
    forall i | 0 <= i < |a| ensures a[i].action == Unchanged { assert (a + b)[i] == a[i]; }
    forall i | 0 <= i < |b| ensures b[i].action == Unchanged { assert (a + b)[|a| + i] == b[i]; }
  }

  lemma DisablingIsAChange<V>(kind: Kind, xs: seq<Entry<V>>)
    ensures AllUnchanged(DisableItems(kind, xs)) ==> xs == []
  {
    if xs != [] { assert DisableItems(kind, xs)[0].action != Unchanged; }
  }

  lemma AllUnchangedParts(env: Validators, current: Catalog, c: Pass<CliFields>, m: Pass<ModelFields>, rc: seq<Cli>, rm: seq<Model>)
    requires AllUnchanged(Assembled(env, current, c, m, rc, rm).items)
    ensures AllUnchanged(c.items) && AllUnchanged(m.items) && rc == [] && rm == []
  {
    var dm, dc := DisableItems(ModelKind, rm), DisableItems(CliKind, rc);
    BothUnchanged(c.items + m.items + dm, dc);
    BothUnchanged(c.items + m.items, dm);
    BothUnchanged(c.items, m.items);
    DisablingIsAChange(ModelKind, rm);
    DisablingIsAChange(CliKind, rc);
  }

  lemma UnchangedClisWriteNothing(env: Validators, before: Catalog, req: Request)
    requires CliPass(env, before.orgId, req.now, before, req.doc, req.strategy).diags == {}
    requires AllUnchanged(CliPass(env, before.orgId, req.now, before, req.doc, req.strategy).items)
    ensures CliPass(env, before.orgId, req.now, before, req.doc, req.strategy).puts == []
  {
    var os := CliOutcomes(env, before.orgId, req.now, req.strategy, ByKey(before.clis), req.doc.clis);
    PassIsCleanExactlyWhen(CliKind, CliKeys(req.doc.clis), os, |os|);
    UnchangedItemsWriteNothing(CliKind, CliKeys(req.doc.clis), os);
  }

  lemma UnchangedModelPutsNothing(orgId: string, now: int, strategy: Strategy, existing: map<string, Model>, i: nat, raw: Exported<ModelFields>)
    ensures var o := ModelOutcome(orgId, now, strategy, existing, i, raw); o.item.action == Unchanged ==> o.put.None?
  {
  }

  lemma UnchangedModelsWriteNothing(before: Catalog, req: Request)
    requires ModelPass(before.orgId, req.now, before, req.doc, req.strategy).diags == {}
    requires AllUnchanged(ModelPass(before.orgId, req.now, before, req.doc, req.strategy).items)
    ensures ModelPass(before.orgId, req.now, before, req.doc, req.strategy).puts == []
  {
    var os := ModelOutcomes(before.orgId, req.now, req.strategy, ByKey(before.models), req.doc.models);
    PassIsCleanExactlyWhen(ModelKind, ModelKeys(req.doc.models), os, |os|);
    forall i | 0 <= i < |os| ensures os[i].item.action == Unchanged ==> os[i].put.None? {
      UnchangedModelPutsNothing(before.orgId, req.now, req.strategy, ByKey(before.models), i, req.doc.models[i]);
    }
    UnchangedItemsWriteNothing(ModelKind, ModelKeys(req.doc.models), os);
  }

  /** An accepted import that reports every entry as unchanged has nothing to write. */
  lemma AllUnchangedWritesNothing(env: Validators, before: Catalog, req: Request)
    requires PlanFor(env, before, req).diags == {} && AllUnchanged(PlanFor(env, before, req).items)
    ensures PlanFor(env, before, req).mutation == Mutation([], [])
  {
    AllUnchangedParts(env, before, CliPass(env, before.orgId, req.now, before, req.doc, req.strategy),
                      ModelPass(before.orgId, req.now, before, req.doc, req.strategy),
                      RetiredClis(env, before.orgId, req.now, before, req.doc, req.strategy),
                      RetiredModels(before.orgId, req.now, before, req.doc, req.strategy));
    UnchangedClisWriteNothing(env, before, req);
    UnchangedModelsWriteNothing(before, req);
  }

  /** One import: the catalog stays sound, the revision grows only with a write, and what an
      accepted import leaves is what its strategy allows. */
  lemma ImportKeeps(env: Validators, before: Catalog, req: Request, after: Catalog)
    requires Sound(before) && req.now != 0 && ImportStep(env, before, req, after)
    ensures Sound(after)
    ensures after == before || after.revision == before.revision + 1
    ensures PlanFor(env, before, req).diags == {} ==> CatalogKept(req.strategy, req.doc, before, after)
  {
    var plan := PlanFor(env, before, req);
    if plan.diags == {} {
      if AllUnchanged(plan.items) {
        AllUnchangedWritesNothing(env, before, req);
        WrittenImportKeeps(env, before, req, Mutation([], []));
        StoredCatalogIsItsOwnCandidate(env, before);
      } else {
        var filled :| MutationIdsFilled(plan.mutation, filled) && after == Persisted(before, filled);
        PersistedIsTheCandidate(env, before, req, filled);
        WrittenImportKeeps(env, before, req, filled);
      }
    }
  }

  // ---------------------------------------------------------------------------
  // Many imports
  // ---------------------------------------------------------------------------

  ghost predicate IdentitiesIn<V>(a: map<string, Entry<V>>, b: map<string, Entry<V>>) {
    forall k :: k in a ==> k in b && SameIdentity(b[k], a[k])
  }

  ghost predicate IdentitiesKept(a: Catalog, b: Catalog) {
    IdentitiesIn(ByKey(a.clis), ByKey(b.clis)) && IdentitiesIn(ByKey(a.models), ByKey(b.models))
  }

  lemma IdentitiesChain<V>(a: map<string, Entry<V>>, b: map<string, Entry<V>>, c: map<string, Entry<V>>)
    requires IdentitiesIn(a, b) && IdentitiesIn(b, c)
    ensures IdentitiesIn(a, c)
  {
  }

  lemma IdentitiesStay(cat: Catalog)
    ensures IdentitiesKept(cat, cat)
  {
  }

  /** What one import leaves alone whether or not it is refused. */
  ghost predicate Grown(a: Catalog, b: Catalog) {
    && IdentitiesKept(a, b)
    && a.revision <= b.revision
    && (a.revision == b.revision ==> a == b)
  }

  lemma GrownChain(a: Catalog, b: Catalog, c: Catalog)
    requires Grown(a, b) && Grown(b, c)
    ensures Grown(a, c)
  {
    IdentitiesChain(ByKey(a.clis), ByKey(b.clis), ByKey(c.clis));
    IdentitiesChain(ByKey(a.models), ByKey(b.models), ByKey(c.models));
  }

  lemma KeptIsGrown(strategy: Strategy, doc: Document, a: Catalog, b: Catalog)
    requires CatalogKept(strategy, doc, a, b)
    ensures IdentitiesKept(a, b)
  {
  }

  lemma ImportGrows(env: Validators, before: Catalog, req: Request, after: Catalog)
    requires Sound(before) && req.now != 0 && ImportStep(env, before, req, after)
    ensures Sound(after) && Grown(before, after)
  {
    ImportKeeps(env, before, req, after);
    if PlanFor(env, before, req).diags == {} {
      KeptIsGrown(req.strategy, req.doc, before, after);
    } else {
      IdentitiesStay(before);
    }
  }

  /** One step of a run, from any actor's request. */
  ghost predicate Imported(env: Validators, before: Catalog, req: Request, after: Catalog) {
    req.now != 0 && ImportStep(env, before, req, after)
  }

  ghost predicate ImportRun(env: Validators, cats: seq<Catalog>, reqs: seq<Request>) {
    |cats| == |reqs| + 1 && forall i :: 0 <= i < |reqs| ==> Imported(env, cats[i], reqs[i], cats[i + 1])
  }

  lemma OneMoreImport(env: Validators, cats: seq<Catalog>, reqs: seq<Request>, i: nat)
    requires ImportRun(env, cats, reqs) && i < |reqs| && Sound(cats[i])
    ensures Sound(cats[i + 1]) && Grown(cats[i], cats[i + 1])
  {
    assert Imported(env, cats[i], reqs[i], cats[i + 1]);
    ImportGrows(env, cats[i], reqs[i], cats[i + 1]);
  }

  /** Over any sequence of imports from a sound catalog no placeholder is ever stored and
      every entry always has an id and a creation time. */
  lemma {:induction false} RunStaysSound(env: Validators, cats: seq<Catalog>, reqs: seq<Request>, i: nat)
    requires ImportRun(env, cats, reqs) && Sound(cats[0]) && i < |cats|
    ensures Sound(cats[i])
  {
    if i > 0 {
      RunStaysSound(env, cats, reqs, i - 1);
      OneMoreImport(env, cats, reqs, i - 1);
    }
  }

  /** Over any sequence of imports no entry disappears, and each keeps its id, its system mark
      and its creation time; and the catalog changes only together with its revision. */
  lemma {:induction false} RunKeepsIdentities(env: Validators, cats: seq<Catalog>, reqs: seq<Request>, i: nat, j: nat)
    requires ImportRun(env, cats, reqs) && Sound(cats[0]) && i <= j < |cats|
    ensures Grown(cats[i], cats[j])
  {
    if i < j {
      RunKeepsIdentities(env, cats, reqs, i, j - 1);
      RunStaysSound(env, cats, reqs, j - 1);
      OneMoreImport(env, cats, reqs, j - 1);
      GrownChain(cats[i], cats[j - 1], cats[j]);
    } else {
      IdentitiesStay(cats[i]);
    }
  }

  /** What is applied is what was previewed: a token issued at one point of a run and accepted
      at a later one, because the revision is still the one it names, meets the same plan. */
  lemma PreviewIsWhatIsApplied(env: Validators, cats: seq<Catalog>, reqs: seq<Request>, i: nat, j: nat, req: Request)
    requires ImportRun(env, cats, reqs) && Sound(cats[0]) && i <= j < |cats|
    requires cats[j].revision == cats[i].revision
    ensures PlanFor(env, cats[j], req) == PlanFor(env, cats[i], req)
  {
    RunKeepsIdentities(env, cats, reqs, i, j);
  }
}
