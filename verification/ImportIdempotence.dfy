/** Importing a document a second time changes nothing. */
module ImportIdempotence {
  import opened Text
  import opened Json
  import opened Keyed
  import opened ImportPlan
  import opened ImportLaws

  lemma UnfilledIffMissing(i: nat, key: string, missing: set<Missing>)
    ensures UnfilledDiags(i, key, missing) == {} <==> missing == {}
  {
    if m :| m in missing {
      assert Diagnostic(ModelKind, Some(i), key, Unfilled(m)) in UnfilledDiags(i, key, missing);
    }
  }

  /** An entry without fault, met again once it has been applied, asks for nothing. */
  lemma CliSettles(env: Validators, orgId: string, now: int, later: int, strategy: Strategy,
                   existing: map<string, Cli>, after: map<string, Cli>, i: nat, raw: Exported<CliFields>)
    requires var o := CliOutcome(env, orgId, now, strategy, existing, i, raw);
             var k := TrimSpace(raw.key);
             k in after && (if o.put.Some? then SameButId(o.put.value, after[k]) else k in existing && after[k] == existing[k])
    ensures CliOutcome(env, orgId, later, strategy, after, i, raw) ==
            Outcome(Item(CliKind, TrimSpace(raw.key), Unchanged), None, {})
  {
  }

  lemma ModelSettles(orgId: string, now: int, later: int, strategy: Strategy,
                     existing: map<string, Model>, after: map<string, Model>, i: nat, raw: Exported<ModelFields>)
    requires var o := ModelOutcome(orgId, now, strategy, existing, i, raw);
             var k := TrimSpace(raw.key);
             && o.diags == {}
             && k in after && (if o.put.Some? then SameButId(o.put.value, after[k]) else k in existing && after[k] == existing[k])
    ensures ModelOutcome(orgId, later, strategy, after, i, raw) ==
            Outcome(Item(ModelKind, TrimSpace(raw.key), Unchanged), None, {})
  {
    var x := NormalModel(raw);
    if x.key !in existing {
      CreatedParametersSettle(x.fields.parameters, i, x.key);
      assert Refilled(x, x.fields.parameters) == x;
    } else if strategy != CreateOnly {
      var prior := existing[x.key].fields.parameters;
      RefilledParametersSettle(x.fields.parameters, prior, i, x.key);
      var y := Refilled(x, prior);
      assert after[x.key].fields == y.fields;
      assert Refilled(x, y.fields.parameters) == y;
    }
  }

  lemma CreatedParametersSettle(params: map<string, Json>, i: nat, key: string)
    requires UnfilledDiags(i, key, Unresolved(Obj(params), Obj(map[]), [])) == {}
    ensures UnfilledDiags(i, key, Unresolved(Obj(params), Obj(params), [])) == {}
    ensures Restore(Obj(params), Obj(params)) == Obj(params)
  {
    UnfilledIffMissing(i, key, Unresolved(Obj(params), Obj(map[]), []));
    UnresolvedIffNotResolves(Obj(params), Obj(map[]), []);
    ResolvesAgainstNothing(Obj(params), Obj(map[]));
    PlaceholderFreeIsKept(Obj(params), Obj(params));
    UnresolvedIffNotResolves(Obj(params), Obj(params), []);
  }

  lemma RefilledParametersSettle(params: map<string, Json>, prior: map<string, Json>, i: nat, key: string)
    requires UnfilledDiags(i, key, Unresolved(Obj(params), Obj(prior), [])) == {}
    ensures var once := Restore(Obj(params), Obj(prior));
            UnfilledDiags(i, key, Unresolved(Obj(params), once, [])) == {} && Restore(Obj(params), once) == once
  {
    UnfilledIffMissing(i, key, Unresolved(Obj(params), Obj(prior), []));
    UnresolvedIffNotResolves(Obj(params), Obj(prior), []);
    RestoreIsIdempotent(Obj(params), Obj(prior));
    UnresolvedIffNotResolves(Obj(params), Restore(Obj(params), Obj(prior)), []);
  }

  ghost predicate Settled<V>(kind: Kind, keys: seq<string>, os: seq<Outcome<V>>) {
    |keys| == |os| && forall i :: 0 <= i < |keys| ==> os[i] == Outcome(Item(kind, keys[i], Unchanged), None, {})
  }

  lemma {:induction false} SettledPass<V>(kind: Kind, keys: seq<string>, os: seq<Outcome<V>>, n: nat)
    requires n <= |keys| && Settled(kind, keys, os) && DistinctTo(keys, n)
    ensures Fold(kind, keys, os, n).puts == [] && Fold(kind, keys, os, n).diags == {}
    ensures |Fold(kind, keys, os, n).items| == n && AllUnchanged(Fold(kind, keys, os, n).items)
  {
    if n > 0 {
      SettledPass(kind, keys, os, n - 1);
      PassIsCleanExactlyWhen(kind, keys, os, n - 1);
    }
  }

  /** Every mentioned key finds what the entry put, or what was there if it put nothing. */
  ghost predicate Follows<V>(keys: seq<string>, os: seq<Outcome<V>>, before: map<string, Entry<V>>, after: map<string, Entry<V>>) {
    |keys| == |os| && forall i :: 0 <= i < |keys| ==>
      && keys[i] in after
      && if os[i].put.Some? then SameButId(os[i].put.value, after[keys[i]]) else keys[i] in before && after[keys[i]] == before[keys[i]]
  }

  lemma MentionedIsFound<V>(kind: Kind, keys: seq<string>, os: seq<Outcome<V>>, retired: seq<Entry<V>>, filled: seq<Entry<V>>, i: nat)
    requires PutsAreKeyed(keys, os) && DistinctTo(keys, |keys|) && i < |keys|
    requires forall x :: x in retired ==> x.key !in Fold(kind, keys, os, |keys|).seen
    requires IdsFilled(Fold(kind, keys, os, |keys|).puts + retired, filled)
    ensures keys[i] in ByKey(filled) <==> os[i].put.Some?
    ensures os[i].put.Some? ==> SameButId(os[i].put.value, ByKey(filled)[keys[i]])
  {
    var p := Fold(kind, keys, os, |keys|);
    PassIsCleanExactlyWhen(kind, keys, os, |keys|);
    PassWrites(kind, keys, os, |keys|);
    ByKeyOfConcat(p.puts, retired);
    IdsFilledLookup(p.puts + retired, filled);
    ByKeyFindsLast(retired, keys[i]);
    assert keys[i] in p.seen;
  }

  lemma MentionedAreFound<V>(kind: Kind, keys: seq<string>, os: seq<Outcome<V>>, before: map<string, Entry<V>>,
                             retired: seq<Entry<V>>, filled: seq<Entry<V>>)
    requires PutsAreKeyed(keys, os) && DistinctTo(keys, |keys|)
    requires forall x :: x in retired ==> x.key !in Fold(kind, keys, os, |keys|).seen
    requires IdsFilled(Fold(kind, keys, os, |keys|).puts + retired, filled)
    requires forall i :: 0 <= i < |keys| && os[i].put.None? ==> keys[i] in before
    ensures Follows(keys, os, before, before + ByKey(filled))
  {
    forall i | 0 <= i < |keys|
      ensures keys[i] in ByKey(filled) <==> os[i].put.Some?
      ensures os[i].put.Some? ==> SameButId(os[i].put.value, ByKey(filled)[keys[i]])
    {
      MentionedIsFound(kind, keys, os, retired, filled, i);
    }
  }

  /** What an unmentioned key finds after a replacing import is disabled. */
  lemma UnmentionedIsDisabled<V>(seen: set<string>, current: seq<Entry<V>>, puts: seq<Entry<V>>, now: int, k: string)
    requires forall x :: x in puts ==> x.key in seen
    requires k !in seen && k in ByKey(current) + ByKey(puts + Retired(current, seen, now))
    ensures !(ByKey(current) + ByKey(puts + Retired(current, seen, now)))[k].enabled
  {
    var retired := Retired(current, seen, now);
    RetiredHolds(current, seen, now);
    ByKeyOfConcat(puts, retired);
    ByKeyFindsLast(puts, k);
    ByKeyFindsLast(retired, k);
    if k !in ByKey(retired) {
      ByKeyFindsLast(current, k);
      RetiredCovers(current, seen, now, ByKey(current)[k]);
    }
  }

  /** No unmentioned entry is left enabled by a replacing import. */
  lemma NothingLeftToRetire<V>(seen: set<string>, current: seq<Entry<V>>, puts: seq<Entry<V>>, filled: seq<Entry<V>>, now: int, later: int)
    requires forall x :: x in puts ==> x.key in seen
    requires IdsFilled(puts + Retired(current, seen, now), filled)
    ensures Retired(Merged(current, filled), seen, later) == []
  {
    RetiredHolds(Merged(current, filled), seen, later);
    forall x | x in Merged(current, filled) && x.key !in seen ensures !x.enabled {
      ListedIsFound(current, filled, x);
      IdsFilledLookup(puts + Retired(current, seen, now), filled);
      UnmentionedIsDisabled(seen, current, puts, now, x.key);
    }
  }

  lemma PutsAreSeen<V>(kind: Kind, keys: seq<string>, os: seq<Outcome<V>>)
    requires PutsAreKeyed(keys, os) && DistinctTo(keys, |keys|)
    ensures forall x :: x in Fold(kind, keys, os, |keys|).puts ==> x.key in Fold(kind, keys, os, |keys|).seen
  {
    var p := Fold(kind, keys, os, |keys|);
    PassIsCleanExactlyWhen(kind, keys, os, |keys|);
    PassWrites(kind, keys, os, |keys|);
    forall x | x in p.puts ensures x.key in p.seen {
      ByKeyFindsLast(p.puts, x.key);
    }
  }

  /** The catalog that a plan leaves, once ids have been filled in. */
  ghost predicate Leaves(plan: Plan, current: Catalog, after: Catalog) {
    exists filled :: MutationIdsFilled(plan.mutation, filled) && after == Candidate(current, filled)
  }

  /** A pass over settled entries writes nothing and finds nothing to retire. */
  lemma PassAgain<V>(kind: Kind, keys: seq<string>, os: seq<Outcome<V>>, again: seq<Outcome<V>>,
                     current: seq<Entry<V>>, retired: seq<Entry<V>>, filled: seq<Entry<V>>, now: int, later: int)
    requires PutsAreKeyed(keys, os) && DistinctTo(keys, |keys|) && Settled(kind, keys, again)
    requires retired == Retired(current, Fold(kind, keys, os, |keys|).seen, now)
    requires IdsFilled(Fold(kind, keys, os, |keys|).puts + retired, filled)
    ensures Retired(Merged(current, filled), Fold(kind, keys, again, |keys|).seen, later) == []
  {
    var seen := Fold(kind, keys, os, |keys|).seen;
    PassIsCleanExactlyWhen(kind, keys, os, |keys|);
    PassIsCleanExactlyWhen(kind, keys, again, |keys|);
    assert Fold(kind, keys, again, |keys|).seen == seen;
    PutsAreSeen(kind, keys, os);
    NothingLeftToRetire(seen, current, Fold(kind, keys, os, |keys|).puts, filled, now, later);
  }

  lemma ClisSettle(env: Validators, orgId: string, now: int, later: int, strategy: Strategy,
                   before: map<string, Cli>, after: map<string, Cli>, xs: seq<Exported<CliFields>>)
    requires Follows(CliKeys(xs), CliOutcomes(env, orgId, now, strategy, before, xs), before, after)
    ensures Settled(CliKind, CliKeys(xs), CliOutcomes(env, orgId, later, strategy, after, xs))
  {
    forall i | 0 <= i < |xs|
      ensures CliOutcome(env, orgId, later, strategy, after, i, xs[i]) == Outcome(Item(CliKind, CliKeys(xs)[i], Unchanged), None, {})
    {
      assert CliOutcomes(env, orgId, now, strategy, before, xs)[i] == CliOutcome(env, orgId, now, strategy, before, i, xs[i]);
      CliSettles(env, orgId, now, later, strategy, before, after, i, xs[i]);
    }
  }

  lemma ModelsSettle(orgId: string, now: int, later: int, strategy: Strategy,
                     before: map<string, Model>, after: map<string, Model>, xs: seq<Exported<ModelFields>>)
    requires Follows(ModelKeys(xs), ModelOutcomes(orgId, now, strategy, before, xs), before, after)
    requires forall i :: 0 <= i < |xs| ==> ModelOutcomes(orgId, now, strategy, before, xs)[i].diags == {}
    ensures Settled(ModelKind, ModelKeys(xs), ModelOutcomes(orgId, later, strategy, after, xs))
  {
    forall i | 0 <= i < |xs|
      ensures ModelOutcome(orgId, later, strategy, after, i, xs[i]) == Outcome(Item(ModelKind, ModelKeys(xs)[i], Unchanged), None, {})
    {
      assert ModelOutcomes(orgId, now, strategy, before, xs)[i] == ModelOutcome(orgId, now, strategy, before, i, xs[i]);
      ModelSettles(orgId, now, later, strategy, before, after, i, xs[i]);
    }
  }

  lemma CliOutcomesAreKeyed(env: Validators, orgId: string, now: int, strategy: Strategy, before: map<string, Cli>, xs: seq<Exported<CliFields>>)
    ensures var keys, os := CliKeys(xs), CliOutcomes(env, orgId, now, strategy, before, xs);
            PutsAreKeyed(keys, os) && forall i :: 0 <= i < |keys| && os[i].put.None? ==> keys[i] in before
  {
  }

  lemma ModelOutcomesAreKeyed(orgId: string, now: int, strategy: Strategy, before: map<string, Model>, xs: seq<Exported<ModelFields>>)
    ensures var keys, os := ModelKeys(xs), ModelOutcomes(orgId, now, strategy, before, xs);
            PutsAreKeyed(keys, os) && forall i :: 0 <= i < |keys| && os[i].put.None? ==> keys[i] in before
  {
  }

  ghost predicate NothingToDo<V>(p: Pass<V>, n: nat) {
    p.puts == [] && p.diags == {} && |p.items| == n && AllUnchanged(p.items)
  }

  lemma CliPassSettles(env: Validators, orgId: string, now: int, later: int, current: Catalog, doc: Document, strategy: Strategy, filled: Mutation)
    requires CliPass(env, orgId, now, current, doc, strategy).diags == {}
    requires IdsFilled(CliPass(env, orgId, now, current, doc, strategy).puts + RetiredClis(env, orgId, now, current, doc, strategy), filled.clis)
    ensures NothingToDo(CliPass(env, orgId, later, Candidate(current, filled), doc, strategy), |doc.clis|)
    ensures RetiredClis(env, orgId, later, Candidate(current, filled), doc, strategy) == []
  {
    var keys, before := CliKeys(doc.clis), ByKey(current.clis);
    var os := CliOutcomes(env, orgId, now, strategy, before, doc.clis);
    var retired := RetiredClis(env, orgId, now, current, doc, strategy);
    PassIsCleanExactlyWhen(CliKind, keys, os, |keys|);
    RetiredHolds(current.clis, Fold(CliKind, keys, os, |keys|).seen, now);
    CliOutcomesAreKeyed(env, orgId, now, strategy, before, doc.clis);
    MentionedAreFound(CliKind, keys, os, before, retired, filled.clis);
    MergedLookup(current.clis, filled.clis);
    var after := ByKey(Candidate(current, filled).clis);
    ClisSettle(env, orgId, now, later, strategy, before, after, doc.clis);
    var again := CliOutcomes(env, orgId, later, strategy, after, doc.clis);
    SettledPass(CliKind, keys, again, |keys|);
    if strategy == Replace {
      PassAgain(CliKind, keys, os, again, current.clis, retired, filled.clis, now, later);
    }
  }

  lemma ModelPassSettles(orgId: string, now: int, later: int, current: Catalog, doc: Document, strategy: Strategy, filled: Mutation)
    requires ModelPass(orgId, now, current, doc, strategy).diags == {}
    requires IdsFilled(ModelPass(orgId, now, current, doc, strategy).puts + RetiredModels(orgId, now, current, doc, strategy), filled.models)
    ensures NothingToDo(ModelPass(orgId, later, Candidate(current, filled), doc, strategy), |doc.models|)
    ensures RetiredModels(orgId, later, Candidate(current, filled), doc, strategy) == []
  {
    var keys, before := ModelKeys(doc.models), ByKey(current.models);
    var os := ModelOutcomes(orgId, now, strategy, before, doc.models);
    var retired := RetiredModels(orgId, now, current, doc, strategy);
    PassIsCleanExactlyWhen(ModelKind, keys, os, |keys|);
    RetiredHolds(current.models, Fold(ModelKind, keys, os, |keys|).seen, now);
    ModelOutcomesAreKeyed(orgId, now, strategy, before, doc.models);
    MentionedAreFound(ModelKind, keys, os, before, retired, filled.models);
    MergedLookup(current.models, filled.models);
    var after := ByKey(Candidate(current, filled).models);
    ModelsSettle(orgId, now, later, strategy, before, after, doc.models);
    var again := ModelOutcomes(orgId, later, strategy, after, doc.models);
    SettledPass(ModelKind, keys, again, |keys|);
    if strategy == Replace {
      PassAgain(ModelKind, keys, os, again, current.models, retired, filled.models, now, later);
    }
  }

  /** What is left of a plan when neither pass has anything to do. */
  lemma AssembledOfNothing(env: Validators, current: Catalog, c: Pass<CliFields>, m: Pass<ModelFields>, nc: nat, nm: nat)
    requires NothingToDo(c, nc) && NothingToDo(m, nm)
    ensures var p := Assembled(env, current, c, m, [], []);
            && p.mutation == Mutation([], [])
            && |p.items| == nc + nm && AllUnchanged(p.items)
            && p.diags == ParameterDiags(env, ByKey(Candidate(current, Mutation([], [])).clis), Candidate(current, Mutation([], [])).models)
  {
    assert c.items + m.items + [] + [] == c.items + m.items;
  }

  /** For every strategy: once a document has been imported without a complaint, planning it
      again finds nothing to write, nothing to complain about, and every entry unchanged. */
  lemma ImportIsIdempotent(env: Validators, orgId: string, now: int, later: int, current: Catalog, doc: Document, strategy: Strategy, after: Catalog)
    requires PlanOf(env, orgId, now, current, doc, strategy).diags == {}
    requires Leaves(PlanOf(env, orgId, now, current, doc, strategy), current, after)
    ensures var again := PlanOf(env, orgId, later, after, doc, strategy);
            && again.mutation == Mutation([], [])
            && again.diags == {}
            && |again.items| == |doc.clis| + |doc.models|
            && AllUnchanged(again.items)
  {
    var plan := PlanOf(env, orgId, now, current, doc, strategy);
    var filled :| MutationIdsFilled(plan.mutation, filled) && after == Candidate(current, filled);
    CliPassSettles(env, orgId, now, later, current, doc, strategy, filled);
    ModelPassSettles(orgId, now, later, current, doc, strategy, filled);
    ParameterCheckIgnoresIds(env, current, plan.mutation, filled);
    assert Candidate(after, Mutation([], [])) == after by {
      MergeNothing(current.clis, filled.clis);
      MergeNothing(current.models, filled.models);
    }
    AssembledOfNothing(env, after, CliPass(env, orgId, later, after, doc, strategy), ModelPass(orgId, later, after, doc, strategy),
                       |doc.clis|, |doc.models|);
  }
}
