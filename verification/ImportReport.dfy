/** What an accepted import's report says of an entry is what happens to it, and what the document
    says of an entry is what the catalog says afterwards. */
module ImportReport {
  import opened Text
  import opened Json
  import opened Keyed
  import opened ImportPlan
  import opened ImportLaws
  import opened ImportIdempotence
  import opened ImportRuns

  /** Two versions of an entry that agree on all that a document can say. */
  predicate SaysSame<V(==)>(a: Entry<V>, b: Entry<V>) {
    a.fields == b.fields && a.enabled == b.enabled
  }

  /** An outcome's action, seen against the catalog before the import. */
  ghost predicate Labelled<V>(key: string, o: Outcome<V>, before: map<string, Entry<V>>) {
    && (o.item.action == Create <==> key !in before)
    && (o.item.action == Unchanged <==> o.put.None?)
    && o.item.action != Disable
    && (o.put.Some? && key in before ==> !SaysSame(o.put.value, before[key]))
  }

  /** An action, seen against the catalog before and after the import. */
  ghost predicate Happened<V>(action: Action, key: string, before: map<string, Entry<V>>, after: map<string, Entry<V>>) {
    && key in after
    && (action == Create <==> key !in before)
    && (action == Unchanged <==> key in before && after[key] == before[key])
    && (action == Update <==> key in before && !SaysSame(after[key], before[key]))
    && action != Disable
  }

  /** The lookup finds what the outcome put, or what was there if it put nothing. */
  ghost predicate Found<V>(key: string, o: Outcome<V>, before: map<string, Entry<V>>, after: map<string, Entry<V>>) {
    key in after && if o.put.Some? then SameButId(o.put.value, after[key]) else key in before && after[key] == before[key]
  }

  lemma LabelHappens<V>(key: string, o: Outcome<V>, before: map<string, Entry<V>>, after: map<string, Entry<V>>)
    requires Found(key, o, before, after) && Labelled(key, o, before)
    ensures Happened(o.item.action, key, before, after)
  {
  }

  lemma CliLabelled(env: Validators, orgId: string, now: int, strategy: Strategy, existing: map<string, Cli>, i: nat, raw: Exported<CliFields>)
    ensures Labelled(TrimSpace(raw.key), CliOutcome(env, orgId, now, strategy, existing, i, raw), existing)
    ensures CliOutcome(env, orgId, now, strategy, existing, i, raw).put.None? ==> TrimSpace(raw.key) in existing
  {
  }

  lemma ModelLabelled(orgId: string, now: int, strategy: Strategy, existing: map<string, Model>, i: nat, raw: Exported<ModelFields>)
    ensures Labelled(TrimSpace(raw.key), ModelOutcome(orgId, now, strategy, existing, i, raw), existing)
    ensures ModelOutcome(orgId, now, strategy, existing, i, raw).put.None? ==> TrimSpace(raw.key) in existing
  {
  }

  lemma RetiredAreUnseen<V>(current: seq<Entry<V>>, seen: set<string>, now: int, retired: seq<Entry<V>>)
    requires retired == [] || retired == Retired(current, seen, now)
    ensures forall x :: x in retired ==> x.key !in seen
  {
    RetiredHolds(current, seen, now);
  }

  /** The lookups before and after an accepted import, along the document. */
  lemma ClisFollow(env: Validators, before: Catalog, req: Request, filled: seq<Cli>)
    requires ClisWritten(env, before, req, filled)
    ensures Follows(CliKeys(req.doc.clis), CliOutcomes(env, before.orgId, req.now, req.strategy, ByKey(before.clis), req.doc.clis),
                    ByKey(before.clis), ByKey(before.clis) + ByKey(filled))
  {
    var keys := CliKeys(req.doc.clis);
    var os := CliOutcomes(env, before.orgId, req.now, req.strategy, ByKey(before.clis), req.doc.clis);
    var retired := RetiredClis(env, before.orgId, req.now, before, req.doc, req.strategy);
    RetiredAreUnseen(before.clis, Fold(CliKind, keys, os, |keys|).seen, req.now, retired);
    forall i | 0 <= i < |keys| ensures os[i].put.None? ==> keys[i] in ByKey(before.clis) {
      CliLabelled(env, before.orgId, req.now, req.strategy, ByKey(before.clis), i, req.doc.clis[i]);
    }
    MentionedAreFound(CliKind, keys, os, ByKey(before.clis), retired, filled);
  }

  lemma ModelsFollow(before: Catalog, req: Request, filled: seq<Model>)
    requires ModelsWritten(before, req, filled)
    ensures Follows(ModelKeys(req.doc.models), ModelOutcomes(before.orgId, req.now, req.strategy, ByKey(before.models), req.doc.models),
                    ByKey(before.models), ByKey(before.models) + ByKey(filled))
  {
    var keys := ModelKeys(req.doc.models);
    var os := ModelOutcomes(before.orgId, req.now, req.strategy, ByKey(before.models), req.doc.models);
    var retired := RetiredModels(before.orgId, req.now, before, req.doc, req.strategy);
    RetiredAreUnseen(before.models, Fold(ModelKind, keys, os, |keys|).seen, req.now, retired);
    forall i | 0 <= i < |keys| ensures os[i].put.None? ==> keys[i] in ByKey(before.models) {
      ModelLabelled(before.orgId, req.now, req.strategy, ByKey(before.models), i, req.doc.models[i]);
    }
    MentionedAreFound(ModelKind, keys, os, ByKey(before.models), retired, filled);
  }

  lemma CliFound(env: Validators, before: Catalog, req: Request, filled: seq<Cli>, i: nat)
    requires ClisWritten(env, before, req, filled) && i < |req.doc.clis|
    ensures Found(TrimSpace(req.doc.clis[i].key), CliOutcome(env, before.orgId, req.now, req.strategy, ByKey(before.clis), i, req.doc.clis[i]),
                  ByKey(before.clis), ByKey(before.clis) + ByKey(filled))
  {
    ClisFollow(env, before, req, filled);
    assert CliKeys(req.doc.clis)[i] == TrimSpace(req.doc.clis[i].key);
  }

  lemma ModelFound(before: Catalog, req: Request, filled: seq<Model>, i: nat)
    requires ModelsWritten(before, req, filled) && i < |req.doc.models|
    ensures Found(TrimSpace(req.doc.models[i].key), ModelOutcome(before.orgId, req.now, req.strategy, ByKey(before.models), i, req.doc.models[i]),
                  ByKey(before.models), ByKey(before.models) + ByKey(filled))
  {
    ModelsFollow(before, req, filled);
    assert ModelKeys(req.doc.models)[i] == TrimSpace(req.doc.models[i].key);
  }

  // ---------------------------------------------------------------------------
  // What the document says
  // ---------------------------------------------------------------------------

  /** A CLI as the document has it, normalized; create_only does not touch one that exists. */
  ghost predicate CliAsDocument(strategy: Strategy, raw: Exported<CliFields>, before: map<string, Cli>, after: map<string, Cli>) {
    var x := NormalCli(raw);
    && x.key in after
    && if strategy == CreateOnly && x.key in before then after[x.key] == before[x.key]
       else after[x.key].fields == x.fields && after[x.key].enabled == x.enabled
  }

  /** The same for a model, whose hidden parameters are those that the catalog held. */
  ghost predicate ModelAsDocument(strategy: Strategy, raw: Exported<ModelFields>, before: map<string, Model>, after: map<string, Model>) {
    var x := NormalModel(raw);
    && x.key in after
    && if strategy == CreateOnly && x.key in before then after[x.key] == before[x.key]
       else
         && after[x.key].enabled == x.enabled
         && after[x.key].fields == if x.key in before then Refilled(x, before[x.key].fields.parameters).fields else x.fields
  }

  lemma CliFollowsDocument(env: Validators, orgId: string, now: int, strategy: Strategy, before: map<string, Cli>, after: map<string, Cli>,
                           i: nat, raw: Exported<CliFields>)
    requires Found(TrimSpace(raw.key), CliOutcome(env, orgId, now, strategy, before, i, raw), before, after)
    ensures CliAsDocument(strategy, raw, before, after)
  {
  }

  lemma ModelFollowsDocument(orgId: string, now: int, strategy: Strategy, before: map<string, Model>, after: map<string, Model>,
                             i: nat, raw: Exported<ModelFields>)
    requires Found(TrimSpace(raw.key), ModelOutcome(orgId, now, strategy, before, i, raw), before, after)
    ensures ModelAsDocument(strategy, raw, before, after)
  {
  }

  // ---------------------------------------------------------------------------
  // The whole import
  // ---------------------------------------------------------------------------

  lemma CleanPassReports<V>(kind: Kind, keys: seq<string>, os: seq<Outcome<V>>, i: nat)
    requires i < |keys| == |os| && Fold(kind, keys, os, |keys|).diags == {}
    ensures |Fold(kind, keys, os, |keys|).items| == |keys| && Fold(kind, keys, os, |keys|).items[i] == os[i].item
  {
    PassIsCleanExactlyWhen(kind, keys, os, |keys|);
    PassReportsEveryEntry(kind, keys, os, |keys|);
  }

  lemma CliPassReports(env: Validators, before: Catalog, req: Request, i: nat)
    requires CliPass(env, before.orgId, req.now, before, req.doc, req.strategy).diags == {} && i < |req.doc.clis|
    ensures var items := CliPass(env, before.orgId, req.now, before, req.doc, req.strategy).items;
            && |items| == |req.doc.clis|
            && items[i] == CliOutcome(env, before.orgId, req.now, req.strategy, ByKey(before.clis), i, req.doc.clis[i]).item
  {
    CleanPassReports(CliKind, CliKeys(req.doc.clis),
                     CliOutcomes(env, before.orgId, req.now, req.strategy, ByKey(before.clis), req.doc.clis), i);
  }

  lemma ModelPassReports(before: Catalog, req: Request, i: nat)
    requires ModelPass(before.orgId, req.now, before, req.doc, req.strategy).diags == {} && i < |req.doc.models|
    ensures var items := ModelPass(before.orgId, req.now, before, req.doc, req.strategy).items;
            && |items| == |req.doc.models|
            && items[i] == ModelOutcome(before.orgId, req.now, req.strategy, ByKey(before.models), i, req.doc.models[i]).item
  {
    CleanPassReports(ModelKind, ModelKeys(req.doc.models),
                     ModelOutcomes(before.orgId, req.now, req.strategy, ByKey(before.models), req.doc.models), i);
  }

  /** The report lists the CLIs of the document and then its models. */
  lemma ReportOrder(env: Validators, current: Catalog, c: Pass<CliFields>, m: Pass<ModelFields>, rc: seq<Cli>, rm: seq<Model>)
    ensures var items := Assembled(env, current, c, m, rc, rm).items;
            && |items| >= |c.items| + |m.items|
            && (forall i :: 0 <= i < |c.items| ==> items[i] == c.items[i])
            && (forall i :: 0 <= i < |m.items| ==> items[|c.items| + i] == m.items[i])
  {
  }

  lemma AcceptedPasses(env: Validators, before: Catalog, req: Request)
    requires PlanFor(env, before, req).diags == {}
    ensures CliPass(env, before.orgId, req.now, before, req.doc, req.strategy).diags == {}
    ensures ModelPass(before.orgId, req.now, before, req.doc, req.strategy).diags == {}
    ensures |CliPass(env, before.orgId, req.now, before, req.doc, req.strategy).items| == |req.doc.clis|
  {
    if |req.doc.clis| > 0 {
      CliPassReports(env, before, req, 0);
    }
  }

  lemma CliItemsComeFirst(env: Validators, before: Catalog, req: Request, i: nat)
    requires PlanFor(env, before, req).diags == {} && i < |req.doc.clis|
    ensures i < |PlanFor(env, before, req).items|
    ensures PlanFor(env, before, req).items[i] == CliOutcome(env, before.orgId, req.now, req.strategy, ByKey(before.clis), i, req.doc.clis[i]).item
  {
    AcceptedPasses(env, before, req);
    CliPassReports(env, before, req, i);
    ReportOrder(env, before, CliPass(env, before.orgId, req.now, before, req.doc, req.strategy),
                ModelPass(before.orgId, req.now, before, req.doc, req.strategy),
                RetiredClis(env, before.orgId, req.now, before, req.doc, req.strategy),
                RetiredModels(before.orgId, req.now, before, req.doc, req.strategy));
  }

  lemma ModelItemsComeNext(env: Validators, before: Catalog, req: Request, i: nat)
    requires PlanFor(env, before, req).diags == {} && i < |req.doc.models|
    ensures |req.doc.clis| + i < |PlanFor(env, before, req).items|
    ensures PlanFor(env, before, req).items[|req.doc.clis| + i] ==
            ModelOutcome(before.orgId, req.now, req.strategy, ByKey(before.models), i, req.doc.models[i]).item
  {
    AcceptedPasses(env, before, req);
    ModelPassReports(before, req, i);
    ReportOrder(env, before, CliPass(env, before.orgId, req.now, before, req.doc, req.strategy),
                ModelPass(before.orgId, req.now, before, req.doc, req.strategy),
                RetiredClis(env, before.orgId, req.now, before, req.doc, req.strategy),
                RetiredModels(before.orgId, req.now, before, req.doc, req.strategy));
  }

  /** What an accepted import makes of one CLI. */
  lemma CliOutcomeIsTrue(env: Validators, before: Catalog, req: Request, filled: seq<Cli>, i: nat)
    requires ClisWritten(env, before, req, filled) && i < |req.doc.clis|
    ensures var o := CliOutcome(env, before.orgId, req.now, req.strategy, ByKey(before.clis), i, req.doc.clis[i]);
            var after := ByKey(before.clis) + ByKey(filled);
            && o.item.kind == CliKind && o.item.key == TrimSpace(req.doc.clis[i].key)
            && Happened(o.item.action, o.item.key, ByKey(before.clis), after)
            && CliAsDocument(req.strategy, req.doc.clis[i], ByKey(before.clis), after)
  {
    var after, raw := ByKey(before.clis) + ByKey(filled), req.doc.clis[i];
    CliFound(env, before, req, filled, i);
    CliLabelled(env, before.orgId, req.now, req.strategy, ByKey(before.clis), i, raw);
    LabelHappens(TrimSpace(raw.key), CliOutcome(env, before.orgId, req.now, req.strategy, ByKey(before.clis), i, raw), ByKey(before.clis), after);
    CliFollowsDocument(env, before.orgId, req.now, req.strategy, ByKey(before.clis), after, i, raw);
  }

  lemma ModelOutcomeIsTrue(before: Catalog, req: Request, filled: seq<Model>, i: nat)
    requires ModelsWritten(before, req, filled) && i < |req.doc.models|
    ensures var o := ModelOutcome(before.orgId, req.now, req.strategy, ByKey(before.models), i, req.doc.models[i]);
            var after := ByKey(before.models) + ByKey(filled);
            && o.item.kind == ModelKind && o.item.key == TrimSpace(req.doc.models[i].key)
            && Happened(o.item.action, o.item.key, ByKey(before.models), after)
            && ModelAsDocument(req.strategy, req.doc.models[i], ByKey(before.models), after)
  {
    var after, raw := ByKey(before.models) + ByKey(filled), req.doc.models[i];
    ModelFound(before, req, filled, i);
    ModelLabelled(before.orgId, req.now, req.strategy, ByKey(before.models), i, raw);
    LabelHappens(TrimSpace(raw.key), ModelOutcome(before.orgId, req.now, req.strategy, ByKey(before.models), i, raw), ByKey(before.models), after);
    ModelFollowsDocument(before.orgId, req.now, req.strategy, ByKey(before.models), after, i, raw);
  }

  /** For every CLI of an accepted document: the report says create, update or unchanged exactly
      when that is what happens to it, and afterwards the catalog says of it what the document says. */
  lemma CliReportIsTrue(env: Validators, before: Catalog, req: Request, filled: Mutation, i: nat)
    requires Rooted(before.clis) && req.now != 0 && PlanFor(env, before, req).diags == {}
    requires MutationIdsFilled(PlanFor(env, before, req).mutation, filled) && i < |req.doc.clis|
    ensures i < |PlanFor(env, before, req).items|
    ensures var item, after := PlanFor(env, before, req).items[i], ByKey(Candidate(before, filled).clis);
            && item.kind == CliKind && item.key == TrimSpace(req.doc.clis[i].key)
            && Happened(item.action, item.key, ByKey(before.clis), after)
            && CliAsDocument(req.strategy, req.doc.clis[i], ByKey(before.clis), after)
  {
    AcceptedClisAreWritten(env, before, req, filled);
    CliOutcomeIsTrue(env, before, req, filled.clis, i);
    LookupAfter(before, filled);
    CliItemsComeFirst(env, before, req, i);
  }

  /** The same for every model. */
  lemma ModelReportIsTrue(env: Validators, before: Catalog, req: Request, filled: Mutation, i: nat)
    requires Rooted(before.models) && req.now != 0 && PlanFor(env, before, req).diags == {}
    requires MutationIdsFilled(PlanFor(env, before, req).mutation, filled) && i < |req.doc.models|
    ensures |req.doc.clis| + i < |PlanFor(env, before, req).items|
    ensures var item, after := PlanFor(env, before, req).items[|req.doc.clis| + i], ByKey(Candidate(before, filled).models);
            && item.kind == ModelKind && item.key == TrimSpace(req.doc.models[i].key)
            && Happened(item.action, item.key, ByKey(before.models), after)
            && ModelAsDocument(req.strategy, req.doc.models[i], ByKey(before.models), after)
  {
    AcceptedModelsAreWritten(env, before, req, filled);
    ModelOutcomeIsTrue(before, req, filled.models, i);
    LookupAfter(before, filled);
    ModelItemsComeNext(env, before, req, i);
  }
}
