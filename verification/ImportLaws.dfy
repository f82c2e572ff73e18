/** Laws of catalog import: importing twice changes nothing more, and importing a catalog's
    own export changes nothing at all, exactly when the catalog is in normal form. */
module ImportLaws {
  import opened Text
  import opened Json
  import opened Keyed
  import opened ImportPlan

  // ---------------------------------------------------------------------------
  // What a pass over one list amounts to
  // ---------------------------------------------------------------------------

  /** The first `n` keys are pairwise different. */
  predicate DistinctTo(keys: seq<string>, n: nat)
    requires n <= |keys|
  {
    forall i, j :: 0 <= i < j < n ==> keys[i] != keys[j]
  }

  /** A pass finds nothing wrong exactly when no key repeats and no entry is at fault. */
  lemma {:induction false} PassIsCleanExactlyWhen<V>(kind: Kind, keys: seq<string>, os: seq<Outcome<V>>, n: nat)
    requires n <= |keys| == |os|
    ensures forall k :: k in Fold(kind, keys, os, n).seen <==> exists i :: 0 <= i < n && keys[i] == k
    ensures Fold(kind, keys, os, n).diags == {} <==> DistinctTo(keys, n) && forall i :: 0 <= i < n ==> os[i].diags == {}
  {
    if n > 0 {
      PassIsCleanExactlyWhen(kind, keys, os, n - 1);
      if keys[n - 1] in Fold(kind, keys, os, n - 1).seen {
        assert Diagnostic(kind, Some(n - 1), keys[n - 1], DuplicateKey) in Fold(kind, keys, os, n).diags;
      }
    }
  }

  lemma {:induction false} PassReportsEveryEntry<V>(kind: Kind, keys: seq<string>, os: seq<Outcome<V>>, n: nat)
    requires n <= |keys| == |os| && DistinctTo(keys, n)
    ensures |Fold(kind, keys, os, n).items| == n
    ensures forall i :: 0 <= i < n ==> Fold(kind, keys, os, n).items[i] == os[i].item
  {
    if n > 0 {
      PassReportsEveryEntry(kind, keys, os, n - 1);
      PassIsCleanExactlyWhen(kind, keys, os, n - 1);
    }
  }

  ghost predicate PutsAreKeyed<V>(keys: seq<string>, os: seq<Outcome<V>>) {
    |keys| == |os| && forall i :: 0 <= i < |keys| && os[i].put.Some? ==> os[i].put.value.key == keys[i]
  }

  /** `written` holds exactly what the first `n` entries put, under their keys. */
  ghost predicate Writes<V>(written: map<string, Entry<V>>, keys: seq<string>, os: seq<Outcome<V>>, n: nat)
    requires n <= |keys| == |os|
  {
    && (forall k :: k in written ==> exists i :: 0 <= i < n && keys[i] == k)
    && forall i :: 0 <= i < n ==>
         && (keys[i] in written <==> os[i].put.Some?)
         && (os[i].put.Some? ==> written[keys[i]] == os[i].put.value)
  }

  lemma OneMorePut<V>(puts: seq<Entry<V>>, o: Outcome<V>)
    ensures ByKey(puts + PutList(o)) == if o.put.Some? then ByKey(puts)[o.put.value.key := o.put.value] else ByKey(puts)
  {
    if o.put.Some? {
      assert (puts + PutList(o))[..|puts|] == puts;
    } else {
      assert puts + PutList(o) == puts;
    }
  }

  lemma {:induction false} PassWrites<V>(kind: Kind, keys: seq<string>, os: seq<Outcome<V>>, n: nat)
    requires n <= |keys| && DistinctTo(keys, n) && PutsAreKeyed(keys, os)
    ensures Writes(ByKey(Fold(kind, keys, os, n).puts), keys, os, n)
  {
    if n > 0 {
      PassWrites(kind, keys, os, n - 1);
      var prior := Fold(kind, keys, os, n - 1);
      assert Fold(kind, keys, os, n).puts == prior.puts + PutList(os[n - 1]) by {
        PassIsCleanExactlyWhen(kind, keys, os, n - 1);
      }
      OneMorePut(prior.puts, os[n - 1]);
      OneMoreWrite(ByKey(prior.puts), ByKey(prior.puts + PutList(os[n - 1])), keys, os, n);
    }
  }

  lemma OneMoreWrite<V>(a: map<string, Entry<V>>, b: map<string, Entry<V>>, keys: seq<string>, os: seq<Outcome<V>>, n: nat)
    requires 0 < n <= |keys| && DistinctTo(keys, n) && PutsAreKeyed(keys, os) && Writes(a, keys, os, n - 1)
    requires b == if os[n - 1].put.Some? then a[keys[n - 1] := os[n - 1].put.value] else a
    ensures Writes(b, keys, os, n)
  {
  }

  lemma {:induction false} RetiredHolds<V>(xs: seq<Entry<V>>, seen: set<string>, now: int)
    ensures forall x :: x in Retired(xs, seen, now) ==> !x.enabled && x.key !in seen
    ensures (forall x :: x in xs && x.key !in seen ==> !x.enabled) ==> Retired(xs, seen, now) == []
  {
    if xs != [] {
      RetiredHolds(xs[..|xs| - 1], seen, now);
      assert forall x :: x in xs[..|xs| - 1] ==> x in xs;
    }
  }

  /** Every enabled, unmentioned entry has its disabled version among the retired ones. */
  lemma {:induction false} RetiredCovers<V>(xs: seq<Entry<V>>, seen: set<string>, now: int, x: Entry<V>)
    requires x in xs && x.key !in seen
    ensures x.enabled ==> x.key in ByKey(Retired(xs, seen, now))
  {
    var n := |xs| - 1;
    var rest := Retired(xs[..n], seen, now);
    if x in xs[..n] {
      RetiredCovers(xs[..n], seen, now, x);
    }
    if xs[n].key !in seen && xs[n].enabled {
      assert (rest + [xs[n].(enabled := false, updatedAt := now)])[..|rest|] == rest;
    }
  }

  // ---------------------------------------------------------------------------
  // Ids for what an import creates
  // ---------------------------------------------------------------------------

  predicate SameButId<V(==)>(a: Entry<V>, b: Entry<V>) {
    b == a.(id := b.id) && (a.id != "" ==> b.id == a.id)
  }

  /** `ys` is `xs` with an id wherever there was none, and nothing else changed. */
  ghost predicate IdsFilled<V>(xs: seq<Entry<V>>, ys: seq<Entry<V>>) {
    |xs| == |ys| && forall i :: 0 <= i < |xs| ==> SameButId(xs[i], ys[i]) && ys[i].id != ""
  }

  ghost predicate MutationIdsFilled(m: Mutation, n: Mutation) {
    IdsFilled(m.clis, n.clis) && IdsFilled(m.models, n.models)
  }

  method AssignIds<V>(xs: seq<Entry<V>>, ids: nat -> string, from: nat) returns (ys: seq<Entry<V>>, next: nat)
    requires forall n :: ids(n) != ""
    ensures IdsFilled(xs, ys)
  {
    ys, next := xs, from;
    for i := 0 to |xs|
      invariant |ys| == |xs|
      invariant forall j :: 0 <= j < i ==> SameButId(xs[j], ys[j]) && ys[j].id != ""
      invariant forall j :: i <= j < |xs| ==> ys[j] == xs[j]
    {
      if ys[i].id == "" {
        ys := ys[i := ys[i].(id := ids(next))];
        next := next + 1;
      }
    }
  }

  lemma {:induction false} IdsFilledLookup<V>(xs: seq<Entry<V>>, ys: seq<Entry<V>>)
    requires IdsFilled(xs, ys)
    ensures ByKey(xs).Keys == ByKey(ys).Keys
    ensures forall k :: k in ByKey(xs) ==> SameButId(ByKey(xs)[k], ByKey(ys)[k]) && ByKey(ys)[k].id != ""
  {
    if xs != [] {
      var n := |xs| - 1;
      IdsFilledLookup(xs[..n], ys[..n]);
    }
  }

  /** The entries of a catalog and of its copy with more ids say the same. */
  ghost predicate SameSayings<V>(a: map<string, Entry<V>>, b: map<string, Entry<V>>) {
    a.Keys == b.Keys && forall k :: k in a ==> SameButId(a[k], b[k])
  }

  lemma {:induction false} ParameterErrorIgnoresIds(env: Validators, a: map<string, Cli>, b: map<string, Cli>, keys: seq<string>, params: map<string, Json>)
    requires SameSayings(a, b)
    ensures FirstParameterError(env, a, keys, params) == FirstParameterError(env, b, keys, params)
  {
    if keys != [] {
      ParameterErrorIgnoresIds(env, a, b, keys[1..], params);
    }
  }

  // ---------------------------------------------------------------------------
  // The catalog after an import
  // ---------------------------------------------------------------------------

  lemma LookupAfter(current: Catalog, m: Mutation)
    ensures ByKey(Candidate(current, m).clis) == ByKey(current.clis) + ByKey(m.clis)
    ensures ByKey(Candidate(current, m).models) == ByKey(current.models) + ByKey(m.models)
    ensures InKeyOrder(Candidate(current, m).clis) && InKeyOrder(Candidate(current, m).models)
  {
    MergedLookup(current.clis, m.clis);
    MergedLookup(current.models, m.models);
  }

  /** Every entry of a listing is the one that its key finds. */
  lemma ListedIsFound<V>(base: seq<Entry<V>>, changes: seq<Entry<V>>, x: Entry<V>)
    requires x in Merged(base, changes)
    ensures x.key in ByKey(base) + ByKey(changes) && x == (ByKey(base) + ByKey(changes))[x.key]
  {
    ByKeyIsWellKeyed(base);
    ByKeyIsWellKeyed(changes);
    var m := ByKey(base) + ByKey(changes);
    ListingOfHolds(m, m.Keys);
  }

  lemma FoundIsListed<V>(base: seq<Entry<V>>, changes: seq<Entry<V>>, k: string)
    requires k in ByKey(base) + ByKey(changes)
    ensures (ByKey(base) + ByKey(changes))[k] in Merged(base, changes)
  {
    ByKeyIsWellKeyed(base);
    ByKeyIsWellKeyed(changes);
    var m := ByKey(base) + ByKey(changes);
    ListingOfHolds(m, m.Keys);
  }

  /** Merging nothing into a merged list gives the same list. */
  lemma MergeNothing<V>(base: seq<Entry<V>>, changes: seq<Entry<V>>)
    ensures Merged(Merged(base, changes), []) == Merged(base, changes)
  {
    MergedLookup(base, changes);
    assert ByKey(Merged(base, changes)) + map[] == ByKey(base) + ByKey(changes);
  }

  lemma FaultIsReported(env: Validators, clis: map<string, Cli>, models: seq<Model>, x: Model)
    requires x in models
    ensures ModelParameterError(env, clis, x).Some? ==> ParameterDiags(env, clis, models) != {}
  {
    if ModelParameterError(env, clis, x).Some? {
      assert Diagnostic(ModelKind, None, x.key, BadParameters(ModelParameterError(env, clis, x).value))
          in ParameterDiags(env, clis, models);
    }
  }

  /** If no model's parameters are at fault before ids are filled in, none is afterwards. */
  lemma ParameterCheckIgnoresIds(env: Validators, current: Catalog, m: Mutation, n: Mutation)
    requires MutationIdsFilled(m, n)
    requires ParameterDiags(env, ByKey(Candidate(current, m).clis), Candidate(current, m).models) == {}
    ensures ParameterDiags(env, ByKey(Candidate(current, n).clis), Candidate(current, n).models) == {}
  {
    LookupAfter(current, m);
    LookupAfter(current, n);
    IdsFilledLookup(m.clis, n.clis);
    IdsFilledLookup(m.models, n.models);
    var a, b := ByKey(Candidate(current, m).clis), ByKey(Candidate(current, n).clis);
    assert SameSayings(a, b);
    forall x | x in Candidate(current, n).models ensures ModelParameterError(env, b, x).None? {
      ListedIsFound(current.models, n.models, x);
      FoundIsListed(current.models, m.models, x.key);
      var y := (ByKey(current.models) + ByKey(m.models))[x.key];
      ParameterErrorIgnoresIds(env, a, b, x.fields.compatibleCliKeys, x.fields.parameters);
      FaultIsReported(env, a, Candidate(current, m).models, y);
    }
  }
}
