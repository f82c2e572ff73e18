/** A partial export: the entries that were asked for, with what they depend on if wanted. */
module ExportFilter {
  import opened Text
  import opened ImportPlan

  datatype Scope = CliScope | ModelScope | SelectedScope

  datatype Options = Options(scope: Scope, cliKeys: seq<string>, modelKeys: seq<string>, includeDependencies: bool)

  datatype Filtered = Exports(doc: Document) | NothingSelected | MissingKeys

  // ---------------------------------------------------------------------------
  // What is wanted
  // ---------------------------------------------------------------------------

  /** The keys as given, trimmed, blank ones ignored. */
  function Asked(keys: seq<string>): set<string> {
    (set i | 0 <= i < |keys| :: TrimSpace(keys[i])) - {""}
  }

  function KeysOf<V>(xs: seq<Exported<V>>): set<string> {
    set i | 0 <= i < |xs| :: xs[i].key
  }

  /** An empty selection of the one scope's kind means all of it. */
  function WantedClis(doc: Document, o: Options): set<string> {
    if o.scope == ModelScope then {}
    else if o.scope == CliScope && Asked(o.cliKeys) == {} then KeysOf(doc.clis)
    else Asked(o.cliKeys)
  }

  function WantedModels(doc: Document, o: Options): set<string> {
    if o.scope == CliScope then {}
    else if o.scope == ModelScope && Asked(o.modelKeys) == {} then KeysOf(doc.models)
    else Asked(o.modelKeys)
  }

  /** The CLIs that the wanted models name. */
  function Dependencies(models: seq<Exported<ModelFields>>, wanted: set<string>): set<string> {
    set i, j | 0 <= i < |models| && models[i].key in wanted && 0 <= j < |models[i].fields.compatibleCliKeys| ::
      models[i].fields.compatibleCliKeys[j]
  }

  function NeededClis(doc: Document, o: Options): set<string> {
    WantedClis(doc, o) + if o.includeDependencies then Dependencies(doc.models, WantedModels(doc, o)) else {}
  }

  // ---------------------------------------------------------------------------
  // What is taken
  // ---------------------------------------------------------------------------

  /** The first entry under each wanted key, in order, and the keys that found none. */
  function Taken<V>(xs: seq<Exported<V>>, wanted: set<string>): (seq<Exported<V>>, set<string>) {
    if xs == [] then ([], wanted)
    else
      var (out, left) := Taken(xs[..|xs| - 1], wanted);
      var x := xs[|xs| - 1];
      if x.key in left then (out + [x], left - {x.key}) else (out, left)
  }

  /** Every wanted key that the list has is taken once, and only those; what is left over is what
      the list does not have. */
  lemma {:induction false} TakenExactly<V>(xs: seq<Exported<V>>, wanted: set<string>)
    ensures var (out, left) := Taken(xs, wanted);
            && left == wanted - KeysOf(xs)
            && KeysOf(out) == wanted * KeysOf(xs)
            && (forall i, j :: 0 <= i < j < |out| ==> out[i].key != out[j].key)
            && forall x :: x in out ==> x in xs
  {
    if xs != [] {
      var n := |xs| - 1;
      TakenExactly(xs[..n], wanted);
      var (out, left) := Taken(xs[..n], wanted);
      KeysOfOneMore(xs[..n], xs[n]);
      KeysOfOneMore(out, xs[n]);
      assert xs[..n] + [xs[n]] == xs;
      if xs[n].key in left {
        forall i | 0 <= i < |out| ensures out[i].key != xs[n].key {
          assert out[i].key in KeysOf(out);
        }
      }
    }
  }

  lemma KeysOfOneMore<V>(xs: seq<Exported<V>>, x: Exported<V>)
    ensures KeysOf(xs + [x]) == KeysOf(xs) + {x.key}
  {
    var ys := xs + [x];
    forall k | k in KeysOf(xs) + {x.key} ensures k in KeysOf(ys) {
      if k == x.key {
        assert ys[|xs|].key == k;
      } else {
        var i :| 0 <= i < |xs| && xs[i].key == k;
        assert ys[i].key == k;
      }
    }
  }

  method Take<V>(xs: seq<Exported<V>>, wanted: set<string>) returns (out: seq<Exported<V>>, left: set<string>)
    ensures (out, left) == Taken(xs, wanted)
  {
    out, left := [], wanted;
    for n := 0 to |xs|
      invariant (out, left) == Taken(xs[..n], wanted)
    {
      assert xs[..n + 1][..n] == xs[..n];
      if xs[n].key in left {
        out := out + [xs[n]];
        left := left - {xs[n].key};
      }
    }
    assert xs[..|xs|] == xs;
  }

  method AddDependencies(models: seq<Exported<ModelFields>>, wanted: set<string>, clis: set<string>) returns (all: set<string>)
    ensures all == clis + Dependencies(models, wanted)
  {
    all := clis;
    for n := 0 to |models|
      invariant all == clis + Dependencies(models[..n], wanted)
    {
      var keys := models[n].fields.compatibleCliKeys;
      DependenciesOfOneMore(models, n, wanted);
      if models[n].key in wanted {
        all := all + set j | 0 <= j < |keys| :: keys[j];
      }
    }
    assert models[..|models|] == models;
  }

  lemma DependenciesOfOneMore(models: seq<Exported<ModelFields>>, n: nat, wanted: set<string>)
    requires n < |models|
    ensures Dependencies(models[..n + 1], wanted) ==
            Dependencies(models[..n], wanted) +
            if models[n].key in wanted then set j | 0 <= j < |models[n].fields.compatibleCliKeys| :: models[n].fields.compatibleCliKeys[j] else {}
  {
    var a, b := models[..n], models[..n + 1];
    assert forall i :: 0 <= i < n ==> a[i] == b[i];
    assert b[n] == models[n];
  }

  method FilterExport(doc: Document, o: Options) returns (r: Filtered)
    ensures r.NothingSelected? <==> o.scope == SelectedScope && Asked(o.cliKeys) == {} && Asked(o.modelKeys) == {}
    ensures r.Exports? <==> !r.NothingSelected? && NeededClis(doc, o) <= KeysOf(doc.clis) && WantedModels(doc, o) <= KeysOf(doc.models)
    ensures r.Exports? ==>
              r.doc == Document(Taken(doc.clis, NeededClis(doc, o)).0, Taken(doc.models, WantedModels(doc, o)).0)
  {
    var clis, models := WantedClis(doc, o), WantedModels(doc, o);
    if o.scope == SelectedScope && clis == {} && models == {} {
      return NothingSelected;
    }
    if o.includeDependencies {
      clis := AddDependencies(doc.models, models, clis);
    }
    assert clis == NeededClis(doc, o);
    TakenExactly(doc.clis, clis);
    TakenExactly(doc.models, models);
    var someClis, noClis := Take(doc.clis, clis);
    var someModels, noModels := Take(doc.models, models);
    if noClis != {} || noModels != {} {
      return MissingKeys;
    }
    return Exports(Document(someClis, someModels));
  }

  /** A partial export with its dependencies stands on its own: it holds exactly what was asked for
      and what that needs, and every CLI that one of its models names. */
  lemma WithDependenciesStandsAlone(doc: Document, o: Options, part: Document)
    requires o.includeDependencies
    requires NeededClis(doc, o) <= KeysOf(doc.clis) && WantedModels(doc, o) <= KeysOf(doc.models)
    requires part == Document(Taken(doc.clis, NeededClis(doc, o)).0, Taken(doc.models, WantedModels(doc, o)).0)
    ensures KeysOf(part.clis) == NeededClis(doc, o) && KeysOf(part.models) == WantedModels(doc, o)
    ensures forall x, k :: x in part.models && k in x.fields.compatibleCliKeys ==> k in KeysOf(part.clis)
  {
    TakenExactly(doc.clis, NeededClis(doc, o));
    TakenExactly(doc.models, WantedModels(doc, o));
    forall x, k | x in part.models && k in x.fields.compatibleCliKeys ensures k in KeysOf(part.clis) {
      var p :| 0 <= p < |part.models| && part.models[p] == x;
      assert x.key in KeysOf(part.models);
      var i :| 0 <= i < |doc.models| && doc.models[i] == x;
      var j :| 0 <= j < |x.fields.compatibleCliKeys| && x.fields.compatibleCliKeys[j] == k;
      assert doc.models[i].fields.compatibleCliKeys[j] == k;
    }
  }
}
