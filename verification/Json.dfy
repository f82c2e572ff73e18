/** JSON values as the AI Runtime catalog stores them, the redaction an export applies to
    them, and the restoration an import applies to a redacted document.

    A missing value and an explicit null are the same thing here: the restoration code looks
    a name up in a map of interface values and treats "absent" and "nil" alike. */
module Json {

  datatype Json =
    | Null
    | Bool(b: bool)
    | Num(n: real)
    | Str(s: string)
    | Arr(items: seq<Json>)
    | Obj(fields: map<string, Json>)

  const REDACTED := "[REDACTED]"

  const TOKENS := ["secret", "password", "passwd", "token", "api_key", "apikey", "credential", "private_key", "access_key"]

  function FoldChar(c: char): char {
    if c == '-' || c == '.' then '_'
    else if 'A' <= c <= 'Z' then c - 'A' + 'a'
    else c
  }

  function FoldKey(k: string): string {
    seq(|k|, i requires 0 <= i < |k| => FoldChar(k[i]))
  }

  predicate MatchesToken(name: string, token: string) {
    || name == token
    || (|name| > |token| && name[|name| - |token| - 1..] == "_" + token)
    || token + "_" <= name
  }

  /** True of a field name whose value an export must not show. */
  predicate SensitiveKey(k: string) {
    exists i :: 0 <= i < |TOKENS| && MatchesToken(FoldKey(k), TOKENS[i])
  }

  predicate Placeholder(v: Json) {
    v == Str(REDACTED)
  }

  /** The existing value cannot stand in for a placeholder: there is none, or it is itself one. */
  predicate NoValue(existing: Json) {
    existing == Null || Placeholder(existing)
  }

  function FieldsOf(v: Json): map<string, Json> {
    if v.Obj? then v.fields else map[]
  }

  function ItemsOf(v: Json): seq<Json> {
    if v.Arr? then v.items else []
  }

  function FieldAt(m: map<string, Json>, k: string): Json {
    if k in m then m[k] else Null
  }

  function ItemAt(xs: seq<Json>, i: nat): Json {
    if i < |xs| then xs[i] else Null
  }

  // ---------------------------------------------------------------------------
  // Redaction
  // ---------------------------------------------------------------------------

  function Redact(v: Json): Json {
    match v
    case Obj(m) => Obj(map k | k in m :: if SensitiveKey(k) then Str(REDACTED) else Redact(m[k]))
    case Arr(xs) => Arr(seq(|xs|, i requires 0 <= i < |xs| => Redact(xs[i])))
    case _ => v
  }

  /** Two values that differ at most in what stands under a sensitive key. */
  predicate SameButSecrets(a: Json, b: Json) {
    match a
    case Obj(m) =>
      && b.Obj?
      && m.Keys == b.fields.Keys
      && forall k :: k in m ==> SensitiveKey(k) || SameButSecrets(m[k], b.fields[k])
    case Arr(xs) =>
      && b.Arr?
      && |xs| == |b.items|
      && forall i :: 0 <= i < |xs| ==> SameButSecrets(xs[i], b.items[i])
    case _ => a == b
  }

  /** Redaction hides exactly the secrets: two values export alike if and only if they agree
      on everything that is not under a sensitive key. */
  lemma {:induction false} RedactHidesExactlySecrets(a: Json, b: Json)
    ensures Redact(a) == Redact(b) <==> SameButSecrets(a, b)
  {
    match a
    case Obj(m) =>
      if b.Obj? {
        forall k | k in m && k in b.fields
          ensures Redact(m[k]) == Redact(b.fields[k]) <==> SameButSecrets(m[k], b.fields[k])
        {
          RedactHidesExactlySecrets(m[k], b.fields[k]);
        }
        var ra, rb := Redact(a).fields, Redact(b).fields;
        assert ra.Keys == m.Keys && rb.Keys == b.fields.Keys;
        if ra == rb {
          forall k | k in m ensures SensitiveKey(k) || SameButSecrets(m[k], b.fields[k]) {
            assert k in ra && ra[k] == rb[k];
          }
        }
      }
    case Arr(xs) =>
      if b.Arr? && |xs| == |b.items| {
        forall i | 0 <= i < |xs|
          ensures Redact(xs[i]) == Redact(b.items[i]) <==> SameButSecrets(xs[i], b.items[i])
        {
          RedactHidesExactlySecrets(xs[i], b.items[i]);
        }
        var ra, rb := Redact(a).items, Redact(b).items;
        if ra == rb {
          forall i | 0 <= i < |xs| ensures SameButSecrets(xs[i], b.items[i]) {
            assert ra[i] == rb[i];
          }
        }
      } else if b.Arr? {
        assert |Redact(a).items| != |Redact(b).items|;
      }
    case _ =>
  }

  // ---------------------------------------------------------------------------
  // Restoration
  // ---------------------------------------------------------------------------

  datatype Step = Field(name: string) | Index(i: nat)

  type Path = seq<Step>

  /** One placeholder for which the catalog has no value to put back. */
  datatype Missing = Missing(path: Path, underSensitiveKey: bool)

  /** Field `k` is left out of the stored object: a placeholder under a sensitive key with
      nothing to stand in for it. */
  predicate Dropped(m: map<string, Json>, prior: map<string, Json>, k: string) {
    k in m && SensitiveKey(k) && Placeholder(m[k]) && NoValue(FieldAt(prior, k))
  }

  /** The fields named in `ks`, as an import stores them. */
  function RestoreFields(m: map<string, Json>, prior: map<string, Json>, ks: set<string>): map<string, Json>
    decreases Obj(m), 0
  {
    map k | k in ks && k in m && !Dropped(m, prior, k) ::
      if SensitiveKey(k) && Placeholder(m[k]) then FieldAt(prior, k) else Restore(m[k], FieldAt(prior, k))
  }

  /** The value an import stores for `v` when the catalog holds `existing` at the same place. */
  function Restore(v: Json, existing: Json): Json
    decreases v, 1
  {
    match v
    case Obj(m) => Obj(RestoreFields(m, FieldsOf(existing), m.Keys))
    case Arr(xs) =>
      var prior := ItemsOf(existing);
      Arr(seq(|xs|, i requires 0 <= i < |xs| => Restore(xs[i], ItemAt(prior, i))))
    case _ =>
      if Placeholder(v) then (if NoValue(existing) then Null else existing) else v
  }

  /** The placeholders that field `k` leaves unfilled. */
  function FieldMissing(m: map<string, Json>, prior: map<string, Json>, k: string, path: Path): set<Missing>
    requires k in m
    decreases Obj(m), 0
  {
    if SensitiveKey(k) && Placeholder(m[k]) then
      if NoValue(FieldAt(prior, k)) then {Missing(path + [Field(k)], true)} else {}
    else
      Unresolved(m[k], FieldAt(prior, k), path + [Field(k)])
  }

  function FieldsMissing(m: map<string, Json>, prior: map<string, Json>, ks: set<string>, path: Path): set<Missing>
    requires ks <= m.Keys
    decreases Obj(m), 1
  {
    set k, d | k in ks && d in FieldMissing(m, prior, k, path) :: d
  }

  function ItemsMissing(xs: seq<Json>, prior: seq<Json>, n: nat, path: Path): set<Missing>
    requires n <= |xs|
    decreases Arr(xs), 1
  {
    set i, d | 0 <= i < n && d in Unresolved(xs[i], ItemAt(prior, i), path + [Index(i)]) :: d
  }

  /** The placeholders of `v` that `existing` cannot fill. */
  function Unresolved(v: Json, existing: Json, path: Path): set<Missing>
    decreases v, 2
  {
    match v
    case Obj(m) => FieldsMissing(m, FieldsOf(existing), m.Keys, path)
    case Arr(xs) => ItemsMissing(xs, ItemsOf(existing), |xs|, path)
    case _ => if Placeholder(v) && NoValue(existing) then {Missing(path, false)} else {}
  }

  /** Every placeholder of `v` has a value in `existing`. */
  predicate Resolves(v: Json, existing: Json) {
    match v
    case Obj(m) => forall k :: k in m ==> Resolves(m[k], FieldAt(FieldsOf(existing), k))
    case Arr(xs) => forall i :: 0 <= i < |xs| ==> Resolves(xs[i], ItemAt(ItemsOf(existing), i))
    case _ => !(Placeholder(v) && NoValue(existing))
  }

  /** No placeholder anywhere in the value. */
  predicate PlaceholderFree(v: Json) {
    match v
    case Obj(m) => forall k :: k in m ==> PlaceholderFree(m[k])
    case Arr(xs) => forall i :: 0 <= i < |xs| ==> PlaceholderFree(xs[i])
    case _ => !Placeholder(v)
  }

  lemma {:induction false} UnresolvedIffNotResolves(v: Json, existing: Json, path: Path)
    ensures Unresolved(v, existing, path) == {} <==> Resolves(v, existing)
  {
    match v
    case Obj(m) =>
      var prior := FieldsOf(existing);
      forall k | k in m
        ensures FieldMissing(m, prior, k, path) == {} <==> Resolves(m[k], FieldAt(prior, k))
        ensures FieldMissing(m, prior, k, path) <= Unresolved(v, existing, path)
      {
        UnresolvedIffNotResolves(m[k], FieldAt(prior, k), path + [Field(k)]);
      }
      if Resolves(v, existing) {
        assert forall k :: k in m ==> FieldMissing(m, prior, k, path) == {};
      }
    case Arr(xs) =>
      var prior := ItemsOf(existing);
      forall i | 0 <= i < |xs|
        ensures Unresolved(xs[i], ItemAt(prior, i), path + [Index(i)]) == {} <==> Resolves(xs[i], ItemAt(prior, i))
        ensures Unresolved(xs[i], ItemAt(prior, i), path + [Index(i)]) <= Unresolved(v, existing, path)
      {
        UnresolvedIffNotResolves(xs[i], ItemAt(prior, i), path + [Index(i)]);
      }
    case _ =>
  }

  /** Against nothing, a document resolves exactly when it holds no placeholder at all. */
  lemma {:induction false} ResolvesAgainstNothing(v: Json, existing: Json)
    requires existing == Null || (v.Obj? && existing == Obj(map[]))
    ensures Resolves(v, existing) <==> PlaceholderFree(v)
  {
    match v
    case Obj(m) =>
      forall k | k in m ensures Resolves(m[k], FieldAt(FieldsOf(existing), k)) <==> PlaceholderFree(m[k]) {
        ResolvesAgainstNothing(m[k], Null);
      }
    case Arr(xs) =>
      forall i | 0 <= i < |xs| ensures Resolves(xs[i], ItemAt(ItemsOf(existing), i)) <==> PlaceholderFree(xs[i]) {
        ResolvesAgainstNothing(xs[i], Null);
      }
    case _ =>
  }

  /** A value without placeholders is stored as it is, whatever the catalog holds. */
  lemma {:induction false} PlaceholderFreeIsKept(v: Json, existing: Json)
    requires PlaceholderFree(v)
    ensures Resolves(v, existing) && Restore(v, existing) == v
  {
    match v
    case Obj(m) =>
      forall k | k in m
        ensures Resolves(m[k], FieldAt(FieldsOf(existing), k)) && Restore(m[k], FieldAt(FieldsOf(existing), k)) == m[k]
      {
        PlaceholderFreeIsKept(m[k], FieldAt(FieldsOf(existing), k));
      }
      assert Restore(v, existing).fields == m;
    case Arr(xs) =>
      forall i | 0 <= i < |xs|
        ensures Resolves(xs[i], ItemAt(ItemsOf(existing), i)) && Restore(xs[i], ItemAt(ItemsOf(existing), i)) == xs[i]
      {
        PlaceholderFreeIsKept(xs[i], ItemAt(ItemsOf(existing), i));
      }
      assert Restore(v, existing).items == xs;
    case _ =>
  }

  /** Restoring again, against what the first restoration stored, changes nothing. */
  lemma {:induction false} RestoreIsIdempotent(v: Json, existing: Json)
    requires Resolves(v, existing)
    ensures Resolves(v, Restore(v, existing))
    ensures Restore(v, Restore(v, existing)) == Restore(v, existing)
  {
    match v
    case Obj(m) =>
      var prior := FieldsOf(existing);
      var now := Restore(v, existing).fields;
      assert now.Keys == m.Keys by {
        forall k | k in m ensures k in now { assert Resolves(m[k], FieldAt(prior, k)); }
      }
      forall k | k in m
        ensures Resolves(m[k], now[k]) && Restore(m[k], now[k]) == now[k]
      {
        assert Resolves(m[k], FieldAt(prior, k));
        RestoreIsIdempotent(m[k], FieldAt(prior, k));
      }
      assert Restore(v, Restore(v, existing)).fields == now;
    case Arr(xs) =>
      var prior := ItemsOf(existing);
      var now := Restore(v, existing).items;
      forall i | 0 <= i < |xs|
        ensures Resolves(xs[i], now[i]) && Restore(xs[i], now[i]) == now[i]
      {
        RestoreIsIdempotent(xs[i], ItemAt(prior, i));
      }
      assert Restore(v, Restore(v, existing)).items == now;
    case _ =>
  }

  /** If nothing is left unresolved and the catalog held no placeholder, none is stored. */
  lemma {:induction false} RestoreStoresNoPlaceholder(v: Json, existing: Json)
    requires Resolves(v, existing) && PlaceholderFree(existing)
    ensures PlaceholderFree(Restore(v, existing))
  {
    match v
    case Obj(m) =>
      var prior := FieldsOf(existing);
      forall k | k in m && k in Restore(v, existing).fields
        ensures PlaceholderFree(Restore(v, existing).fields[k])
      {
        assert Resolves(m[k], FieldAt(prior, k));
        RestoreStoresNoPlaceholder(m[k], FieldAt(prior, k));
      }
    case Arr(xs) =>
      var prior := ItemsOf(existing);
      forall i | 0 <= i < |xs| ensures PlaceholderFree(Restore(xs[i], ItemAt(prior, i))) {
        RestoreStoresNoPlaceholder(xs[i], ItemAt(prior, i));
      }
    case _ =>
  }

  // ---------------------------------------------------------------------------
  // Export, then import
  // ---------------------------------------------------------------------------

  /** The stored values whose own export can be imported back: at every place an export
      shows, no placeholder text, and no null directly under a sensitive key. What lies
      deeper under a sensitive key is free. */
  predicate Exportable(v: Json) {
    match v
    case Obj(m) => forall k :: k in m ==> if SensitiveKey(k) then !NoValue(m[k]) else Exportable(m[k])
    case Arr(xs) => forall i :: 0 <= i < |xs| ==> Exportable(xs[i])
    case _ => !Placeholder(v)
  }

  /** An export can be put back over the value it came from exactly when that value is
      exportable, and putting it back then gives the very same value, at every depth. */
  lemma {:induction false} RestoreUndoesRedact(v: Json)
    ensures Resolves(Redact(v), v) <==> Exportable(v)
    ensures Exportable(v) ==> Restore(Redact(v), v) == v
  {
    match v
    case Obj(m) =>
      var r := Redact(v).fields;
      forall k | k in m
        ensures Resolves(r[k], m[k]) <==> (if SensitiveKey(k) then !NoValue(m[k]) else Exportable(m[k]))
        ensures Exportable(v) ==> Restore(r[k], m[k]) == m[k]
      {
        RestoreUndoesRedact(m[k]);
      }
      if Resolves(Redact(v), v) {
        forall k | k in m ensures if SensitiveKey(k) then !NoValue(m[k]) else Exportable(m[k]) {
          assert k in r && Resolves(r[k], FieldAt(FieldsOf(v), k));
        }
      }
      if Exportable(v) {
        assert Restore(Redact(v), v).fields == m;
      }
    case Arr(xs) =>
      var r := Redact(v).items;
      forall i | 0 <= i < |xs|
        ensures Resolves(r[i], xs[i]) <==> Exportable(xs[i])
        ensures Exportable(xs[i]) ==> Restore(r[i], xs[i]) == xs[i]
      {
        RestoreUndoesRedact(xs[i]);
      }
      if Resolves(Redact(v), v) {
        forall i | 0 <= i < |xs| ensures Exportable(xs[i]) {
          assert Resolves(r[i], ItemAt(ItemsOf(v), i));
        }
      }
      if Exportable(v) {
        assert Restore(Redact(v), v).items == xs;
      }
    case _ =>
  }

  // ---------------------------------------------------------------------------
  // The two mutually recursive loops that compute a restoration
  // ---------------------------------------------------------------------------

  lemma OneMoreField(m: map<string, Json>, prior: map<string, Json>, ks: set<string>, k: string, path: Path)
    requires ks <= m.Keys && k in m
    ensures FieldsMissing(m, prior, ks + {k}, path) == FieldsMissing(m, prior, ks, path) + FieldMissing(m, prior, k, path)
    ensures RestoreFields(m, prior, ks + {k}) ==
            if Dropped(m, prior, k) then RestoreFields(m, prior, ks)
            else RestoreFields(m, prior, ks)[k := Restore(m[k], FieldAt(prior, k))]
  {
  }

  lemma NoFieldsYet(m: map<string, Json>, prior: map<string, Json>, path: Path)
    ensures FieldsMissing(m, prior, {}, path) == {} && RestoreFields(m, prior, {}) == map[]
  {
  }

  lemma OneMoreItem(xs: seq<Json>, prior: seq<Json>, n: nat, path: Path)
    requires n < |xs|
    ensures ItemsMissing(xs, prior, n + 1, path) ==
            ItemsMissing(xs, prior, n, path) + Unresolved(xs[n], ItemAt(prior, n), path + [Index(n)])
  {
  }

  method PreserveRedactedMap(input: map<string, Json>, existing: map<string, Json>, path: Path)
    returns (out: map<string, Json>, missing: set<Missing>)
    ensures Obj(out) == Restore(Obj(input), Obj(existing))
    ensures missing == Unresolved(Obj(input), Obj(existing), path)
    decreases Obj(input), 0
  {
    out, missing := map[], {};
    var todo := input.Keys;
    NoFieldsYet(input, existing, path);
    while todo != {}
      invariant todo <= input.Keys
      invariant out == RestoreFields(input, existing, input.Keys - todo)
      invariant missing == FieldsMissing(input, existing, input.Keys - todo, path)
      decreases |todo|
    {
      var name :| name in todo;
      OneMoreField(input, existing, input.Keys - todo, name, path);
      assert input.Keys - (todo - {name}) == input.Keys - todo + {name};
      out, missing := PreserveField(input, existing, name, path, out, missing);
      todo := todo - {name};
    }
    assert input.Keys - todo == input.Keys;
  }

  /** One iteration of the loop above. */
  method PreserveField(input: map<string, Json>, existing: map<string, Json>, name: string, path: Path,
                       soFar: map<string, Json>, found: set<Missing>)
    returns (out: map<string, Json>, missing: set<Missing>)
    requires name in input
    ensures out == if Dropped(input, existing, name) then soFar
                   else soFar[name := Restore(input[name], FieldAt(existing, name))]
    ensures missing == found + FieldMissing(input, existing, name, path)
    decreases input[name], 2
  {
    out, missing := soFar, found;
    var value, prior := input[name], FieldAt(existing, name);
    if SensitiveKey(name) && Placeholder(value) {
      if NoValue(prior) {
        missing := missing + {Missing(path + [Field(name)], true)};
      } else {
        out := out[name := prior];
      }
    } else {
      var r;
      r, missing := PreserveRedactedValue(value, prior, path + [Field(name)], missing);
      out := out[name := r];
    }
  }

  method PreserveRedactedValue(value: Json, existing: Json, path: Path, found: set<Missing>)
    returns (out: Json, missing: set<Missing>)
    ensures out == Restore(value, existing)
    ensures missing == found + Unresolved(value, existing, path)
    decreases value, 1
  {
    match value
    case Obj(nested) =>
      var m, d := PreserveRedactedMap(nested, FieldsOf(existing), path);
      out, missing := Obj(m), found + d;
    case Arr(nested) =>
      var prior := ItemsOf(existing);
      var xs: seq<Json> := [];
      missing := found;
      for i := 0 to |nested|
        invariant |xs| == i
        invariant forall j :: 0 <= j < i ==> xs[j] == Restore(nested[j], ItemAt(prior, j))
        invariant missing == found + ItemsMissing(nested, prior, i, path)
      {
        OneMoreItem(nested, prior, i, path);
        var item;
        item, missing := PreserveRedactedValue(nested[i], ItemAt(prior, i), path + [Index(i)], missing);
        xs := xs + [item];
      }
      assert xs == Restore(value, existing).items;
      out := Arr(xs);
    case _ =>
      missing := found;
      if Placeholder(value) {
        if NoValue(existing) {
          out, missing := Null, missing + {Missing(path, false)};
        } else {
          out := existing;
        }
      } else {
        out := value;
      }
  }
}
