/** Strings as the catalog compares, trims and normalizes them. */
module Text {

  datatype Option<+T> = None | Some(value: T)

  /** The Unicode white-space characters. */
  predicate IsSpace(c: char) {
    || c in "\t\n\U{0B}\U{0C}\r \U{85}\U{A0}\U{1680}\U{2028}\U{2029}\U{202F}\U{205F}\U{3000}"
    || '\U{2000}' <= c <= '\U{200A}'
  }

  function TrimLeft(s: string): string {
    if s != "" && IsSpace(s[0]) then TrimLeft(s[1..]) else s
  }

  function TrimRight(s: string): string {
    if s != "" && IsSpace(s[|s| - 1]) then TrimRight(s[..|s| - 1]) else s
  }

  function TrimSpace(s: string): string {
    TrimRight(TrimLeft(s))
  }

  lemma {:induction false} TrimLeftStops(s: string)
    ensures TrimLeft(s) == "" || !IsSpace(TrimLeft(s)[0])
  {
    if s != "" && IsSpace(s[0]) {
      TrimLeftStops(s[1..]);
    }
  }

  lemma {:induction false} TrimRightStops(s: string)
    ensures TrimRight(s) <= s
    ensures TrimRight(s) == "" || !IsSpace(TrimRight(s)[|TrimRight(s)| - 1])
  {
    if s != "" && IsSpace(s[|s| - 1]) {
      TrimRightStops(s[..|s| - 1]);
    }
  }

  lemma TrimIsIdempotent(s: string)
    ensures TrimSpace(TrimSpace(s)) == TrimSpace(s)
  {
    var l := TrimLeft(s);
    var t := TrimRight(l);
    TrimLeftStops(s);
    TrimRightStops(l);
    assert TrimLeft(t) == t && TrimRight(t) == t;
  }

  predicate Trimmed(s: string) {
    s != "" ==> !IsSpace(s[0]) && !IsSpace(s[|s| - 1])
  }

  /** Trimming changes nothing exactly where neither end is white space. */
  lemma TrimmedExactlyWhen(s: string)
    ensures TrimSpace(s) == s <==> Trimmed(s)
  {
    TrimLeftStops(s);
    TrimRightStops(TrimLeft(s));
  }

  predicate KeyChar(c: char) {
    'a' <= c <= 'z' || '0' <= c <= '9'
  }

  /** A stable lowercase key: one letter or digit, then up to 127 letters, digits, dots,
      underscores or dashes. */
  predicate StableKey(s: string) {
    && 1 <= |s| <= 128
    && KeyChar(s[0])
    && forall i :: 1 <= i < |s| ==> KeyChar(s[i]) || s[i] in "._-"
  }

  predicate Distinct<T(==)>(xs: seq<T>) {
    forall i, j :: 0 <= i < j < |xs| ==> xs[i] != xs[j]
  }

  function TrimAll(xs: seq<string>): seq<string> {
    seq(|xs|, i requires 0 <= i < |xs| => TrimSpace(xs[i]))
  }

  /** The trimmed values, provided that they are non-empty and pairwise different. */
  function Normalized(xs: seq<string>): Option<seq<string>> {
    var ts := TrimAll(xs);
    if "" !in ts && Distinct(ts) then Some(ts) else None
  }

  /** Nothing to normalize: every value is trimmed, or the list is at fault and left as it is. */
  predicate NothingToTrim(xs: seq<string>) {
    (forall i :: 0 <= i < |xs| ==> Trimmed(xs[i])) || Normalized(xs).None?
  }

  lemma NothingToTrimExactlyWhen(xs: seq<string>)
    ensures NothingToTrim(xs) <==> (Normalized(xs).Some? ==> Normalized(xs).value == xs)
  {
    forall i | 0 <= i < |xs| ensures TrimAll(xs)[i] == xs[i] <==> Trimmed(xs[i]) {
      TrimmedExactlyWhen(xs[i]);
    }
    if forall i :: 0 <= i < |xs| ==> Trimmed(xs[i]) {
      assert TrimAll(xs) == xs;
    }
  }

  method NormalizeStrings(xs: seq<string>) returns (r: Option<seq<string>>)
    ensures r == Normalized(xs)
  {
    var seen: set<string> := {};
    var out: seq<string> := [];
    for i := 0 to |xs|
      invariant out == TrimAll(xs)[..i]
      invariant "" !in out && Distinct(out)
      invariant seen == set v | v in out
    {
      var v := TrimSpace(xs[i]);
      assert TrimAll(xs)[i] == v;
      if v == "" || v in seen {
        return None;
      }
      seen := seen + {v};
      out := out + [v];
    }
    assert out == TrimAll(xs);
    return Some(out);
  }

  // ---------------------------------------------------------------------------
  // The order of keys
  // ---------------------------------------------------------------------------

  predicate Before(a: string, b: string) {
    if b == "" then false
    else if a == "" then true
    else a[0] < b[0] || (a[0] == b[0] && Before(a[1..], b[1..]))
  }

  lemma {:induction false} BeforeIsTotal(a: string, b: string)
    ensures (a == b && !Before(a, b) && !Before(b, a)) || (a != b && Before(a, b) != Before(b, a))
  {
    if a != "" && b != "" && a[0] == b[0] {
      BeforeIsTotal(a[1..], b[1..]);
      assert a == [a[0]] + a[1..] && b == [b[0]] + b[1..];
    }
  }

  lemma {:induction false} BeforeIsTransitive(a: string, b: string, c: string)
    requires Before(a, b) && Before(b, c)
    ensures Before(a, c)
  {
    if a != "" && a[0] == b[0] && b[0] == c[0] {
      BeforeIsTransitive(a[1..], b[1..], c[1..]);
    }
  }
}
