// Dotted-path lookup in the translation object, getNestedValue
// (language.js:543-545): `path.split('.').reduce((current, key) =>
// current?.[key], obj)`.
module Translations {
  import opened Wrappers
  import opened JsStrings

  /** A translation value: an object of named members, or a text leaf. */
  datatype Json = Leaf(text: string) | Object(members: map<string, Json>)

  /** One reduction step, `current?.[key]`. An undefined current value, a
      missing member and a member read on a text leaf all give None. */
  function Member(current: Option<Json>, key: string): (next: Option<Json>)
    ensures next.Some? <==> current.Some? && current.value.Object? && key in current.value.members
    ensures next.Some? ==> next.value == current.value.members[key]
  {
    match current
    case Some(Object(members)) => if key in members then Some(members[key]) else None
    case _ => None
  }

  /** `keys.reduce(Member, current)`: the steps taken left to right. */
  function Walk(current: Option<Json>, keys: seq<string>): (r: Option<Json>)
    ensures r.Some? ==> current.Some?
    ensures |keys| == 1 ==> r == Member(current, keys[0])
    decreases |keys|
  {
    if keys == [] then current else Walk(Member(current, keys[0]), keys[1..])
  }

  /** getNestedValue(obj, path). `obj` is None when the object itself is
      undefined. */
  function GetNestedValue(obj: Option<Json>, path: string): (r: Option<Json>)
    ensures r.Some? ==> obj.Some?
  {
    Walk(obj, Split(path))
  }

  /** Once a step is missing the walk stays undefined. */
  lemma {:induction false} WalkFromNone(keys: seq<string>)
    ensures Walk(None, keys) == None
    decreases |keys|
  {
    if keys != [] {
      WalkFromNone(keys[1..]);
    }
  }

  /** Walking a concatenation walks the first part, then the second. */
  lemma {:induction false} WalkAppend(current: Option<Json>, a: seq<string>, b: seq<string>)
    ensures Walk(current, a + b) == Walk(Walk(current, a), b)
    decreases |a|
  {
    if a == [] {
      assert a + b == b;
    } else {
      assert (a + b)[0] == a[0];
      assert (a + b)[1..] == a[1..] + b;
      WalkAppend(Member(current, a[0]), a[1..], b);
    }
  }

  /** The walk is undefined as soon as any prefix of the steps reaches a
      missing member. */
  lemma WalkStopsAtMissing(current: Option<Json>, keys: seq<string>, i: nat)
    requires i <= |keys| && Walk(current, keys[..i]) == None
    ensures Walk(current, keys) == None
  {
    assert keys == keys[..i] + keys[i..];
    WalkAppend(current, keys[..i], keys[i..]);
    WalkFromNone(keys[i..]);
  }

  /** A path without a dot is a single member lookup. */
  lemma GetNestedDotFree(obj: Option<Json>, key: string)
    requires '.' !in key
    ensures GetNestedValue(obj, key) == Member(obj, key)
  {
    SplitDotFree(key);
    assert [key][1..] == [];
    assert Walk(Member(obj, key), []) == Member(obj, key);
  }

  /** Looking up `p.q` is looking up `q` in what `p` gives. */
  lemma GetNestedCompose(obj: Option<Json>, p: string, q: string)
    ensures GetNestedValue(obj, p + "." + q) == GetNestedValue(GetNestedValue(obj, p), q)
  {
    SplitAtDot(p, q);
    WalkAppend(obj, Split(p), Split(q));
  }

  /** `getNestedValue(obj, "a.b.c")` reads a, then b, then c. */
  lemma GetNestedThreeSteps(obj: Option<Json>, a: string, b: string, c: string)
    requires '.' !in a && '.' !in b && '.' !in c
    ensures GetNestedValue(obj, a + "." + b + "." + c) == Member(Member(Member(obj, a), b), c)
  {
    GetNestedCompose(obj, a + "." + b, c);
    GetNestedCompose(obj, a, b);
    GetNestedDotFree(obj, a);
    GetNestedDotFree(Member(obj, a), b);
    GetNestedDotFree(Member(Member(obj, a), b), c);
  }

  /** An undefined object gives undefined for every path. */
  lemma GetNestedOfUndefined(path: string)
    ensures GetNestedValue(None, path) == None
  {
    WalkFromNone(Split(path));
  }
}
