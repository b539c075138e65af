/**
  * Structural equality that ignores which function sits at a function leaf
  * (`deepEqualIgnoringFns`, src/composables/useStableOptions.ts:16-59).
  */
module DeepEqual {
  import opened JsValue

  /**
    * The relation the comparison decides, stated declaratively: any two
    * functions are equal; arrays are equal when they have the same length and
    * are equal position by position; records are equal when they have as many
    * own keys and every key of the left one is an own key of the right one
    * holding an equal value; every other pair is equal only when identical.
    */
  predicate FnBlindEqual(a: Value, b: Value) {
    if a.IsFunction() && b.IsFunction() then true
    else match a
      case Arr(xs) =>
        b.Arr? && |xs| == |b.items| &&
        forall i :: 0 <= i < |xs| ==> FnBlindEqual(xs[i], b.items[i])
      case Rec(fs) =>
        b.Rec? && |fs| == |b.fields| &&
        forall i :: 0 <= i < |fs| ==>
          HasKey(b.fields, fs[i].0) && FnBlindEqual(fs[i].1, Lookup(b.fields, fs[i].0))
      case _ => a == b
  }

  /** Every value equals itself, whatever functions it holds. */
  lemma {:induction false} FnBlindEqualReflexive(v: Value)
    requires WellFormed(v)
    ensures FnBlindEqual(v, v)
    decreases v
  {
    match v
    case Arr(xs) =>
      forall i | 0 <= i < |xs| ensures FnBlindEqual(xs[i], xs[i]) {
        FnBlindEqualReflexive(xs[i]);
      }
    case Rec(fs) =>
      forall i | 0 <= i < |fs|
        ensures HasKey(fs, fs[i].0) && FnBlindEqual(fs[i].1, Lookup(fs, fs[i].0))
      {
        LookupAt(fs, i);
        FnBlindEqualReflexive(fs[i].1);
      }
    case _ =>
  }

  /** The leaf cases: functions always match each other and never match anything else. */
  lemma FunctionLeaves(f: Value, g: Value, x: Value)
    requires f.IsFunction() && g.IsFunction() && !x.IsFunction()
    ensures FnBlindEqual(f, g)
    ensures !FnBlindEqual(f, x) && !FnBlindEqual(x, f)
  {
  }

  /** Non-plain objects are compared by identity only, and an array never equals a record. */
  lemma OpaqueAndKinds(o: Value, p: Value, xs: seq<Value>, fs: seq<(string, Value)>)
    requires o.Opaque? && p.Opaque? && o.id != p.id
    ensures !FnBlindEqual(o, p)
    ensures !FnBlindEqual(Arr(xs), Rec(fs)) && !FnBlindEqual(Rec(fs), Arr(xs))
  {
  }

  function KeySet(fields: seq<(string, Value)>): set<string> {
    set i | 0 <= i < |fields| :: fields[i].0
  }

  lemma {:induction false} KeySetSize(fields: seq<(string, Value)>)
    requires DistinctKeys(fields)
    ensures |KeySet(fields)| == |fields|
  {
    if |fields| > 0 {
      var rest := fields[1..];
      KeySetSize(rest);
      assert KeySet(fields) == KeySet(rest) + {fields[0].0} by {
        forall k | k in KeySet(fields) ensures k in KeySet(rest) + {fields[0].0} {
          var i :| 0 <= i < |fields| && fields[i].0 == k;
          if i > 0 { assert rest[i - 1].0 == k; }
        }
      }
      assert fields[0].0 !in KeySet(rest);
    }
  }

  lemma SubsetNoLarger<T>(x: set<T>, y: set<T>)
    requires x <= y
    ensures |x| <= |y|
    decreases x
  {
    if x != {} {
      var e :| e in x;
      SubsetNoLarger(x - {e}, y - {e});
    }
  }

  lemma SubsetOfSameSize<T>(x: set<T>, y: set<T>)
    requires x <= y && |x| == |y|
    ensures x == y
  {
    if !(y <= x) {
      var e :| e in y && e !in x;
      SubsetNoLarger(x, y - {e});
    }
  }

  /** Two records with distinct keys and equally many of them: if one's keys are among the other's, the key sets coincide. */
  lemma SameKeys(fa: seq<(string, Value)>, fb: seq<(string, Value)>)
    requires DistinctKeys(fa) && DistinctKeys(fb) && |fa| == |fb|
    requires forall i :: 0 <= i < |fa| ==> HasKey(fb, fa[i].0)
    ensures forall j :: 0 <= j < |fb| ==> HasKey(fa, fb[j].0)
  {
    KeySetSize(fa);
    KeySetSize(fb);
    assert KeySet(fa) <= KeySet(fb) by {
      forall k | k in KeySet(fa) ensures k in KeySet(fb) {
        var i :| 0 <= i < |fa| && fa[i].0 == k;
        assert HasKey(fb, fa[i].0);
      }
    }
    SubsetOfSameSize(KeySet(fa), KeySet(fb));
    forall j | 0 <= j < |fb| ensures HasKey(fa, fb[j].0) {
      assert fb[j].0 in KeySet(fb);
    }
  }

  /** On well-formed trees the relation is symmetric: the key-count check makes key inclusion two-way. */
  lemma {:induction false} FnBlindEqualSymmetric(a: Value, b: Value)
    requires WellFormed(a) && WellFormed(b) && FnBlindEqual(a, b)
    ensures FnBlindEqual(b, a)
    decreases a
  {
    if a.IsFunction() && b.IsFunction() {
    } else {
      match a
      case Arr(xs) =>
        forall i | 0 <= i < |xs| ensures FnBlindEqual(b.items[i], xs[i]) {
          FnBlindEqualSymmetric(xs[i], b.items[i]);
        }
      case Rec(fs) =>
        var gs := b.fields;
        SameKeys(fs, gs);
        forall j | 0 <= j < |gs|
          ensures HasKey(fs, gs[j].0) && FnBlindEqual(gs[j].1, Lookup(fs, gs[j].0))
        {
          var k := gs[j].0;
          var i :| 0 <= i < |fs| && fs[i].0 == k;
          LookupAt(fs, i);
          LookupAt(gs, j);
          FnBlindEqualSymmetric(fs[i].1, gs[j].1);
        }
      case _ =>
    }
  }

  /** On well-formed trees the relation is transitive, so with the two lemmas above it is an equivalence. */
  lemma {:induction false} FnBlindEqualTransitive(a: Value, b: Value, c: Value)
    requires WellFormed(a) && WellFormed(b) && WellFormed(c)
    requires FnBlindEqual(a, b) && FnBlindEqual(b, c)
    ensures FnBlindEqual(a, c)
    decreases a
  {
    if a.IsFunction() {
      assert b.IsFunction();
      assert c.IsFunction();
    } else {
      match a
      case Arr(xs) =>
        forall i | 0 <= i < |xs| ensures FnBlindEqual(xs[i], c.items[i]) {
          FnBlindEqualTransitive(xs[i], b.items[i], c.items[i]);
        }
      case Rec(fs) =>
        var gs, hs := b.fields, c.fields;
        forall i | 0 <= i < |fs|
          ensures HasKey(hs, fs[i].0) && FnBlindEqual(fs[i].1, Lookup(hs, fs[i].0))
        {
          var k := fs[i].0;
          var j :| 0 <= j < |gs| && gs[j].0 == k;
          LookupAt(gs, j);
          FnBlindEqualTransitive(fs[i].1, gs[j].1, Lookup(hs, k));
        }
      case _ =>
    }
  }

  /** Record key order does not matter: a record equals any reordering of its own fields. */
  lemma KeyOrderIrrelevant(fa: seq<(string, Value)>, fb: seq<(string, Value)>)
    requires WellFormed(Rec(fa)) && DistinctKeys(fb) && |fa| == |fb|
    requires forall j :: 0 <= j < |fb| ==> fb[j] in fa
    ensures FnBlindEqual(Rec(fa), Rec(fb))
  {
    forall j | 0 <= j < |fb| ensures HasKey(fa, fb[j].0) {
      var i :| 0 <= i < |fa| && fa[i] == fb[j];
    }
    SameKeys(fb, fa);
    forall i | 0 <= i < |fa|
      ensures HasKey(fb, fa[i].0) && FnBlindEqual(fa[i].1, Lookup(fb, fa[i].0))
    {
      var j :| 0 <= j < |fb| && fb[j].0 == fa[i].0;
      var i' :| 0 <= i' < |fa| && fa[i'] == fb[j];
      LookupAt(fb, j);
      assert i' == i;
      FnBlindEqualReflexive(fa[i].1);
    }
  }

  /** Gives every caller-supplied function a new identity, as a re-render with inline callbacks does. */
  function RenameFns(v: Value, rename: nat -> nat): (r: Value)
    ensures v.Fn? <==> r.Fn?
  {
    match v
    case Fn(id) => Fn(rename(id))
    case Arr(xs) => Arr(seq(|xs|, i requires 0 <= i < |xs| => RenameFns(xs[i], rename)))
    case Rec(fs) => Rec(seq(|fs|, i requires 0 <= i < |fs| => (fs[i].0, RenameFns(fs[i].1, rename))))
    case _ => v
  }

  /** Replacing every function by another one never breaks equality. */
  lemma {:induction false} RenamedFunctionsStayEqual(v: Value, rename: nat -> nat)
    requires WellFormed(v)
    ensures FnBlindEqual(v, RenameFns(v, rename))
    decreases v
  {
    match v
    case Arr(xs) =>
      forall i | 0 <= i < |xs| ensures FnBlindEqual(xs[i], RenameFns(v, rename).items[i]) {
        RenamedFunctionsStayEqual(xs[i], rename);
      }
    case Rec(fs) =>
      var gs := RenameFns(v, rename).fields;
      forall i | 0 <= i < |fs|
        ensures HasKey(gs, fs[i].0) && FnBlindEqual(fs[i].1, Lookup(gs, fs[i].0))
      {
        assert DistinctKeys(gs) by {
          forall p, q | 0 <= p < q < |gs| ensures gs[p].0 != gs[q].0 {
            assert gs[p].0 == fs[p].0 && gs[q].0 == fs[q].0;
          }
        }
        LookupAt(gs, i);
        RenamedFunctionsStayEqual(fs[i].1, rename);
      }
    case _ =>
  }

  /** Every pair recorded in `seen` was already found equal, or its left side is bigger than `a` (it is an ancestor still being compared). */
  predicate SeenSound(seen: map<Value, Value>, a: Value) {
    forall l :: l in seen ==> FnBlindEqual(l, seen[l]) || Size(l) > Size(a)
  }

  /** The entries of `seen'` that are not known equal are untouched entries of `seen`, or the pair (`a`, `b`) itself. */
  predicate SeenGrows(seen: map<Value, Value>, seen': map<Value, Value>, a: Value, b: Value) {
    forall l :: l in seen' ==>
      FnBlindEqual(l, seen'[l]) || (l in seen && seen'[l] == seen[l]) || (l == a && seen'[l] == b)
  }

  /**
    * One call of `deepEqualIgnoringFns(a, b, seen)`.  The side table maps a
    * left node to the right node it was last paired with; a pair found there
    * is answered `true` without descending.  On finite trees that shortcut
    * never changes the answer: the result is exactly `FnBlindEqual(a, b)`.
    */
  method DeepEqualFrom(a: Value, b: Value, seen: map<Value, Value>) returns (eq: bool, seen': map<Value, Value>)
    requires WellFormed(a) && SeenSound(seen, a)
    ensures eq == FnBlindEqual(a, b)
    ensures eq ==> forall l :: l in seen' ==> FnBlindEqual(l, seen'[l]) || (l in seen && seen'[l] == seen[l])
    decreases Size(a), 1
  {
    seen' := seen;
    if a == b {
      FnBlindEqualReflexive(a);
      return true, seen';
    }
    if a.IsFunction() && b.IsFunction() {
      return true, seen';
    }
    if !IsPlainObjectOrArray(a) || !IsPlainObjectOrArray(b) {
      return false, seen';
    }
    if a in seen' && seen'[a] == b {
      return true, seen';
    }
    seen' := seen'[a := b];
    if a.Arr? || b.Arr? {
      if !a.Arr? || !b.Arr? || |a.items| != |b.items| {
        return false, seen';
      }
      eq, seen' := ItemsEqual(a, b, seen, seen');
    } else {
      if |a.fields| != |b.fields| {
        return false, seen';
      }
      eq, seen' := FieldsEqual(a, b, seen, seen');
    }
  }

  /** The array loop of `deepEqualIgnoringFns` (lines 35-42), after `a` was paired with `b` in the side table. */
  method ItemsEqual(a: Value, b: Value, ghost seen0: map<Value, Value>, seen: map<Value, Value>)
    returns (eq: bool, seen': map<Value, Value>)
    requires a.Arr? && b.Arr? && |a.items| == |b.items| && WellFormed(a)
    requires SeenSound(seen0, a) && SeenGrows(seen0, seen, a, b)
    ensures eq == FnBlindEqual(a, b)
    ensures eq ==> forall l :: l in seen' ==> FnBlindEqual(l, seen'[l]) || (l in seen0 && seen'[l] == seen0[l])
    decreases Size(a), 0
  {
    seen' := seen;
    var i := 0;
    while i < |a.items|
      invariant 0 <= i <= |a.items|
      invariant forall j :: 0 <= j < i ==> FnBlindEqual(a.items[j], b.items[j])
      invariant SeenGrows(seen0, seen', a, b)
    {
      ItemSmaller(a.items, i);
      var e;
      e, seen' := DeepEqualFrom(a.items[i], b.items[i], seen');
      if !e {
        return false, seen';
      }
      i := i + 1;
    }
    return true, seen';
  }

  /** The record loop of `deepEqualIgnoringFns` (lines 44-58), after `a` was paired with `b` in the side table. */
  method FieldsEqual(a: Value, b: Value, ghost seen0: map<Value, Value>, seen: map<Value, Value>)
    returns (eq: bool, seen': map<Value, Value>)
    requires a.Rec? && b.Rec? && |a.fields| == |b.fields| && WellFormed(a)
    requires SeenSound(seen0, a) && SeenGrows(seen0, seen, a, b)
    ensures eq == FnBlindEqual(a, b)
    ensures eq ==> forall l :: l in seen' ==> FnBlindEqual(l, seen'[l]) || (l in seen0 && seen'[l] == seen0[l])
    decreases Size(a), 0
  {
    seen' := seen;
    var fa, fb := a.fields, b.fields;
    var i := 0;
    while i < |fa|
      invariant 0 <= i <= |fa|
      invariant forall j :: 0 <= j < i ==> HasKey(fb, fa[j].0) && FnBlindEqual(fa[j].1, Lookup(fb, fa[j].0))
      invariant SeenGrows(seen0, seen', a, b)
    {
      var k := fa[i].0;
      if !HasKey(fb, k) {
        return false, seen';
      }
      var av := Lookup(fa, k);
      var bv := Lookup(fb, k);
      LookupAt(fa, i);
      FieldSmaller(fa, i);
      var e;
      e, seen' := DeepEqualFrom(av, bv, seen');
      if !e {
        return false, seen';
      }
      i := i + 1;
    }
    return true, seen';
  }

  /** `deepEqualIgnoringFns(a, b)` with a fresh side table. */
  method DeepEqualIgnoringFns(a: Value, b: Value) returns (eq: bool)
    requires WellFormed(a)
    ensures eq == FnBlindEqual(a, b)
  {
    var seen;
    eq, seen := DeepEqualFrom(a, b, map[]);
  }
}
