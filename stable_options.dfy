/**
  * `useStableOptions` (src/composables/useStableOptions.ts:113-133): keeps the
  * newest options, a snapshot for comparison, and a rewrapped tree that is
  * rebuilt only when the options change in more than their functions.
  */
module StableOptions {
  import opened Wrappers
  import opened JsValue
  import opened DeepEqual
  import opened Rewrap

  /** One step of lookup preserves equality ignoring functions. */
  lemma GetKeepsEquality(x: Value, y: Value, k: Key)
    requires WellFormed(x) && WellFormed(y) && FnBlindEqual(x, y) && !x.IsNullish()
    ensures !y.IsNullish()
    ensures WellFormed(Get(x, k)) && WellFormed(Get(y, k))
    ensures FnBlindEqual(Get(x, k), Get(y, k))
  {
    if x.IsFunction() && y.IsFunction() {
    } else if x.Rec? && k.Name? {
      var fa, fb, n := x.fields, y.fields, k.name;
      if HasKey(fa, n) {
        var i :| 0 <= i < |fa| && fa[i].0 == n && fa[i].1 == Lookup(fa, n);
      } else {
        if HasKey(fb, n) {
          SameKeys(fa, fb);
          assert false;
        }
      }
    } else if x.Opaque? && k.Name? {
      FnBlindEqualReflexive(Get(x, k));
    } else if !x.Arr? && !x.Rec? {
      FnBlindEqualReflexive(Get(x, k));
    }
  }

  /** Trees equal ignoring functions reach equal values along every path. */
  lemma {:induction false} GetByPathKeepsEquality(a: Value, b: Value, q: seq<Key>)
    requires WellFormed(a) && WellFormed(b) && FnBlindEqual(a, b)
    ensures WellFormed(GetByPath(a, q)) && WellFormed(GetByPath(b, q))
    ensures FnBlindEqual(GetByPath(a, q), GetByPath(b, q))
    decreases |q|
  {
    if |q| > 0 {
      var q' := q[..|q| - 1];
      GetByPathKeepsEquality(a, b, q');
      var x, y := GetByPath(a, q'), GetByPath(b, q');
      if x.IsNullish() {
        FnBlindEqualReflexive(x);
      } else {
        GetKeepsEquality(x, y, q[|q| - 1]);
      }
    }
  }

  /**
    * The stabilizer's central guarantee: while the live options equal the
    * snapshot ignoring functions, every function of the stabilized tree is
    * the wrapper for its own path, and calling it reaches the function the
    * live options hold at that path right now.
    */
  lemma StableDispatch(snapshot: Value, live: Value, q: seq<Key>)
    requires WellFormed(snapshot) && WellFormed(live) && FnBlindEqual(snapshot, live)
    requires |q| > 0 && GetByPath(Wrap(snapshot), q).IsFunction()
    ensures GetByPath(Wrap(snapshot), q) == WrapperFor(q)
    ensures GetByPath(live, q).IsFunction()
    ensures InvokeWrapper(live, WrapperFor(q)) == Some(Call(GetByPath(live, q), GetByPath(live, q[..|q| - 1])))
  {
    GetByPathWrapped(snapshot, [], q);
    assert [] + q == q;
    GetByPathKeepsEquality(snapshot, live, q);
    WrapperDispatch(live, q);
  }

  /**
    * What consumers hold matches what the host passed last: for a tree of
    * plain values, the stabilized copy of the snapshot equals the latest
    * options ignoring functions.
    */
  lemma ShapedMatchesLatest(snapshot: Value, latest: Value)
    requires WellFormed(snapshot) && WellFormed(latest) && NoOpaque(snapshot)
    requires FnBlindEqual(snapshot, latest)
    ensures WellFormed(Wrap(snapshot))
    ensures FnBlindEqual(Wrap(snapshot), latest)
  {
    WrapWellFormed(snapshot, []);
    WrapKeepsShape(snapshot, []);
    FnBlindEqualSymmetric(snapshot, Wrap(snapshot));
    FnBlindEqualTransitive(Wrap(snapshot), snapshot, latest);
  }

  class Stabilizer {
    /** `latestOptions`: always the newest source value. */
    var latest: Value
    /** `snapshot`: the source value the stabilized tree was last built from. */
    var snapshot: Value
    /** `shaped`: the stabilized tree handed to consumers. */
    var shaped: Value
    /** Counts the times `shaped` received a new tree; it stands for the identity of `shaped.value`. */
    var generation: nat

    ghost predicate Valid()
      reads this
    {
      WellFormed(latest) && WellFormed(snapshot) &&
      shaped == Wrap(snapshot) && FnBlindEqual(snapshot, latest)
    }

    /** Lines 116-120: latest and snapshot start as the initial value, shaped as its rewrapping. */
    constructor (initial: Value)
      requires WellFormed(initial)
      ensures Valid()
      ensures latest == initial && snapshot == initial && shaped == Wrap(initial) && generation == 0
      ensures NoOpaque(snapshot) ==> FnBlindEqual(shaped, latest)
    {
      var tree := WithLatestFunctionWrappers(initial);
      FnBlindEqualReflexive(initial);
      latest, snapshot, shaped, generation := initial, initial, tree, 0;
      if NoOpaque(initial) {
        ShapedMatchesLatest(initial, initial);
      }
    }

    /** One run of the effect (lines 122-130) for a new source value. */
    method Update(next: Value)
      requires Valid() && WellFormed(next)
      modifies this
      ensures Valid()
      ensures latest == next
      ensures FnBlindEqual(old(snapshot), next) ==>
        snapshot == old(snapshot) && shaped == old(shaped) && generation == old(generation)
      ensures !FnBlindEqual(old(snapshot), next) ==>
        snapshot == next && shaped == Wrap(next) && generation == old(generation) + 1
      ensures NoOpaque(snapshot) ==> FnBlindEqual(shaped, latest)
    {
      latest := next;
      var same := DeepEqualIgnoringFns(snapshot, next);
      if !same {
        snapshot := next;
        shaped := WithLatestFunctionWrappers(latest);
        generation := generation + 1;
        FnBlindEqualReflexive(next);
      }
      if NoOpaque(snapshot) {
        ShapedMatchesLatest(snapshot, latest);
      }
    }

    /** Calls the function that the stabilized tree holds at path `q`, as a consumer would. */
    method Invoke(q: seq<Key>) returns (r: Option<Call>)
      requires Valid() && |q| > 0
      ensures GetByPath(shaped, q).IsFunction() ==>
        r == Some(Call(GetByPath(latest, q), GetByPath(latest, q[..|q| - 1]))) && r.value.target.IsFunction()
      ensures !GetByPath(shaped, q).IsFunction() ==> r == None
    {
      var w := GetByPath(shaped, q);
      if w.Wrapper? {
        StableDispatch(snapshot, latest, q);
        r := InvokeWrapper(latest, w);
      } else {
        r := None;
        assert !w.IsFunction() by {
          if w.IsFunction() {
            StableDispatch(snapshot, latest, q);
          }
        }
      }
    }
  }

  /** The options of one render: a theme and an inline callback, re-created on every render. */
  function Render(theme: string, callback: nat): Value {
    Rec([("theme", Str(theme)), ("onX", Fn(callback))])
  }

  /** Re-creating the callback with the theme unchanged does not count as a change. */
  lemma CallbackRecreated(theme: string, f: nat, g: nat)
    ensures FnBlindEqual(Render(theme, f), Render(theme, g))
  {
    var fa, fb := Render(theme, f).fields, Render(theme, g).fields;
    assert fb[0].0 == "theme" && fb[1].0 == "onX";
    assert Lookup(fb, "theme") == Str(theme);
    assert Lookup(fb, "onX") == Fn(g);
    forall i | 0 <= i < |fa| ensures HasKey(fb, fa[i].0) && FnBlindEqual(fa[i].1, Lookup(fb, fa[i].0)) {
    }
  }

  /** Two renders with the same keys that differ in the theme are a change, whatever the callbacks. */
  lemma ThemeChanged(theme: string, other: string, f: nat, g: nat)
    requires theme != other
    ensures !FnBlindEqual(Render(theme, f), Render(other, g))
  {
    var fa, fb := Render(theme, f).fields, Render(other, g).fields;
    assert fb[0].0 == "theme";
    assert Lookup(fb, "theme") == Str(other);
    assert !FnBlindEqual(fa[0].1, Lookup(fb, fa[0].0));
  }

  /** What a render holds: a well-formed record with the callback at `onX`, wrapped there once stabilized. */
  lemma RenderFacts(theme: string, f: nat)
    ensures WellFormed(Render(theme, f))
    ensures GetByPath(Render(theme, f), [Name("onX")]) == Fn(f)
    ensures GetByPath(Wrap(Render(theme, f)), [Name("onX")]).IsFunction()
  {
    assert [Name("onX")][..0] == [];
    assert Lookup(Render(theme, f).fields, "onX") == Fn(f);
    WrapperAtEveryFunction(Render(theme, f), [Name("onX")]);
  }

  /** Two renders whose options differ only in a re-created callback: the stabilized tree stays and calls the new callback. */
  method StabilizerScenario() {
    RenderFacts("dark", 1);
    RenderFacts("dark", 2);
    var s := new Stabilizer(Render("dark", 1));
    CallbackRecreated("dark", 1, 2);
    s.Update(Render("dark", 2));
    assert s.generation == 0;
    var call := s.Invoke([Name("onX")]);
    assert call.Some? && call.value.target == Fn(2);
  }

  /** A render that changes the theme rebuilds the stabilized tree, which then calls the new callback. */
  method ThemeChangeScenario() {
    RenderFacts("dark", 1);
    RenderFacts("light", 2);
    var s := new Stabilizer(Render("dark", 1));
    ThemeChanged("dark", "light", 1, 2);
    s.Update(Render("light", 2));
    assert s.generation == 1 && s.shaped == Wrap(Render("light", 2));
  }
}
