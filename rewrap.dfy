/**
  * `withLatestFunctionWrappers` (src/composables/useStableOptions.ts:63-111):
  * a same-shaped copy of a tree in which every function leaf is replaced by a
  * wrapper that remembers only where the function was.  Calling a wrapper
  * looks that place up again in the live tree.
  */
module Rewrap {
  import opened Wrappers
  import opened JsValue
  import DeepEqual

  /** The wrapper made for a function found at path `p`: `wrap(path.slice(0, -1), path[path.length - 1] ?? '')`. */
  function WrapperFor(p: seq<Key>): (w: Value)
    ensures w.Wrapper? && w.IsFunction()
    ensures |p| > 0 ==> w.parent + [w.key] == p
  {
    if |p| == 0 then Wrapper([], Name("")) else Wrapper(p[..|p| - 1], p[|p| - 1])
  }

  /** What `visit` returns for `v` when the shared path holds `p`. */
  function WrapAt(v: Value, p: seq<Key>): (w: Value)
    ensures w.IsFunction() <==> v.IsFunction()
  {
    if v.IsFunction() then WrapperFor(p)
    else match v
      case Arr(xs) => Arr(seq(|xs|, i requires 0 <= i < |xs| => WrapAt(xs[i], p + [Index(i)])))
      case Rec(fs) => Rec(seq(|fs|, i requires 0 <= i < |fs| => (fs[i].0, WrapAt(fs[i].1, p + [Name(fs[i].0)]))))
      case Opaque(_, ps) => Rec(seq(|ps|, i requires 0 <= i < |ps| => (ps[i].0, WrapAt(ps[i].1, p + [Name(ps[i].0)]))))
      case _ => v
  }

  /** The tree `withLatestFunctionWrappers` builds from the live value `root`. */
  function Wrap(root: Value): Value {
    WrapAt(root, [])
  }

  /** `visit`, with the path stack it shares across the recursion. */
  class Rewrapper {
    var path: seq<Key>

    constructor ()
      ensures path == []
    {
      path := [];
    }

    method Visit(v: Value) returns (out: Value)
      requires WellFormed(v)
      modifies this
      ensures path == old(path)
      ensures out == WrapAt(v, old(path))
      decreases v, 2
    {
      if v.IsFunction() {
        if |path| == 0 {
          out := Wrapper([], Name(""));
        } else {
          out := Wrapper(path[..|path| - 1], path[|path| - 1]);
        }
      } else if v.Arr? {
        out := VisitArray(v);
      } else if v.Rec? || v.Opaque? {
        out := VisitObject(v);
      } else {
        out := v;
      }
    }

    /** The array branch of `visit` (lines 87-96): index `i` is pushed at the current depth while element `i` is visited. */
    method VisitArray(v: Value) returns (out: Value)
      requires v.Arr? && WellFormed(v)
      modifies this
      ensures path == old(path)
      ensures out == WrapAt(v, old(path))
      decreases v, 1
    {
      ghost var p0 := path;
      var base := |path|;
      var items := new Value[|v.items|];
      var i := 0;
      while i < |v.items|
        invariant 0 <= i <= |v.items| && base == |p0|
        invariant base <= |path| <= base + 1 && path[..base] == p0
        invariant forall j :: 0 <= j < i ==> items[j] == WrapAt(v.items[j], p0 + [Index(j)])
      {
        path := path[..base] + [Index(i)];
        items[i] := Visit(v.items[i]);
        i := i + 1;
      }
      path := path[..base];
      out := Arr(items[..]);
    }

    /** The object branch of `visit` (lines 97-106): each own key is pushed while its value is visited; any object becomes a plain record. */
    method VisitObject(v: Value) returns (out: Value)
      requires (v.Rec? || v.Opaque?) && WellFormed(v)
      modifies this
      ensures path == old(path)
      ensures out == WrapAt(v, old(path))
      decreases v, 1
    {
      ghost var p0 := path;
      var base := |path|;
      var own := OwnFields(v);
      ghost var target := WrapAt(v, p0).fields;
      WrapAtObject(v, p0);
      var fields: seq<(string, Value)> := [];
      var i := 0;
      while i < |own|
        invariant 0 <= i <= |own| && base == |p0|
        invariant base <= |path| <= base + 1 && path[..base] == p0
        invariant fields == target[..i]
      {
        var entry := VisitEntry(v, i, base);
        fields := fields + [entry];
        assert target[..i + 1] == target[..i] + [target[i]];
        i := i + 1;
      }
      path := path[..base];
      assert fields == target;
      out := Rec(fields);
    }

    /** One pass of the object loop: the key is written at depth `base` and its value visited there. */
    method VisitEntry(v: Value, i: nat, base: nat) returns (entry: (string, Value))
      requires (v.Rec? || v.Opaque?) && WellFormed(v) && i < |OwnFields(v)| && base <= |path|
      modifies this
      ensures path == old(path)[..base] + [Name(OwnFields(v)[i].0)]
      ensures entry == (OwnFields(v)[i].0, WrapAt(OwnFields(v)[i].1, old(path)[..base] + [Name(OwnFields(v)[i].0)]))
      decreases v, 0
    {
      var own := OwnFields(v);
      var k := own[i].0;
      LookupAt(own, i);
      var child := Lookup(own, k);
      assert child == own[i].1 && WellFormed(child);
      path := path[..base] + [Name(k)];
      var w := Visit(child);
      entry := (k, w);
    }
  }

  /** The own enumerable entries of a record or of a non-plain object. */
  function OwnFields(v: Value): seq<(string, Value)>
    requires v.Rec? || v.Opaque?
  {
    if v.Rec? then v.fields else v.props
  }

  /** The record `visit` builds for an object, entry by entry. */
  lemma WrapAtObject(v: Value, p: seq<Key>)
    requires v.Rec? || v.Opaque?
    ensures WrapAt(v, p).Rec? && |WrapAt(v, p).fields| == |OwnFields(v)|
    ensures forall j :: 0 <= j < |OwnFields(v)| ==>
      WrapAt(v, p).fields[j] == (OwnFields(v)[j].0, WrapAt(OwnFields(v)[j].1, p + [Name(OwnFields(v)[j].0)]))
  {
  }

  /** `withLatestFunctionWrappers(ref)` applied to the value `ref.value` currently holds. */
  method WithLatestFunctionWrappers(root: Value) returns (out: Value)
    requires WellFormed(root)
    ensures out == Wrap(root)
  {
    var r := new Rewrapper();
    out := r.Visit(root);
  }

  /** One step of lookup commutes with rewrapping. */
  lemma GetWrapped(x: Value, p: seq<Key>, k: Key)
    requires !x.IsNullish()
    ensures Get(WrapAt(x, p), k) == WrapAt(Get(x, k), p + [k])
  {
    if !x.IsFunction() && k.Name? && (x.Rec? || x.Opaque?) {
      var own := if x.Rec? then x.fields else x.props;
      var wrapped := WrapAt(x, p).fields;
      LookupWrapped(own, wrapped, p, k.name);
    }
  }

  lemma {:induction false} LookupWrapped(own: seq<(string, Value)>, wrapped: seq<(string, Value)>, p: seq<Key>, n: string)
    requires wrapped == seq(|own|, i requires 0 <= i < |own| => (own[i].0, WrapAt(own[i].1, p + [Name(own[i].0)])))
    ensures Lookup(wrapped, n) == WrapAt(Lookup(own, n), p + [Name(n)])
  {
    if |own| > 0 && own[0].0 != n {
      LookupWrapped(own[1..], wrapped[1..], p, n);
    }
  }

  /**
    * Looking a path up in the rewrapped tree finds the rewrapped version of
    * what the path reaches in the original: a wrapper for that very path where
    * the original holds a function, the same scalar where it holds a scalar.
    */
  lemma {:induction false} GetByPathWrapped(v: Value, p: seq<Key>, q: seq<Key>)
    ensures GetByPath(WrapAt(v, p), q) == WrapAt(GetByPath(v, q), p + q)
    decreases |q|
  {
    if |q| > 0 {
      var q', k := q[..|q| - 1], q[|q| - 1];
      GetByPathWrapped(v, p, q');
      WrapStep(GetByPath(v, q'), p + q', k);
      assert p + q' + [k] == p + q;
    } else {
      assert p + q == p;
    }
  }

  /** One step of the path walk commutes with rewrapping, `null`/`undefined` included. */
  lemma WrapStep(x: Value, p: seq<Key>, k: Key)
    ensures var w := WrapAt(x, p);
      (if w.IsNullish() then w else Get(w, k)) == WrapAt(if x.IsNullish() then x else Get(x, k), p + [k])
  {
    if !x.IsNullish() {
      GetWrapped(x, p, k);
    }
  }

  /** Every function of the source tree is replaced by the wrapper for its own path. */
  lemma WrapperAtEveryFunction(v: Value, q: seq<Key>)
    requires GetByPath(v, q).IsFunction()
    ensures GetByPath(Wrap(v), q) == WrapperFor(q)
  {
    GetByPathWrapped(v, [], q);
    assert [] + q == q;
  }

  /** Plain trees keep their shape: the rewrapped tree equals the source when functions are ignored. */
  lemma {:induction false} WrapKeepsShape(v: Value, p: seq<Key>)
    requires WellFormed(v) && NoOpaque(v)
    ensures DeepEqual.FnBlindEqual(v, WrapAt(v, p))
    decreases v
  {
    if !v.IsFunction() {
      match v
      case Arr(xs) =>
        forall i | 0 <= i < |xs| ensures DeepEqual.FnBlindEqual(xs[i], WrapAt(v, p).items[i]) {
          WrapKeepsShape(xs[i], p + [Index(i)]);
        }
      case Rec(fs) =>
        var gs := WrapAt(v, p).fields;
        assert DistinctKeys(gs) by {
          forall a, b | 0 <= a < b < |gs| ensures gs[a].0 != gs[b].0 {
            assert gs[a].0 == fs[a].0 && gs[b].0 == fs[b].0;
          }
        }
        forall i | 0 <= i < |fs|
          ensures HasKey(gs, fs[i].0) && DeepEqual.FnBlindEqual(fs[i].1, Lookup(gs, fs[i].0))
        {
          LookupAt(gs, i);
          WrapKeepsShape(fs[i].1, p + [Name(fs[i].0)]);
        }
      case _ =>
    }
  }

  /** The copy of a tree with distinct keys has distinct keys: `visit` copies own keys one for one. */
  lemma {:induction false} WrapWellFormed(v: Value, p: seq<Key>)
    requires WellFormed(v)
    ensures WellFormed(WrapAt(v, p))
    decreases v
  {
    if !v.IsFunction() {
      match v
      case Arr(xs) =>
        forall i | 0 <= i < |xs| ensures WellFormed(WrapAt(v, p).items[i]) {
          WrapWellFormed(xs[i], p + [Index(i)]);
        }
      case Rec(fs) =>
        var gs := WrapAt(v, p).fields;
        forall i | 0 <= i < |fs| ensures gs[i].0 == fs[i].0 && WellFormed(gs[i].1) {
          WrapWellFormed(fs[i].1, p + [Name(fs[i].0)]);
        }
      case Opaque(_, ps) =>
        var gs := WrapAt(v, p).fields;
        forall i | 0 <= i < |ps| ensures gs[i].0 == ps[i].0 && WellFormed(gs[i].1) {
          WrapWellFormed(ps[i].1, p + [Name(ps[i].0)]);
        }
      case _ =>
    }
  }

  /** No non-plain object anywhere in the tree. */
  predicate NoOpaque(v: Value) {
    match v
    case Opaque(_, _) => false
    case Arr(xs) => forall i :: 0 <= i < |xs| ==> NoOpaque(xs[i])
    case Rec(fs) => forall i :: 0 <= i < |fs| ==> NoOpaque(fs[i].1)
    case _ => true
  }

  /** Rewrapping a rewrapped tree gives the same tree: wrappers sit at the same paths. */
  lemma {:induction false} WrapIdempotent(v: Value, p: seq<Key>)
    ensures WrapAt(WrapAt(v, p), p) == WrapAt(v, p)
    decreases v
  {
    if !v.IsFunction() {
      match v
      case Arr(xs) =>
        var w := WrapAt(v, p);
        forall i | 0 <= i < |xs| ensures WrapAt(w.items[i], p + [Index(i)]) == w.items[i] {
          WrapIdempotent(xs[i], p + [Index(i)]);
        }
      case Rec(fs) =>
        var w := WrapAt(v, p);
        forall i | 0 <= i < |fs| ensures WrapAt(w.fields[i].1, p + [Name(w.fields[i].0)]) == w.fields[i].1 {
          WrapIdempotent(fs[i].1, p + [Name(fs[i].0)]);
        }
      case Opaque(_, ps) =>
        var w := WrapAt(v, p);
        forall i | 0 <= i < |ps| ensures WrapAt(w.fields[i].1, p + [Name(w.fields[i].0)]) == w.fields[i].1 {
          WrapIdempotent(ps[i].1, p + [Name(ps[i].0)]);
        }
      case _ =>
    }
  }

  /** The function a wrapper call reaches, and the receiver it is applied to. */
  datatype Call = Call(target: Value, receiver: Value)

  /**
    * Calling a wrapper (lines 72-78): resolve the parent path in the live
    * tree, stopping at `null`/`undefined`, read the key, and call what is
    * there only when it is a function; otherwise nothing is called and the
    * call returns `undefined` (here `None`).
    */
  function InvokeWrapper(live: Value, w: Value): (r: Option<Call>)
    requires w.Wrapper?
    ensures r.Some? ==> r.value.target.IsFunction() && r.value.receiver == GetByPath(live, w.parent)
  {
    var parent := GetByPath(live, w.parent);
    var target := if parent.IsNullish() then Undefined else Get(parent, w.key);
    if target.IsFunction() then Some(Call(target, parent)) else None
  }

  /** A wrapper for path `q` calls exactly the function the live tree holds at `q`, with its parent as receiver, and nothing when there is none. */
  lemma WrapperDispatch(live: Value, q: seq<Key>)
    requires |q| > 0
    ensures GetByPath(live, q).IsFunction() ==>
      InvokeWrapper(live, WrapperFor(q)) == Some(Call(GetByPath(live, q), GetByPath(live, q[..|q| - 1])))
    ensures !GetByPath(live, q).IsFunction() ==> InvokeWrapper(live, WrapperFor(q)) == None
  {
  }

  /**
    * A wrapper of a wrapper: when the live tree of the outer wrapper is itself
    * a rewrapped tree, the outer call reaches the inner wrapper for the same
    * path, which then dispatches to the current function there.
    */
  lemma WrapperOfWrapper(v: Value, q: seq<Key>)
    requires |q| > 0 && GetByPath(v, q).IsFunction()
    ensures InvokeWrapper(Wrap(v), WrapperFor(q)).Some?
    ensures InvokeWrapper(Wrap(v), WrapperFor(q)).value.target == WrapperFor(q)
  {
    WrapperAtEveryFunction(v, q);
    WrapperDispatch(Wrap(v), q);
  }
}
