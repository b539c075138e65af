/**
  * JavaScript values as the option stabilizer sees them: scalars, function
  * leaves, plain arrays and records, and non-plain objects (class instances,
  * dates).  A record is the list of its own enumerable properties in the
  * order `Object.keys` reports them.
  */
module JsValue {

  /** One step of a property path: a record key or an array index. */
  datatype Key = Name(name: string) | Index(index: nat)

  datatype Value =
    | Undefined
    | Null
    | Bool(b: bool)
    | Num(n: int)
    | Str(s: string)
      /** A function supplied by the caller; `id` stands for its identity. */
    | Fn(id: nat)
      /** A stable wrapper made by the rewrapper: it captured the path of its parent and its own key. */
    | Wrapper(parent: seq<Key>, key: Key)
      /** An object whose prototype is neither `Object.prototype` nor `null`. */
    | Opaque(id: nat, props: seq<(string, Value)>)
    | Arr(items: seq<Value>)
    | Rec(fields: seq<(string, Value)>)
  {
    /** `typeof v === 'function'` */
    predicate IsFunction() { Fn? || Wrapper? }

    /** `v == null`, that is `null` or `undefined` */
    predicate IsNullish() { Undefined? || Null? }
  }

  /**
    * `isPlainObjectOrArray` (src/composables/useStableOptions.ts:5-14): arrays
    * and objects whose prototype is `Object.prototype` or `null`; never
    * `null`, a primitive, a function or a class instance.
    */
  predicate IsPlainObjectOrArray(v: Value)
    ensures IsPlainObjectOrArray(v) ==> !v.IsNullish() && !v.IsFunction() && !v.Opaque?
    ensures v.Arr? || v.Rec? ==> IsPlainObjectOrArray(v)
  {
    v.Arr? || v.Rec?
  }

  predicate HasKey(fields: seq<(string, Value)>, k: string) {
    exists i :: 0 <= i < |fields| && fields[i].0 == k
  }

  /** Property read `obj[k]` on an object's own properties; a missing key reads as `undefined`. */
  function Lookup(fields: seq<(string, Value)>, k: string): (v: Value)
    ensures !HasKey(fields, k) ==> v == Undefined
    ensures HasKey(fields, k) ==> exists i :: 0 <= i < |fields| && fields[i].0 == k && fields[i].1 == v
  {
    if |fields| == 0 then Undefined
    else if fields[0].0 == k then fields[0].1
    else
      var v := Lookup(fields[1..], k);
      assert HasKey(fields, k) ==> HasKey(fields[1..], k) by {
        if HasKey(fields, k) {
          var i :| 0 <= i < |fields| && fields[i].0 == k;
          assert fields[1..][i - 1].0 == k;
        }
      }
      v
  }

  /** JavaScript objects never hold the same own key twice. */
  predicate DistinctKeys(fields: seq<(string, Value)>) {
    forall i, j :: 0 <= i < j < |fields| ==> fields[i].0 != fields[j].0
  }

  /** Every record and object in the tree has distinct own keys. */
  predicate WellFormed(v: Value) {
    match v
    case Arr(items) => forall i :: 0 <= i < |items| ==> WellFormed(items[i])
    case Rec(fields) =>
      DistinctKeys(fields) && forall i :: 0 <= i < |fields| ==> WellFormed(fields[i].1)
    case Opaque(_, props) =>
      DistinctKeys(props) && forall i :: 0 <= i < |props| ==> WellFormed(props[i].1)
    case _ => true
  }

  lemma LookupAt(fields: seq<(string, Value)>, i: nat)
    requires DistinctKeys(fields) && i < |fields|
    ensures HasKey(fields, fields[i].0)
    ensures Lookup(fields, fields[i].0) == fields[i].1
  {
    assert fields[i].0 == fields[i].0;
  }

  /** Property read `acc[k]` on a value that is not `null`/`undefined`. */
  function Get(v: Value, k: Key): (r: Value)
    ensures v.Arr? && k.Index? && k.index < |v.items| ==> r == v.items[k.index]
    ensures v.Rec? && k.Name? ==> r == Lookup(v.fields, k.name)
  {
    match (v, k)
    case (Arr(items), Index(i)) => if i < |items| then items[i] else Undefined
    case (Rec(fields), Name(n)) => Lookup(fields, n)
    case (Opaque(_, props), Name(n)) => Lookup(props, n)
    case _ => Undefined
  }

  /** `getByPath` (src/composables/useStableOptions.ts:68-69): a left fold that stops at `null`/`undefined`. */
  function GetByPath(root: Value, p: seq<Key>): (r: Value)
    ensures root.IsNullish() ==> r == root
    ensures |p| > 0 && (root.Bool? || root.Num? || root.Str?) ==> r == Undefined
    decreases |p|
  {
    if |p| == 0 then root
    else
      var acc := GetByPath(root, p[..|p| - 1]);
      if acc.IsNullish() then acc else Get(acc, p[|p| - 1])
  }

  /** Once a prefix of the path reaches `null` or `undefined`, the walk ends there whatever keys follow. */
  lemma {:induction false} GetByPathStopsAtNullish(root: Value, p: seq<Key>, i: nat)
    requires i <= |p| && GetByPath(root, p[..i]).IsNullish()
    ensures GetByPath(root, p) == GetByPath(root, p[..i])
    decreases |p|
  {
    if i < |p| {
      var p' := p[..|p| - 1];
      assert p'[..i] == p[..i];
      GetByPathStopsAtNullish(root, p', i);
    } else {
      assert p[..i] == p;
    }
  }

  /** The number of nodes of a tree, a measure that every child is below. */
  function Size(v: Value): nat {
    match v
    case Arr(items) => 1 + Sum(seq(|items|, i requires 0 <= i < |items| => Size(items[i])))
    case Rec(fields) => 1 + Sum(seq(|fields|, i requires 0 <= i < |fields| => Size(fields[i].1)))
    case Opaque(_, props) => 1 + Sum(seq(|props|, i requires 0 <= i < |props| => Size(props[i].1)))
    case _ => 1
  }

  function Sum(s: seq<nat>): nat {
    if |s| == 0 then 0 else s[0] + Sum(s[1..])
  }

  lemma {:induction false} SumBoundsEach(s: seq<nat>, i: nat)
    requires i < |s|
    ensures s[i] <= Sum(s)
  {
    if i > 0 { SumBoundsEach(s[1..], i - 1); }
  }

  lemma ItemSmaller(items: seq<Value>, i: nat)
    requires i < |items|
    ensures Size(items[i]) < Size(Arr(items))
  {
    SumBoundsEach(seq(|items|, j requires 0 <= j < |items| => Size(items[j])), i);
  }

  lemma FieldSmaller(fields: seq<(string, Value)>, i: nat)
    requires i < |fields|
    ensures Size(fields[i].1) < Size(Rec(fields))
  {
    SumBoundsEach(seq(|fields|, j requires 0 <= j < |fields| => Size(fields[j].1)), i);
  }

  // ------------------------------------------------- number to string

  function DigitChar(d: nat): (c: char)
    requires d < 10
    ensures '0' <= c <= '9' && (c - '0') as int == d
  {
    ('0' as int + d) as char
  }

  predicate AllDigits(s: string) {
    forall i :: 0 <= i < |s| ==> '0' <= s[i] <= '9'
  }

  /** Reads a string of decimal digits back as a number. */
  function DigitsValue(s: string): nat
    requires AllDigits(s)
  {
    if |s| == 0 then 0 else 10 * DigitsValue(s[..|s| - 1]) + (s[|s| - 1] - '0') as nat
  }

  /** The decimal digits of `n`. */
  function NatDecimal(n: nat): (s: string)
    ensures |s| > 0 && '0' <= s[0] <= '9'
  {
    if n < 10 then [DigitChar(n)] else NatDecimal(n / 10) + [DigitChar(n % 10)]
  }

  /**
    * How JavaScript writes an integral number below 10^21 in magnitude: a
    * minus sign exactly for a negative number, then its digits.
    */
  function Decimal(n: int): (s: string)
    ensures |s| > 0
    ensures s[0] == '-' <==> n < 0
  {
    if n < 0 then "-" + NatDecimal(-n) else NatDecimal(n)
  }

  /** The digits read back give the number, and there is no leading zero. */
  lemma {:induction false} NatDecimalDigits(n: nat)
    ensures AllDigits(NatDecimal(n)) && DigitsValue(NatDecimal(n)) == n
    ensures |NatDecimal(n)| > 1 ==> NatDecimal(n)[0] != '0'
  {
    if n >= 10 {
      NatDecimalDigits(n / 10);
      var s := NatDecimal(n);
      assert s[..|s| - 1] == NatDecimal(n / 10);
      assert DigitsValue(s) == 10 * (n / 10) + n % 10;
    }
  }

  /** Reading `Decimal(n)` back gives `n`: after an optional minus sign come the digits of `|n|`, without leading zeros. */
  lemma DecimalRoundTrip(n: int)
    ensures var s := Decimal(n);
      var digits := if n < 0 then s[1..] else s;
      && AllDigits(digits) && DigitsValue(digits) == (if n < 0 then -n else n)
      && (|digits| > 1 ==> digits[0] != '0')
  {
    if n < 0 {
      NatDecimalDigits(-n);
      assert Decimal(n)[1..] == NatDecimal(-n);
    } else {
      NatDecimalDigits(n);
    }
  }
}
