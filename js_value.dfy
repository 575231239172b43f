/**
 * JavaScript values as the resource code sees them: the parsed JSON
 * documents, the in-memory entities and the records built from them by
 * object spreads.  An object is an ordered list of own properties, because
 * the order of keys is observable in the JSON text written to disk.
 */
module JsValue {

  /** A JavaScript value.  Numbers are modelled as integers. */
  datatype Value =
    | Undefined
    | Null
    | Bool(b: bool)
    | Num(n: int)
    | Str(s: string)
    | Arr(elems: seq<Value>)
    | Obj(props: Props)

  /** The outcome of an operation that can throw: its value, or the failure that stands for the exception. */
  datatype Result<T> = Success(value: T) | Failure(error: string)

  /**
   * The own properties of an object, in insertion order.  A parsed or
   * constructed object never repeats a key; the operations below keep
   * their laws even when a list does (the last occurrence is the value).
   */
  type Props = seq<(string, Value)>

  /** JavaScript truthiness (`if (v)`, `v || w`, `!v`). */
  predicate Truthy(v: Value) {
    match v
    case Undefined => false
    case Null => false
    case Bool(b) => b
    case Num(n) => n != 0
    case Str(s) => s != ""
    case Arr(_) => true
    case Obj(_) => true
  }

  /** `null` or `undefined`: reading any property of it throws. */
  predicate Nullish(v: Value) {
    v == Null || v == Undefined
  }

  /** `a || b` */
  function Or(a: Value, b: Value): Value {
    if Truthy(a) then a else b
  }

  /** The result of the `typeof` operator. */
  function TypeOf(v: Value): string {
    match v
    case Undefined => "undefined"
    case Null => "object"
    case Bool(_) => "boolean"
    case Num(_) => "number"
    case Str(_) => "string"
    case Arr(_) => "object"
    case Obj(_) => "object"
  }

  /** `typeof v === "object" && v !== null` */
  predicate IsObjectLike(v: Value) {
    v.Arr? || v.Obj?
  }

  /** The keys of a property list, in order. */
  function Keys(ps: Props): seq<string> {
    seq(|ps|, i requires 0 <= i < |ps| => ps[i].0)
  }

  /** Whether `k` is an own key of the property list. */
  predicate HasKey(ps: Props, k: string) {
    k in Keys(ps)
  }

  /** The value of own key `k`, `Undefined` when there is none. */
  function Get(ps: Props, k: string): Value {
    if ps == [] then Undefined
    else if ps[|ps| - 1].0 == k then ps[|ps| - 1].1
    else Get(ps[..|ps| - 1], k)
  }

  /** Property assignment `o[k] = v`: an existing key keeps its position. */
  function Set(ps: Props, k: string, v: Value): Props {
    if HasKey(ps, k) then seq(|ps|, i requires 0 <= i < |ps| => if ps[i].0 == k then (k, v) else ps[i])
    else ps + [(k, v)]
  }

  /** `delete o[k]` */
  function Remove(ps: Props, k: string): Props {
    if ps == [] then []
    else if ps[0].0 == k then Remove(ps[1..], k)
    else [ps[0]] + Remove(ps[1..], k)
  }

  /** Member access `v.k`; only objects carry the named properties used here. */
  function Prop(v: Value, k: string): Value {
    if v.Obj? then Get(v.props, k) else Undefined
  }

  /** The `in` operator on an object-like value, `k in v`, for non-index keys. */
  predicate Has(v: Value, k: string) {
    v.Obj? && HasKey(v.props, k)
  }

  /** Decimal digits of a natural number, as `String(n)` writes them. */
  function NatToString(n: nat): string
    decreases n
  {
    var d := ['0', '1', '2', '3', '4', '5', '6', '7', '8', '9'][n % 10];
    if n < 10 then [d] else NatToString(n / 10) + [d]
  }

  /** `String(v)`, the text a template literal `${v}` inserts. */
  function ToText(v: Value): string
    decreases v, 1, 0
  {
    match v
    case Undefined => "undefined"
    case Null => "null"
    case Bool(b) => if b then "true" else "false"
    case Num(n) => if n < 0 then "-" + NatToString(-n) else NatToString(n)
    case Str(s) => s
    case Arr(xs) => JoinedText(v, |xs|)
    case Obj(_) => "[object Object]"
  }

  /** `join(",")` of the first `n` elements of an array; `undefined` and `null` elements add nothing. */
  function JoinedText(a: Value, n: nat): string
    requires a.Arr? && n <= |a.elems|
    decreases a, 0, n
  {
    if n == 0 then ""
    else
      var x := a.elems[n - 1];
      var t := if x.Undefined? || x.Null? then "" else ToText(x);
      if n == 1 then t else JoinedText(a, n - 1) + "," + t
  }

  /** Copies the pairs of `src` onto `ps` in order, each as an assignment. */
  function SetAll(ps: Props, src: Props): Props
    decreases |src|
  {
    if src == [] then ps else SetAll(Set(ps, src[0].0, src[0].1), src[1..])
  }

  /** The own enumerable properties that a spread `...v` copies. */
  function SpreadSource(v: Value): Props {
    match v
    case Obj(ps) => ps
    case Arr(xs) => seq(|xs|, i requires 0 <= i < |xs| => (NatToString(i), xs[i]))
    case Str(s) => seq(|s|, i requires 0 <= i < |s| => (NatToString(i), Str([s[i]])))
    case _ => []
  }

  /** The object literal `{...ps, ...v}`. */
  function Spread(ps: Props, v: Value): Props {
    SetAll(ps, SpreadSource(v))
  }

  // ---------------------------------------------------------------------
  // Laws of property assignment and spreads
  // ---------------------------------------------------------------------

  lemma {:induction false} GetAppend(ps: Props, k: string, v: Value, k': string)
    ensures Get(ps + [(k, v)], k') == if k' == k then v else Get(ps, k')
  {
    assert (ps + [(k, v)])[..|ps|] == ps;
  }

  lemma {:induction false} GetReplace(ps: Props, k: string, v: Value, k': string)
    requires HasKey(ps, k)
    ensures Get(Set(ps, k, v), k') == if k' == k then v else Get(ps, k')
    decreases |ps|
  {
    var r := Set(ps, k, v);
    var n := |ps| - 1;
    var init := ps[..n];
    if HasKey(init, k) {
      assert Set(init, k, v) == r[..n];
      GetReplace(init, k, v, k');
    } else {
      assert Keys(ps) == Keys(init) + [ps[n].0];
      assert ps[n].0 == k;
      assert forall i | 0 <= i < n :: init[i].0 != k by {
        forall i | 0 <= i < n ensures init[i].0 != k {
          assert Keys(init)[i] == init[i].0;
        }
      }
      assert r[..n] == init;
      if k' != k && init != [] {
        assert Get(r, k') == Get(init, k');
      }
    }
  }

  lemma GetSet(ps: Props, k: string, v: Value, k': string)
    ensures Get(Set(ps, k, v), k') == if k' == k then v else Get(ps, k')
  {
    if HasKey(ps, k) { GetReplace(ps, k, v, k'); } else { GetAppend(ps, k, v, k'); }
  }

  lemma KeysSet(ps: Props, k: string, v: Value)
    ensures Keys(Set(ps, k, v)) == if HasKey(ps, k) then Keys(ps) else Keys(ps) + [k]
  {
  }

  lemma {:induction false} GetMissing(ps: Props, k: string)
    requires !HasKey(ps, k)
    ensures Get(ps, k) == Undefined
    decreases |ps|
  {
    if ps != [] {
      var n := |ps| - 1;
      assert Keys(ps)[n] == ps[n].0;
      assert Keys(ps[..n]) <= Keys(ps);
      GetMissing(ps[..n], k);
    }
  }

  /** A later value for a key wins; keys the source lacks keep their value. */
  lemma {:induction false} GetSetAll(ps: Props, src: Props, k: string)
    ensures Get(SetAll(ps, src), k) == if HasKey(src, k) then Get(src, k) else Get(ps, k)
    decreases |src|
  {
    if src != [] {
      var ps' := Set(ps, src[0].0, src[0].1);
      GetSetAll(ps', src[1..], k);
      GetSet(ps, src[0].0, src[0].1, k);
      assert Keys(src) == [src[0].0] + Keys(src[1..]);
      GetFront(src, k);
    }
  }

  /** `Get` looks at the last occurrence, so a first pair only matters when no later one has the key. */
  lemma {:induction false} GetFront(src: Props, k: string)
    requires src != []
    ensures Get(src, k) == if HasKey(src[1..], k) then Get(src[1..], k)
                           else if src[0].0 == k then src[0].1 else Undefined
    decreases |src|
  {
    var n := |src| - 1;
    if n == 0 {
      assert src[1..] == [];
    } else {
      assert src[1..][..n - 1] == src[..n][1..];
      assert Keys(src[1..]) == Keys(src[1..][..n - 1]) + [src[n].0];
      if src[n].0 != k {
        GetFront(src[..n], k);
      }
    }
  }

  lemma {:induction false} KeysSetAll(ps: Props, src: Props, k: string)
    ensures HasKey(SetAll(ps, src), k) <==> HasKey(ps, k) || HasKey(src, k)
    decreases |src|
  {
    if src != [] {
      KeysSetAll(Set(ps, src[0].0, src[0].1), src[1..], k);
      KeysSet(ps, src[0].0, src[0].1);
      assert Keys(src) == [src[0].0] + Keys(src[1..]);
    }
  }

  /** What a spread yields for one key: the spread value's own property wins. */
  lemma SpreadGet(ps: Props, v: Value, k: string)
    requires v.Obj?
    ensures Get(Spread(ps, v), k) == if HasKey(v.props, k) then Get(v.props, k) else Get(ps, k)
    ensures HasKey(Spread(ps, v), k) <==> HasKey(ps, k) || HasKey(v.props, k)
  {
    GetSetAll(ps, v.props, k);
    KeysSetAll(ps, v.props, k);
  }

  lemma {:induction false} GetRemove(ps: Props, k: string, k': string)
    ensures Get(Remove(ps, k), k') == if k' == k then Undefined else Get(ps, k')
    ensures HasKey(Remove(ps, k), k') <==> k' != k && HasKey(ps, k')
    decreases |ps|
  {
    if ps != [] {
      GetRemove(ps[1..], k, k');
      assert Keys(ps) == [ps[0].0] + Keys(ps[1..]);
      GetFront(ps, k');
      var r := Remove(ps, k);
      if ps[0].0 != k {
        assert r[1..] == Remove(ps[1..], k);
        assert Keys(r) == [ps[0].0] + Keys(r[1..]);
        GetFront(r, k');
      }
      if !HasKey(ps[1..], k') { GetMissing(ps[1..], k'); }
    }
  }

  // ---------------------------------------------------------------------
  // Objects never repeat a key
  // ---------------------------------------------------------------------

  /** No key occurs twice, as in every object JavaScript builds. */
  predicate UniqueKeys(ps: Props) {
    forall i, j | 0 <= i < j < |ps| :: ps[i].0 != ps[j].0
  }

  lemma UniqueKeysSet(ps: Props, k: string, v: Value)
    requires UniqueKeys(ps)
    ensures UniqueKeys(Set(ps, k, v))
  {
    var r := Set(ps, k, v);
    if !HasKey(ps, k) {
      forall i | 0 <= i < |ps| ensures ps[i].0 != k {
        assert Keys(ps)[i] == ps[i].0;
      }
    }
  }

  lemma {:induction false} UniqueKeysSetAll(ps: Props, src: Props)
    requires UniqueKeys(ps)
    ensures UniqueKeys(SetAll(ps, src))
    decreases |src|
  {
    if src != [] {
      UniqueKeysSet(ps, src[0].0, src[0].1);
      UniqueKeysSetAll(Set(ps, src[0].0, src[0].1), src[1..]);
    }
  }

  lemma {:induction false} UniqueKeysRemove(ps: Props, k: string)
    requires UniqueKeys(ps)
    ensures UniqueKeys(Remove(ps, k))
    decreases |ps|
  {
    if ps != [] {
      UniqueKeysRemove(ps[1..], k);
      if ps[0].0 != k {
        var r := Remove(ps[1..], k);
        GetRemove(ps[1..], k, ps[0].0);
        assert !HasKey(ps[1..], ps[0].0) by {
          forall i | 0 <= i < |ps| - 1 ensures Keys(ps[1..])[i] != ps[0].0 {
            assert ps[1..][i] == ps[i + 1];
          }
        }
        forall j | 0 <= j < |r| ensures r[j].0 != ps[0].0 {
          assert Keys(r)[j] == r[j].0;
        }
      }
    }
  }

  /** With distinct keys, a key is present exactly when some pair carries it, and `Get` finds that pair. */
  lemma {:induction false} GetUnique(ps: Props, i: nat)
    requires UniqueKeys(ps) && i < |ps|
    ensures HasKey(ps, ps[i].0) && Get(ps, ps[i].0) == ps[i].1
    decreases |ps|
  {
    assert Keys(ps)[i] == ps[i].0;
    var n := |ps| - 1;
    if i < n {
      assert ps[..n][i] == ps[i];
      GetUnique(ps[..n], i);
    }
  }

  /** A pair whose key no later pair repeats is what `Get` finds. */
  lemma {:induction false} GetLast(ps: Props, i: nat)
    requires i < |ps| && forall j | i < j < |ps| :: ps[j].0 != ps[i].0
    ensures Get(ps, ps[i].0) == ps[i].1
    decreases |ps|
  {
    var n := |ps| - 1;
    if i < n {
      assert ps[..n][i] == ps[i];
      GetLast(ps[..n], i);
    }
  }

  /** Assignment never moves an existing key, and appends only a new one. */
  lemma SetKeepsPositions(ps: Props, k: string, v: Value)
    ensures |Set(ps, k, v)| >= |ps|
    ensures forall i | 0 <= i < |ps| :: Set(ps, k, v)[i].0 == ps[i].0
  {
  }

  lemma {:induction false} SetAllKeepsPositions(ps: Props, src: Props)
    ensures |SetAll(ps, src)| >= |ps|
    ensures forall i | 0 <= i < |ps| :: SetAll(ps, src)[i].0 == ps[i].0
    decreases |src|
  {
    if src != [] {
      SetKeepsPositions(ps, src[0].0, src[0].1);
      SetAllKeepsPositions(Set(ps, src[0].0, src[0].1), src[1..]);
    }
  }

  // ---------------------------------------------------------------------
  // Index keys
  // ---------------------------------------------------------------------

  /** A key that starts with a decimal digit, as every array or string index does. */
  predicate IndexLike(k: string) {
    k != [] && '0' <= k[0] <= '9'
  }

  lemma {:induction false} NatToStringIndexLike(n: nat)
    ensures IndexLike(NatToString(n))
    decreases n
  {
    if n >= 10 {
      NatToStringIndexLike(n / 10);
    }
  }

  /** A spread copies a named (non-index) key exactly when the value is an object that owns it. */
  lemma SpreadSourceNamed(v: Value, k: string)
    requires !IndexLike(k)
    ensures HasKey(SpreadSource(v), k) <==> Has(v, k)
    ensures Get(SpreadSource(v), k) == Prop(v, k)
  {
    var src := SpreadSource(v);
    if !v.Obj? {
      forall i | 0 <= i < |src| ensures Keys(src)[i] != k {
        NatToStringIndexLike(i);
      }
      GetMissing(src, k);
    }
  }
}
