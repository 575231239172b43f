/**
 * `JSON.stringify` as seen through the resource files: the text is kept as
 * the value it denotes (RFC 8259 JSON), so what matters is which properties
 * survive and in which order.  A property whose value is `undefined` is
 * omitted, and an `undefined` array element is written as `null`.
 */
module Json {
  import opened JsValue

  /** The value denoted by `JSON.stringify(v)`; `undefined` stays `undefined` (no text). */
  function ToJson(v: Value): Value
    decreases v, 1, 0
  {
    match v
    case Obj(ps) => Obj(JsonProps(v, |ps|))
    case Arr(xs) => Arr(seq(|xs|, i requires 0 <= i < |xs| => if xs[i] == Undefined then Null else ToJson(xs[i])))
    case _ => v
  }

  /** The written form of the first `n` properties of the object `o`. */
  function JsonProps(o: Value, n: nat): Props
    requires o.Obj? && n <= |o.props|
    decreases o, 0, n
  {
    if n == 0 then []
    else if o.props[n - 1].1 == Undefined then JsonProps(o, n - 1)
    else JsonProps(o, n - 1) + [(o.props[n - 1].0, ToJson(o.props[n - 1].1))]
  }

  /** The written keys are distinct, and each is a key of the input. */
  lemma {:induction false} JsonPropsKeys(o: Value, n: nat)
    requires o.Obj? && n <= |o.props| && UniqueKeys(o.props)
    ensures UniqueKeys(JsonProps(o, n))
    ensures forall i | 0 <= i < |JsonProps(o, n)| :: JsonProps(o, n)[i].0 in Keys(o.props[..n])
    decreases n
  {
    if n > 0 {
      JsonPropsKeys(o, n - 1);
      var p := o.props[n - 1];
      var init := JsonProps(o, n - 1);
      var pre := o.props[..n - 1];
      var ps := o.props[..n];
      assert Keys(ps) == Keys(pre) + [p.0];
      if p.1 != Undefined {
        var r := init + [(p.0, ToJson(p.1))];
        forall i | 0 <= i < |init| ensures init[i].0 != p.0 {
          var j :| 0 <= j < n - 1 && Keys(pre)[j] == init[i].0;
          assert pre[j] == o.props[j];
        }
        forall i | 0 <= i < |r| ensures r[i].0 in Keys(ps) {
          if i < |init| {
            assert r[i] == init[i];
          }
        }
      }
    }
  }

  /** Only defined properties are written. */
  lemma {:induction false} JsonPropsHas(o: Value, n: nat, k: string)
    requires o.Obj? && n <= |o.props| && UniqueKeys(o.props)
    ensures HasKey(JsonProps(o, n), k) <==> Get(o.props[..n], k) != Undefined
    decreases n
  {
    var ps := o.props[..n];
    if n > 0 {
      JsonPropsHas(o, n - 1, k);
      var p := o.props[n - 1];
      var init := JsonProps(o, n - 1);
      var pre := o.props[..n - 1];
      assert ps[..n - 1] == pre;
      if p.0 != k {
        assert Get(ps, k) == Get(pre, k);
      }
      if p.1 != Undefined {
        assert Keys(init + [(p.0, ToJson(p.1))]) == Keys(init) + [p.0];
      } else if p.0 == k {
        // the key holds `undefined`, so it is written nowhere
        JsonPropsKeys(o, n - 1);
        forall i | 0 <= i < |init| ensures Keys(init)[i] != k {
          var j :| 0 <= j < n - 1 && Keys(pre)[j] == init[i].0;
          assert pre[j] == o.props[j];
        }
      }
    }
  }

  /** Each written property holds the text of its value. */
  lemma {:induction false} JsonPropsGet(o: Value, n: nat, k: string)
    requires o.Obj? && n <= |o.props| && UniqueKeys(o.props)
    ensures Get(JsonProps(o, n), k) == ToJson(Get(o.props[..n], k))
    decreases n
  {
    var ps := o.props[..n];
    if n > 0 {
      JsonPropsGet(o, n - 1, k);
      var p := o.props[n - 1];
      var init := JsonProps(o, n - 1);
      var pre := o.props[..n - 1];
      assert ps[..n - 1] == pre;
      if p.1 != Undefined {
        GetAppend(init, p.0, ToJson(p.1), k);
      }
      if p.0 != k {
        assert Get(ps, k) == Get(pre, k);
      } else if p.1 == Undefined {
        forall j | 0 <= j < n - 1 ensures Keys(pre)[j] != k {
          assert pre[j] == o.props[j];
        }
        GetMissing(pre, k);
      }
    }
  }

  /** The object law, for every key. */
  lemma JsonGet(v: Value, k: string)
    requires v.Obj? && UniqueKeys(v.props)
    ensures ToJson(v).Obj?
    ensures HasKey(ToJson(v).props, k) <==> Get(v.props, k) != Undefined
    ensures Get(ToJson(v).props, k) == ToJson(Get(v.props, k))
  {
    assert v.props[..|v.props|] == v.props;
    JsonPropsHas(v, |v.props|, k);
    JsonPropsGet(v, |v.props|, k);
  }

  /** Defined leading properties keep their places at the front of the text. */
  lemma {:induction false} JsonKeepsLeading(o: Value, m: nat, n: nat)
    requires o.Obj? && m <= n <= |o.props|
    requires forall i | 0 <= i < m :: o.props[i].1 != Undefined
    ensures |JsonProps(o, n)| >= m
    ensures forall i | 0 <= i < m :: JsonProps(o, n)[i].0 == o.props[i].0
    ensures n == m ==> |JsonProps(o, n)| == m
    decreases n
  {
    if n > m {
      JsonKeepsLeading(o, m, n - 1);
    } else if m > 0 {
      JsonKeepsLeading(o, m - 1, n - 1);
    }
  }
}
