/** Request bodies and stored documents: JSON values as the Flask handlers see
    them once parsed, with Python's truthiness and dict-assignment rules. */
module Values {

  datatype Option<+T> = None | Some(value: T)

  /** A JSON value, plus `Date` for the datetimes the handlers store. Numbers
      stand for Python ints and floats alike; only whether they are zero
      matters to the handlers. */
  datatype Value =
    | Null
    | Bool(b: bool)
    | Number(n: int)
    | Str(s: string)
    | Array(elems: seq<Value>)
    | Object(fields: seq<(string, Value)>)
    | Date(t: int)

  /** A Python dict in insertion order: a request body or a stored document. */
  type Dict = seq<(string, Value)>

  /** A value Python's `not` treats as false: None, False, 0, "", [] and {}. */
  predicate Truthy(v: Value)
    ensures !Truthy(v) <==> v in {Null, Bool(false), Number(0), Str([]), Array([]), Object([])}
  {
    match v
    case Null => false
    case Bool(b) => b
    case Number(n) => n != 0
    case Str(s) => s != []
    case Array(es) => es != []
    case Object(fs) => fs != []
    case Date(_) => true
  }

  /** `k in d` */
  predicate Has(d: Dict, k: string)
  {
    exists i :: 0 <= i < |d| && d[i].0 == k
  }

  /** `d.get(k, default)` */
  function GetOr(d: Dict, k: string, default: Value): Value
  {
    match Get(d, k)
    case Some(v) => v
    case None => default
  }

  /** A Python dict never holds a key twice. */
  predicate DistinctKeys(d: Dict)
  {
    forall i, j :: 0 <= i < j < |d| ==> d[i].0 != d[j].0
  }

  /** `k in d` on a non-empty dict: its first key, or a key of the rest. */
  lemma HasCons(d: Dict, k: string)
    requires d != []
    ensures Has(d, k) <==> d[0].0 == k || Has(d[1..], k)
  {
    if Has(d, k) && d[0].0 != k {
      var i :| 0 <= i < |d| && d[i].0 == k;
      assert d[1..][i - 1].0 == k;
    }
    if Has(d[1..], k) {
      var i :| 0 <= i < |d[1..]| && d[1..][i].0 == k;
      assert d[i + 1].0 == k;
    }
  }

  /** `d.get(k)`: the value of the first entry with key `k`. */
  function Get(d: Dict, k: string): (r: Option<Value>)
    ensures r.Some? <==> Has(d, k)
    ensures r.Some? ==> (k, r.value) in d
  {
    if d == [] then None
    else
      HasCons(d, k);
      if d[0].0 == k then Some(d[0].1) else Get(d[1..], k)
  }

  /** Distinct keys stay distinct in the rest of the dict, which lacks the first key. */
  lemma DistinctCons(d: Dict)
    requires d != [] && DistinctKeys(d)
    ensures DistinctKeys(d[1..]) && !Has(d[1..], d[0].0)
  {
    assert forall i :: 0 <= i < |d[1..]| ==> d[1..][i] == d[i + 1];
  }

  /** `d[k] = v`: an existing key keeps its place, a new key goes last. */
  function Assign(d: Dict, k: string, v: Value): (r: Dict)
    ensures |r| == if Has(d, k) then |d| else |d| + 1
    ensures forall i :: 0 <= i < |d| ==> r[i].0 == d[i].0
    ensures !Has(d, k) ==> r == d + [(k, v)]
  {
    if d == [] then [(k, v)]
    else
      HasCons(d, k);
      if d[0].0 == k then [(k, v)] + d[1..]
      else [d[0]] + Assign(d[1..], k, v)
  }

  /** After `d[k] = v` the keys are the old ones and `k`. */
  lemma AssignHas(d: Dict, k: string, v: Value)
    ensures forall k' :: Has(Assign(d, k, v), k') <==> k' == k || Has(d, k')
  {
    var r := Assign(d, k, v);
    forall k' ensures Has(r, k') <==> k' == k || Has(d, k') {
      if Has(d, k') {
        var i :| 0 <= i < |d| && d[i].0 == k';
        assert r[i].0 == k';
      }
      if Has(d, k) {
        var i :| 0 <= i < |d| && d[i].0 == k;
        assert r[i].0 == k;
      } else {
        assert r[|d|].0 == k;
      }
      if Has(r, k') {
        var i :| 0 <= i < |r| && r[i].0 == k';
        if i < |d| { assert d[i].0 == k'; }
      }
    }
  }

  /** After `d[k] = v`, `k` maps to `v` and every other key keeps its value. */
  lemma {:induction false} AssignGet(d: Dict, k: string, v: Value)
    ensures Get(Assign(d, k, v), k) == Some(v)
    ensures forall k' :: k' != k ==> Get(Assign(d, k, v), k') == Get(d, k')
  {
    var r := Assign(d, k, v);
    if d != [] {
      if d[0].0 == k {
        assert r[1..] == d[1..];
      } else {
        AssignGet(d[1..], k, v);
        assert r[0] == d[0] && r[1..] == Assign(d[1..], k, v);
      }
    }
  }

  /** `d[k] = v` never repeats a key. */
  lemma AssignDistinct(d: Dict, k: string, v: Value)
    requires DistinctKeys(d)
    ensures DistinctKeys(Assign(d, k, v))
  {
    var r := Assign(d, k, v);
    forall i, j | 0 <= i < j < |r| ensures r[i].0 != r[j].0 {
      if j == |d| {
        assert r[j].0 == k && !Has(d, k);
        assert d[i].0 != k;
      }
    }
  }

  /** Every key of `upd` assigned into `d`, in the order of `upd`: Python's
      `dict.update`, and the model of Mongo's `$set` of a document. */
  function SetFields(d: Dict, upd: Dict): (r: Dict)
    ensures |d| <= |r| && forall i :: 0 <= i < |d| ==> r[i].0 == d[i].0
    ensures forall i :: |d| <= i < |r| ==> Has(upd, r[i].0)
    decreases |upd|
  {
    if upd == [] then d
    else
      var d' := Assign(d, upd[0].0, upd[0].1);
      var r := SetFields(d', upd[1..]);
      assert forall i :: |d| <= i < |r| ==> Has(upd, r[i].0) by {
        forall i | |d| <= i < |r| ensures Has(upd, r[i].0) {
          HasCons(upd, r[i].0);
          if i < |d'| {
            assert r[i].0 == d'[i].0 == upd[0].0;
          }
        }
      }
      r
  }

  /** `$set`: the keys of `upd` take its values, every other key keeps its own,
      and no key is repeated. */
  lemma {:induction false} SetFieldsGet(d: Dict, upd: Dict)
    ensures DistinctKeys(upd) ==> forall k :: Has(upd, k) ==> Get(SetFields(d, upd), k) == Get(upd, k)
    ensures forall k :: !Has(upd, k) ==> Get(SetFields(d, upd), k) == Get(d, k)
    ensures DistinctKeys(d) ==> DistinctKeys(SetFields(d, upd))
    decreases |upd|
  {
    if upd != [] {
      var (k0, v0) := upd[0];
      var d' := Assign(d, k0, v0);
      AssignGet(d, k0, v0);
      if DistinctKeys(d) { AssignDistinct(d, k0, v0); }
      if DistinctKeys(upd) { DistinctCons(upd); }
      SetFieldsGet(d', upd[1..]);
      forall k ensures Has(upd, k) <==> k == k0 || Has(upd[1..], k) {
        HasCons(upd, k);
      }
    }
  }
}
