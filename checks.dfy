/** The validation steps every handler chains together: each either lets the
    request through or aborts it with an HTTP code and a message. */
module Checks {
  import opened Values

  /** `api.abort(code, message)`, or no abort. */
  datatype Status = Pass | Abort(code: int, message: string)

  /** What a handler answers: a value, or the error of the abort that ended it. */
  datatype Reply<+T> = Ok(value: T) | Error(code: int, message: string)

  /** Flask's answer to an exception the handler does not catch. */
  const ServerError := "Internal Server Error"

  /** `key in d and d[key]`: present and truthy, which is `d.get(key)` being truthy. */
  predicate Filled(d: Dict, key: string)
    ensures Filled(d, key) <==> Truthy(GetOr(d, key, Null))
  {
    Has(d, key) && Truthy(Get(d, key).value)
  }

  /** The first key of `d`, in the dict's own order, that is not in `allowed`. */
  function FirstForeignKey(d: Dict, allowed: set<string>): (r: Option<string>)
    ensures r.None? <==> forall i :: 0 <= i < |d| ==> d[i].0 in allowed
    ensures r.Some? ==> exists i :: 0 <= i < |d| && d[i].0 == r.value && r.value !in allowed &&
                                    forall j :: 0 <= j < i ==> d[j].0 in allowed
  {
    if d == [] then None
    else if d[0].0 !in allowed then Some(d[0].0)
    else
      var r := FirstForeignKey(d[1..], allowed);
      assert forall i :: 0 <= i < |d[1..]| ==> d[1..][i] == d[i + 1];
      if r.Some? then
        var i :| 0 <= i < |d[1..]| && d[1..][i].0 == r.value && r.value !in allowed &&
                 forall j :: 0 <= j < i ==> d[1..][j].0 in allowed;
        assert d[i + 1].0 == r.value;
        assert forall j :: 0 <= j < i + 1 ==> d[j].0 in allowed by {
          forall j | 0 < j < i + 1 ensures d[j].0 in allowed {
            assert d[1..][j - 1].0 in allowed;
          }
        }
        r
      else
        assert forall i :: 0 <= i < |d| ==> d[i].0 in allowed by {
          forall i | 0 < i < |d| ensures d[i].0 in allowed {
            assert d[1..][i - 1].0 in allowed;
          }
        }
        r
  }

  /** The foreign-key check sees only the keys, in order, never the values. */
  lemma {:induction false} ForeignKeyIgnoresValues(d: Dict, d': Dict, allowed: set<string>)
    requires |d| == |d'| && forall i :: 0 <= i < |d| ==> d[i].0 == d'[i].0
    ensures FirstForeignKey(d, allowed) == FirstForeignKey(d', allowed)
  {
    if d != [] {
      ForeignKeyIgnoresValues(d[1..], d'[1..], allowed);
    }
  }

  /** `for field in data: if field not in allowed: abort(400, ...)` */
  function CheckAllowedFields(d: Dict, allowed: set<string>): (r: Status)
    ensures r.Pass? <==> forall i :: 0 <= i < |d| ==> d[i].0 in allowed
    ensures r.Abort? ==> r.code == 400 &&
                         exists k :: Has(d, k) && k !in allowed && r.message == "Invalid field: " + k
  {
    match FirstForeignKey(d, allowed)
    case None => Pass
    case Some(k) => Abort(400, "Invalid field: " + k)
  }

  /** `name in fs and ok(fs[name])` */
  predicate FieldOk(fs: Dict, name: string, ok: Value -> bool)
  {
    Get(fs, name).Some? && ok(Get(fs, name).value)
  }

  /** `for name in names: if name not in fs or not ok(fs[name]): abort`: the
      first of `names` whose entry is missing or has the wrong type. */
  function FirstBadField(fs: Dict, names: seq<string>, ok: Value -> bool): (r: Option<string>)
    ensures r.None? <==> forall i :: 0 <= i < |names| ==> FieldOk(fs, names[i], ok)
    ensures r.Some? ==> exists i :: 0 <= i < |names| && names[i] == r.value && !FieldOk(fs, r.value, ok) &&
                                    forall j :: 0 <= j < i ==> FieldOk(fs, names[j], ok)
  {
    if names == [] then None
    else if !FieldOk(fs, names[0], ok) then Some(names[0])
    else
      var r := FirstBadField(fs, names[1..], ok);
      assert forall i :: 0 <= i < |names[1..]| ==> names[1..][i] == names[i + 1];
      if r.Some? then
        var i :| 0 <= i < |names[1..]| && names[1..][i] == r.value && !FieldOk(fs, r.value, ok) &&
                 forall j :: 0 <= j < i ==> FieldOk(fs, names[1..][j], ok);
        assert names[i + 1] == r.value;
        assert forall j :: 0 <= j < i + 1 ==> FieldOk(fs, names[j], ok) by {
          forall j | 0 < j < i + 1 ensures FieldOk(fs, names[j], ok) {
            assert FieldOk(fs, names[1..][j - 1], ok);
          }
        }
        r
      else
        assert forall i :: 0 <= i < |names| ==> FieldOk(fs, names[i], ok) by {
          forall i | 0 < i < |names| ensures FieldOk(fs, names[i], ok) {
            assert FieldOk(fs, names[1..][i - 1], ok);
          }
        }
        r
  }

  /** The five fields every delivery address carries. */
  const AddressFields: seq<string> := ["street", "city", "state", "postalCode", "country"]

  predicate IsStr(v: Value) { v.Str? }

  /** A delivery address: an object whose five fields are all strings. */
  predicate AddressValid(v: Value)
  {
    v.Object? && forall f :: f in AddressFields ==> FieldOk(v.fields, f, IsStr)
  }

  /** The delivery-address check, written out identically in every handler
      that accepts an address. */
  function CheckAddress(v: Value): (r: Status)
    ensures r.Pass? <==> AddressValid(v)
    ensures r.Abort? ==> r.code == 400
    ensures r.Abort? ==> r.message == "deliveryAddress must be an object" ||
                         exists f :: f in AddressFields && r.message == "deliveryAddress must contain a valid " + f
  {
    if !v.Object? then Abort(400, "deliveryAddress must be an object")
    else
      match FirstBadField(v.fields, AddressFields, IsStr)
      case None => Pass
      case Some(f) => Abort(400, "deliveryAddress must contain a valid " + f)
  }

  /** `isinstance(email, str) and '@' in email` */
  predicate ValidEmail(v: Value)
  {
    v.Str? && '@' in v.s
  }

  /** `isinstance(emails, list) and all(... for email in emails)`; an empty list qualifies. */
  predicate EmailList(v: Value)
  {
    v.Array? && forall e :: e in v.elems ==> ValidEmail(e)
  }
}
