/** A MongoDB collection as the handlers use it: a sequence of documents in
    natural order, queried with single-field equality and `$in` filters. */
module Collection {
  import opened Values

  /** The filter `{key: q}`: the field equals `q`, or is an array holding `q`;
      a document without the field matches only `None`. */
  predicate Matches(d: Dict, key: string, q: Value)
    ensures Get(d, key) == Some(q) ==> Matches(d, key, q)
    ensures Matches(d, key, q) ==> Has(d, key) || q == Null
  {
    match Get(d, key)
    case None => q == Null
    case Some(v) => v == q || (v.Array? && q in v.elems)
  }

  /** The filter `{key: {'$in': qs}}`. */
  predicate MatchesAny(d: Dict, key: string, qs: seq<Value>)
    ensures MatchesAny(d, key, qs) <==> exists i :: 0 <= i < |qs| && Matches(d, key, qs[i])
    ensures qs == [] ==> !MatchesAny(d, key, qs)
  {
    exists q :: q in qs && Matches(d, key, q)
  }

  /** A document whose first key starts with `$`: inside an `$in` list the
      server reads it as an operator expression and refuses the query
      ("cannot nest $ under $in"). A DBRef, which carries `$ref` and `$id`,
      is the exception: it is compared by equality like any other value. */
  predicate OperatorDoc(v: Value)
  {
    && v.Object? && |v.fields| > 0 && |v.fields[0].0| > 0 && v.fields[0].0[0] == '$'
    && !(Has(v.fields, "$ref") && Has(v.fields, "$id"))
  }

  /** `find_one({key: q})`: the position of the first matching document. */
  function FindOne(docs: seq<Dict>, key: string, q: Value): (r: Option<nat>)
    ensures r.None? <==> forall i :: 0 <= i < |docs| ==> !Matches(docs[i], key, q)
    ensures r.Some? ==> r.value < |docs| && Matches(docs[r.value], key, q) &&
                        forall i :: 0 <= i < r.value ==> !Matches(docs[i], key, q)
  {
    if docs == [] then None
    else if Matches(docs[0], key, q) then Some(0)
    else
      var r := FindOne(docs[1..], key, q);
      assert forall i :: 0 <= i < |docs[1..]| ==> docs[1..][i] == docs[i + 1];
      match r
      case None => None
      case Some(i) => Some(i + 1)
  }

  /** `find({key: q})`: every matching document, in natural order. */
  function Find(docs: seq<Dict>, key: string, q: Value): (r: seq<Dict>)
    ensures forall d :: d in r <==> d in docs && Matches(d, key, q)
    ensures |r| <= |docs|
  {
    if docs == [] then []
    else
      var rest := Find(docs[1..], key, q);
      assert forall d :: d in docs <==> d == docs[0] || d in docs[1..];
      if Matches(docs[0], key, q) then [docs[0]] + rest else rest
  }

  /** `find` returns each matching document as often as the collection holds
      it, and nothing else. */
  lemma {:induction false} FindCount(docs: seq<Dict>, key: string, q: Value)
    ensures forall d :: multiset(Find(docs, key, q))[d] == if Matches(d, key, q) then multiset(docs)[d] else 0
  {
    if docs != [] {
      FindCount(docs[1..], key, q);
      assert docs == [docs[0]] + docs[1..];
      assert multiset(docs) == multiset([docs[0]]) + multiset(docs[1..]);
      var rest := Find(docs[1..], key, q);
      if Matches(docs[0], key, q) {
        assert multiset([docs[0]] + rest) == multiset([docs[0]]) + multiset(rest);
      }
    }
  }

  /** `find` keeps natural order: the matches of a concatenation are the
      matches of its first part followed by those of its second. */
  lemma {:induction false} FindAppend(a: seq<Dict>, b: seq<Dict>, key: string, q: Value)
    ensures Find(a + b, key, q) == Find(a, key, q) + Find(b, key, q)
  {
    if a == [] {
      assert a + b == b;
    } else {
      var ab := a + b;
      assert ab[0] == a[0] && ab[1..] == a[1..] + b;
      FindAppend(a[1..], b, key, q);
      var tail := Find(a[1..], key, q) + Find(b, key, q);
      if Matches(a[0], key, q) {
        calc {
          Find(ab, key, q);
          [a[0]] + tail;
          ([a[0]] + Find(a[1..], key, q)) + Find(b, key, q);
        }
      }
    }
  }

  /** The first matching document is the one `find_one` returns. */
  lemma FindOneIs(docs: seq<Dict>, key: string, q: Value, i: nat)
    requires i < |docs| && Matches(docs[i], key, q)
    requires forall j :: 0 <= j < i ==> !Matches(docs[j], key, q)
    ensures FindOne(docs, key, q) == Some(i)
  {
  }

  /** `update_one(filter, {'$set': upd})` followed by `find_one(filter)` finds
      the updated document again when `upd` leaves the filtered field alone. */
  lemma RefindAfterSet(docs: seq<Dict>, key: string, q: Value, upd: Dict)
    requires FindOne(docs, key, q).Some? && !Has(upd, key)
    ensures var i := FindOne(docs, key, q).value;
            FindOne(docs[i := SetFields(docs[i], upd)], key, q) == Some(i)
  {
    var i := FindOne(docs, key, q).value;
    SetFieldsGet(docs[i], upd);
    var docs' := docs[i := SetFields(docs[i], upd)];
    assert Get(docs'[i], key) == Get(docs[i], key);
    assert Matches(docs'[i], key, q);
    forall j | 0 <= j < i ensures !Matches(docs'[j], key, q) {
      assert docs'[j] == docs[j];
    }
    FindOneIs(docs', key, q, i);
  }

  /** `data['updatedAt'] = now` then `$set: data`: the document takes the
      body's fields and the time, and keeps every other field it had. */
  lemma SetWithTime(doc: Dict, body: Dict, now: int)
    requires DistinctKeys(body)
    ensures Get(SetFields(doc, Assign(body, "updatedAt", Date(now))), "updatedAt") == Some(Date(now))
    ensures forall k :: k != "updatedAt" ==>
              Get(SetFields(doc, Assign(body, "updatedAt", Date(now))), k) ==
              if Has(body, k) then Get(body, k) else Get(doc, k)
  {
    var data := Assign(body, "updatedAt", Date(now));
    AssignGet(body, "updatedAt", Date(now));
    AssignHas(body, "updatedAt", Date(now));
    AssignDistinct(body, "updatedAt", Date(now));
    SetFieldsGet(doc, data);
  }
}
