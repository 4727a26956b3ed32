/**
 The array operations the list cleaners chain together: `Array.isArray`,
 `Array.prototype.map` with a callback that may throw, and `.filter(Boolean)`.
 */
module JsArray {
  import opened Wrappers
  import opened JsValue

  /**
   `xs.map(f)`: the callbacks run left to right, so the first element whose callback
   throws decides the exception, and otherwise there is one result per element, in order.
   */
  function MapOutcome<T>(xs: seq<Json>, f: Json -> Outcome<T>): (r: Outcome<seq<T>>)
    ensures r.Threw? <==> exists i :: 0 <= i < |xs| && f(xs[i]).Threw?
    ensures r.Threw? ==>
      exists i :: 0 <= i < |xs| && f(xs[i]) == Threw(r.error) &&
        forall k :: 0 <= k < i ==> f(xs[k]).Returned?
    ensures r.Returned? ==>
      |r.value| == |xs| && forall i :: 0 <= i < |xs| ==> f(xs[i]) == Returned(r.value[i])
  {
    if xs == [] then Returned([])
    else
      match f(xs[0])
      case Threw(e) => Threw(e)
      case Returned(y) =>
        match MapOutcome(xs[1..], f)
        case Threw(e) =>
          ghost var i :| 0 <= i < |xs[1..]| && f(xs[1..][i]) == Threw(e) &&
            forall k :: 0 <= k < i ==> f(xs[1..][k]).Returned?;
          assert f(xs[i + 1]) == Threw(e);
          Threw(e)
        case Returned(ys) => Returned([y] + ys)
  }

  /** `.filter(Boolean)` over the cleaners' results: `null` is falsy and every cleaned
      record is an object, hence truthy, so exactly the records are kept, in order */
  function Compact<T>(xs: seq<Option<T>>): (r: seq<T>)
    ensures |r| <= |xs|
    ensures forall j :: 0 <= j < |r| ==> Some(r[j]) in xs
    ensures forall i :: 0 <= i < |xs| && xs[i].Some? ==> xs[i].value in r
  {
    if xs == [] then []
    else if xs[0].Some? then [xs[0].value] + Compact(xs[1..])
    else Compact(xs[1..])
  }

  /** `.filter(Boolean)` keeps a record and drops a `null` */
  lemma CompactSingle<T>(x: Option<T>)
    ensures Compact([x]) == if x.Some? then [x.value] else []
  {
  }

  /** Filtering a concatenation filters each part and keeps them in order, so, with the
      one-element cases, `Compact` keeps every record, duplicates included, in input order */
  lemma {:induction false} CompactAppend<T>(xs: seq<Option<T>>, ys: seq<Option<T>>)
    ensures Compact(xs + ys) == Compact(xs) + Compact(ys)
  {
    if xs == [] {
      assert xs + ys == ys;
    } else {
      assert (xs + ys)[0] == xs[0];
      assert (xs + ys)[1..] == xs[1..] + ys;
      CompactAppend(xs[1..], ys);
    }
  }

  /** The truthy elements of `xs`, in order: the reference for what a list cleaner keeps */
  function TruthyOnly(xs: seq<Json>): (r: seq<Json>)
    ensures |r| <= |xs|
    ensures forall y :: y in r ==> y in xs && Truthy(y)
    ensures forall i :: 0 <= i < |xs| && Truthy(xs[i]) ==> xs[i] in r
  {
    if xs == [] then []
    else if Truthy(xs[0]) then [xs[0]] + TruthyOnly(xs[1..])
    else TruthyOnly(xs[1..])
  }

  /** When every element is truthy, nothing is dropped and the order is unchanged */
  lemma {:induction false} TruthyOnlyKeepsAllTruthy(xs: seq<Json>)
    requires forall i :: 0 <= i < |xs| ==> Truthy(xs[i])
    ensures TruthyOnly(xs) == xs
  {
    if xs != [] {
      TruthyOnlyKeepsAllTruthy(xs[1..]);
      assert xs == [xs[0]] + xs[1..];
    }
  }

  /** A cleaner maps exactly the falsy inputs to `null` whenever it returns */
  ghost predicate NullExactlyOnFalsy<T>(f: Json -> Outcome<Option<T>>) {
    forall x :: f(x).Returned? ==> (f(x).value.None? <==> !Truthy(x))
  }

  /** `Array.isArray(v) ? v.map(f).filter(Boolean) : []` */
  function CleanList<T>(v: Json, f: Json -> Outcome<Option<T>>): (r: Outcome<seq<T>>)
    ensures !v.Arr? ==> r == Returned([])
    ensures r.Threw? <==> v.Arr? && exists i :: 0 <= i < |v.elems| && f(v.elems[i]).Threw?
    ensures r.Returned? && v.Arr? ==>
      forall j :: 0 <= j < |r.value| ==> exists i :: 0 <= i < |v.elems| && f(v.elems[i]) == Returned(Some(r.value[j]))
  {
    if !v.Arr? then Returned([])
    else
      match MapOutcome(v.elems, f)
      case Threw(e) => Threw(e)
      case Returned(ys) => Returned(Compact(ys))
  }

  /** A `map` that returned did so on the first element and on the rest */
  lemma MapOutcomeSplits<T>(xs: seq<Json>, f: Json -> Outcome<T>)
    requires xs != [] && MapOutcome(xs, f).Returned?
    ensures f(xs[0]).Returned? && MapOutcome(xs[1..], f).Returned?
    ensures MapOutcome(xs, f).value == [f(xs[0]).value] + MapOutcome(xs[1..], f).value
  {
  }

  /**
   Mapping a cleaner that returns `null` exactly on falsy inputs and then dropping the
   `null`s leaves the cleaned records of the truthy inputs, one per truthy input and in
   input order.
   */
  lemma {:induction false} CompactOfMapKeepsTruthy<T>(xs: seq<Json>, f: Json -> Outcome<Option<T>>)
    requires NullExactlyOnFalsy(f)
    requires MapOutcome(xs, f).Returned?
    ensures var out := Compact(MapOutcome(xs, f).value);
      |out| == |TruthyOnly(xs)| &&
      forall j :: 0 <= j < |out| ==> f(TruthyOnly(xs)[j]) == Returned(Some(out[j]))
  {
    if xs != [] {
      MapOutcomeSplits(xs, f);
      var ys := MapOutcome(xs, f).value;
      var tail := MapOutcome(xs[1..], f).value;
      CompactOfMapKeepsTruthy(xs[1..], f);
      assert ys[1..] == tail;
      var out, rest := Compact(ys), Compact(tail);
      var kept, keptRest := TruthyOnly(xs), TruthyOnly(xs[1..]);
      if Truthy(xs[0]) {
        assert ys[0].Some?;
        assert out == [ys[0].value] + rest;
        assert kept == [xs[0]] + keptRest;
        forall j | 0 <= j < |out| ensures f(kept[j]) == Returned(Some(out[j])) {
          if j > 0 {
            assert kept[j] == keptRest[j - 1] && out[j] == rest[j - 1];
          }
        }
      } else {
        assert ys[0].None?;
        assert out == rest && kept == keptRest;
      }
    }
  }

  /** What a list cleaner returns: `[]` for a non-array, the exception of the first element
      whose cleaner throws, and otherwise the cleaned truthy elements in input order */
  lemma CleanListSpec<T>(v: Json, f: Json -> Outcome<Option<T>>)
    requires NullExactlyOnFalsy(f)
    ensures !v.Arr? ==> CleanList(v, f) == Returned([])
    ensures v.Arr? ==>
      (CleanList(v, f).Threw? <==> exists i :: 0 <= i < |v.elems| && f(v.elems[i]).Threw?)
    ensures v.Arr? && CleanList(v, f).Threw? ==>
      exists i :: 0 <= i < |v.elems| && f(v.elems[i]) == Threw(CleanList(v, f).error) &&
        forall k :: 0 <= k < i ==> f(v.elems[k]).Returned?
    ensures v.Arr? && CleanList(v, f).Returned? ==>
      var out := CleanList(v, f).value;
      |out| == |TruthyOnly(v.elems)| <= |v.elems| &&
      forall j :: 0 <= j < |out| ==> f(TruthyOnly(v.elems)[j]) == Returned(Some(out[j]))
  {
    if v.Arr? && MapOutcome(v.elems, f).Returned? {
      CompactOfMapKeepsTruthy(v.elems, f);
    }
  }
}
