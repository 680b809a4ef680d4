/** The rows a data handler's `fetch_data` returns, and the order-preserving
    filter-and-map both handlers use to build listings. */
module Rows {
  import opened Wrappers
  import opened OrderedMaps
  import opened Values

  /** A listing row: a folder (`'type': 'folder'`), a file (`'type': 'file'`)
      or a fetched object (`'type': 'data'`). */
  datatype Row =
    | Folder(id: Value, d: Value, owner: Value, t: Value)
    | File(id: Value, d: Value, owner: Value, t: Value)
    | Data(id: Value, data: Value)

  /** The row as the dict the handler builds, with its keys in the order the
      handler writes them. */
  function RowValue(r: Row): (v: Value)
    ensures v.Dict? && Lookup(v.entries, "id") == Some(r.id)
  {
    match r
    case Folder(id, d, owner, t) =>
      Dict([("id", id), ("d", d), ("owner", owner), ("t", t), ("type", Str("folder"))])
    case File(id, d, owner, t) =>
      Dict([("id", id), ("d", d), ("owner", owner), ("t", t), ("type", Str("file"))])
    case Data(id, data) =>
      Dict([("id", id), ("type", Str("data")), ("data", data)])
  }

  /** `[f(x) for x in xs if keep(x)]`. */
  function FilterMap<A, B>(xs: seq<A>, keep: A -> bool, f: A -> B): (ys: seq<B>)
    ensures |ys| <= |xs|
  {
    if |xs| == 0 then []
    else (if keep(xs[0]) then [f(xs[0])] else []) + FilterMap(xs[1..], keep, f)
  }

  /** A comprehension over a concatenation is the concatenation of the
      comprehensions: the kept elements stay in their input order. */
  lemma {:induction false} FilterMapAppend<A, B>(xs: seq<A>, ys: seq<A>, keep: A -> bool, f: A -> B)
    ensures FilterMap(xs + ys, keep, f) == FilterMap(xs, keep, f) + FilterMap(ys, keep, f)
  {
    if |xs| == 0 {
      assert xs + ys == ys;
    } else {
      var zs := xs + ys;
      assert zs[0] == xs[0] && zs[1..] == xs[1..] + ys;
      FilterMapAppend(xs[1..], ys, keep, f);
      var head := if keep(xs[0]) then [f(xs[0])] else [];
      assert FilterMap(zs, keep, f) == head + FilterMap(zs[1..], keep, f);
      assert FilterMap(xs, keep, f) == head + FilterMap(xs[1..], keep, f);
    }
  }

  /** A single element is kept, mapped, exactly when `keep` holds. */
  lemma FilterMapSingle<A, B>(x: A, keep: A -> bool, f: A -> B)
    ensures FilterMap([x], keep, f) == if keep(x) then [f(x)] else []
  {
    assert [x][1..] == [];
  }

  /** Every output comes from a kept input, and every kept input appears. */
  lemma {:induction false} FilterMapMembers<A, B>(xs: seq<A>, keep: A -> bool, f: A -> B)
    ensures forall y :: y in FilterMap(xs, keep, f) <==> exists x :: x in xs && keep(x) && f(x) == y
  {
    if |xs| > 0 {
      FilterMapMembers(xs[1..], keep, f);
      forall y ensures y in FilterMap(xs, keep, f) <==> exists x :: x in xs && keep(x) && f(x) == y {
        if exists x :: x in xs && keep(x) && f(x) == y {
          var x :| x in xs && keep(x) && f(x) == y;
          if x != xs[0] {
            assert x in xs[1..];
          }
        }
      }
    }
  }

  /** Keeping everything maps every element, in order. */
  lemma {:induction false} FilterMapKeepAll<A, B>(xs: seq<A>, keep: A -> bool, f: A -> B)
    requires forall i :: 0 <= i < |xs| ==> keep(xs[i])
    ensures |FilterMap(xs, keep, f)| == |xs|
    ensures forall i :: 0 <= i < |xs| ==> FilterMap(xs, keep, f)[i] == f(xs[i])
  {
    if |xs| > 0 {
      FilterMapKeepAll(xs[1..], keep, f);
    }
  }
}
