/** The partial-UPDATE builder (src/database/sql-patch.ts): it turns a patch
    object into the SET list of an UPDATE and pushes the parameters. */
module SqlPatch {
  import opened Common

  datatype PatchColumn<+C> = PatchColumn(column: C, json: bool)

  /** A query parameter: passed as is, or as JSON text. */
  datatype Param<+V> = Plain(value: V) | JsonText(value: V)

  /** `column = $param`, with a `::jsonb` cast when `jsonb`. Parameters count from 1. */
  datatype Assignment<+C> = Assignment(column: C, param: nat, jsonb: bool)

  /** The SET list; `stamped` when it ends in `updated_at = now()`. */
  datatype Built<+K, +C> = Sets(sets: seq<Assignment<C>>, stamped: bool) | Unsupported(key: K)

  /** A patch is the list of its own properties in order; `None` is `undefined`. */
  type Patch<+K, +V> = seq<(K, Option<V>)>

  predicate KeysDistinct<K(==), V>(patch: Patch<K, V>) {
    forall i, j :: 0 <= i < j < |patch| ==> patch[i].0 != patch[j].0
  }

  /** The whitelist maps no two properties to one column. */
  ghost predicate ColumnsInjective<K(!new), C>(columns: K -> Option<PatchColumn<C>>) {
    forall a, b :: columns(a).Some? && columns(b).Some? && columns(a).value.column == columns(b).value.column ==> a == b
  }

  predicate Supported<K, C, V>(patch: Patch<K, V>, columns: K -> Option<PatchColumn<C>>) {
    forall i :: 0 <= i < |patch| && patch[i].1.Some? ==> columns(patch[i].0).Some?
  }

  ghost function SetsOf<K, C, V>(patch: Patch<K, V>, columns: K -> Option<PatchColumn<C>>, base: nat): seq<Assignment<C>>
    requires Supported(patch, columns)
  {
    if |patch| == 0 then []
    else
      var (rest, e) := (patch[..|patch| - 1], patch[|patch| - 1]);
      var sets := SetsOf(rest, columns, base);
      if e.1.None? then sets
      else sets + [Assignment(columns(e.0).value.column, base + |sets| + 1, columns(e.0).value.json)]
  }

  ghost function ParamsOf<K, C, V>(patch: Patch<K, V>, columns: K -> Option<PatchColumn<C>>): seq<Param<V>>
    requires Supported(patch, columns)
  {
    if |patch| == 0 then []
    else
      var (rest, e) := (patch[..|patch| - 1], patch[|patch| - 1]);
      var params := ParamsOf(rest, columns);
      if e.1.None? then params
      else params + [ParamOf(e, columns)]
  }

  function ParamOf<K, C, V>(e: (K, Option<V>), columns: K -> Option<PatchColumn<C>>): Param<V>
    requires e.1.Some? && columns(e.0).Some?
  {
    if columns(e.0).value.json then JsonText(e.1.value) else Plain(e.1.value)
  }

  lemma {:induction false} SameLength<K, C, V>(patch: Patch<K, V>, columns: K -> Option<PatchColumn<C>>, base: nat)
    requires Supported(patch, columns)
    ensures |SetsOf(patch, columns, base)| == |ParamsOf(patch, columns)|
  {
    if |patch| > 0 {
      SameLength(patch[..|patch| - 1], columns, base);
    }
  }

  function Assign<C(==), V>(cells: C -> V, column: C, value: V): C -> V {
    (c: C) => if c == column then value else cells(c)
  }

  /** What the database does with a SET list. `None` stands for the statement being
      rejected: an unbound parameter, a column assigned twice, or JSON text
      bound without its cast (or a cast on something that is not JSON text). */
  function ExecuteSet<C(==), V>(cells: C -> V, sets: seq<Assignment<C>>, params: seq<Param<V>>): Option<C -> V> {
    if |sets| == 0 then Some(cells)
    else
      var (rest, a) := (sets[..|sets| - 1], sets[|sets| - 1]);
      var before := ExecuteSet(cells, rest, params);
      if before.Some? && 1 <= a.param <= |params| && a.jsonb == params[a.param - 1].JsonText?
         && (forall k :: 0 <= k < |rest| ==> rest[k].column != a.column)
      then Some(Assign(before.value, a.column, params[a.param - 1].value))
      else None
  }

  /** `after` differs from `before` exactly where the patch says so. */
  ghost predicate WritesExactly<K, C(!new), V>(
    before: C -> V, after: C -> V, patch: Patch<K, V>, columns: K -> Option<PatchColumn<C>>)
    requires Supported(patch, columns)
  {
    && (forall i :: 0 <= i < |patch| && patch[i].1.Some? ==>
          var c := columns(patch[i].0).value.column; after(c) == patch[i].1.value)
    && (forall c :: (forall i :: 0 <= i < |patch| && patch[i].1.Some? ==> columns(patch[i].0).value.column != c) ==>
          after(c) == before(c))
  }

  lemma {:induction false} SetsNameOnlyPatched<K, C, V>(
    patch: Patch<K, V>, columns: K -> Option<PatchColumn<C>>, base: nat, k: nat)
    requires Supported(patch, columns) && k < |SetsOf(patch, columns, base)|
    ensures exists i :: 0 <= i < |patch| && patch[i].1.Some? &&
                        columns(patch[i].0).value.column == SetsOf(patch, columns, base)[k].column
  {
    var rest := patch[..|patch| - 1];
    if k < |SetsOf(rest, columns, base)| {
      SetsNameOnlyPatched(rest, columns, base, k);
      var i :| 0 <= i < |rest| && rest[i].1.Some? &&
               columns(rest[i].0).value.column == SetsOf(rest, columns, base)[k].column;
      assert patch[i] == rest[i];
    } else {
      assert patch[|patch| - 1].1.Some?;
    }
  }

  /** One more defined entry extends an exact write by one column. */
  lemma ExtendWrites<K(!new), C(!new), V>(
    cells: C -> V, mid: C -> V, patch: Patch<K, V>, n: nat, columns: K -> Option<PatchColumn<C>>)
    requires |patch| == n + 1 && Supported(patch, columns) && KeysDistinct(patch) && ColumnsInjective(columns)
    requires patch[n].1.Some? && WritesExactly(cells, mid, patch[..n], columns)
    ensures WritesExactly(cells, Assign(mid, columns(patch[n].0).value.column, patch[n].1.value), patch, columns)
  {
    var rest, col := patch[..n], columns(patch[n].0).value.column;
    var after := Assign(mid, col, patch[n].1.value);
    forall i | 0 <= i < |patch| && patch[i].1.Some?
      ensures var c := columns(patch[i].0).value.column; after(c) == patch[i].1.value
    {
      if i < n {
        assert patch[i] == rest[i];
      }
    }
    forall c | forall i :: 0 <= i < |patch| && patch[i].1.Some? ==> columns(patch[i].0).value.column != c
      ensures after(c) == cells(c)
    {
      assert forall i :: 0 <= i < n && rest[i].1.Some? ==> patch[i].1.Some?;
    }
  }

  lemma ExecuteAppend<C, V>(cells: C -> V, sets: seq<Assignment<C>>, a: Assignment<C>, params: seq<Param<V>>, p: Param<V>)
    requires ExecuteSet(cells, sets, params).Some? && forall k :: 0 <= k < |sets| ==> sets[k].column != a.column
    requires 1 <= a.param <= |params| && params[a.param - 1] == p && a.jsonb == p.JsonText?
    ensures ExecuteSet(cells, sets + [a], params) == Some(Assign(ExecuteSet(cells, sets, params).value, a.column, p.value))
  {
    assert (sets + [a])[..|sets|] == sets;
  }

  /** What the last, defined entry of a patch adds to the list and to the parameters. */
  lemma OneMoreAssignment<K, C, V>(patch: Patch<K, V>, n: nat, columns: K -> Option<PatchColumn<C>>, base: nat)
    requires |patch| == n + 1 && Supported(patch, columns) && patch[n].1.Some?
    ensures var (sets, params, p) := (SetsOf(patch[..n], columns, base), ParamsOf(patch[..n], columns), ParamOf(patch[n], columns));
            && |sets| == |params| && ParamsOf(patch, columns) == params + [p]
            && SetsOf(patch, columns, base) == sets + [Assignment(columns(patch[n].0).value.column, base + |sets| + 1, p.JsonText?)]
  {
    SameLength(patch[..n], columns, base);
  }

  lemma Regroup<T>(a: seq<T>, b: seq<T>, x: T, c: seq<T>)
    ensures a + (b + [x]) + c == a + b + ([x] + c) && (a + b + ([x] + c))[|a| + |b|] == x
  {
  }

  /** How the statement for one more defined entry executes. */
  lemma OneMoreExecutes<K(!new), C(!new), V>(
    cells: C -> V, patch: Patch<K, V>, n: nat, columns: K -> Option<PatchColumn<C>>, pre: seq<Param<V>>, post: seq<Param<V>>, all: seq<Param<V>>)
    requires |patch| == n + 1 && Supported(patch, columns) && KeysDistinct(patch) && ColumnsInjective(columns) && patch[n].1.Some?
    requires all == pre + ParamsOf(patch[..n], columns) + ([ParamOf(patch[n], columns)] + post)
    requires ExecuteSet(cells, SetsOf(patch[..n], columns, |pre|), all).Some?
    ensures all == pre + ParamsOf(patch, columns) + post
    ensures ExecuteSet(cells, SetsOf(patch, columns, |pre|), all)
            == Some(Assign(ExecuteSet(cells, SetsOf(patch[..n], columns, |pre|), all).value, columns(patch[n].0).value.column, patch[n].1.value))
  {
    var (sets, params, p) := (SetsOf(patch[..n], columns, |pre|), ParamsOf(patch[..n], columns), ParamOf(patch[n], columns));
    OneMoreAssignment(patch, n, columns, |pre|);
    Regroup(pre, params, p, post);
    ColumnIsNew(patch, n, columns, |pre|);
    ExecuteAppend(cells, sets, Assignment(columns(patch[n].0).value.column, |pre| + |sets| + 1, p.JsonText?), all, p);
  }

  /** The statement for a patch with one more defined entry, from the one before. */
  lemma OneMoreWrites<K(!new), C(!new), V>(
    cells: C -> V, patch: Patch<K, V>, n: nat, columns: K -> Option<PatchColumn<C>>, pre: seq<Param<V>>, post: seq<Param<V>>)
    requires |patch| == n + 1 && Supported(patch, columns) && KeysDistinct(patch) && ColumnsInjective(columns) && patch[n].1.Some?
    requires var r := ExecuteSet(cells, SetsOf(patch[..n], columns, |pre|),
                                 pre + ParamsOf(patch[..n], columns) + ([ParamOf(patch[n], columns)] + post));
             r.Some? && WritesExactly(cells, r.value, patch[..n], columns)
    ensures var r := ExecuteSet(cells, SetsOf(patch, columns, |pre|), pre + ParamsOf(patch, columns) + post);
            r.Some? && WritesExactly(cells, r.value, patch, columns)
  {
    var all := pre + ParamsOf(patch[..n], columns) + ([ParamOf(patch[n], columns)] + post);
    OneMoreExecutes(cells, patch, n, columns, pre, post, all);
    ExtendWrites(cells, ExecuteSet(cells, SetsOf(patch[..n], columns, |pre|), all).value, patch, n, columns);
  }

  /** The built SET list always executes, wherever its parameters sit in the
      full list, and changes exactly the patched columns. */
  lemma {:induction false} BuiltSetWritesExactlyThePatch<K(!new), C(!new), V>(
    cells: C -> V, patch: Patch<K, V>, columns: K -> Option<PatchColumn<C>>, pre: seq<Param<V>>, post: seq<Param<V>>)
    requires Supported(patch, columns) && KeysDistinct(patch) && ColumnsInjective(columns)
    ensures var r := ExecuteSet(cells, SetsOf(patch, columns, |pre|), pre + ParamsOf(patch, columns) + post);
            r.Some? && WritesExactly(cells, r.value, patch, columns)
  {
    if |patch| > 0 {
      var n := |patch| - 1;
      var (rest, e) := (patch[..n], patch[n]);
      if e.1.None? {
        BuiltSetWritesExactlyThePatch(cells, rest, columns, pre, post);
        SkipUndefined(cells, ExecuteSet(cells, SetsOf(rest, columns, |pre|), pre + ParamsOf(rest, columns) + post).value, patch, n, columns);
      } else {
        BuiltSetWritesExactlyThePatch(cells, rest, columns, pre, [ParamOf(e, columns)] + post);
        OneMoreWrites(cells, patch, n, columns, pre, post);
      }
    }
  }

  /** The whole statement, on a row with an update time. An UPDATE that sets nothing is
      a syntax error. */
  function ExecuteUpdate<C(==), V>(
    cells: C -> V, updatedAt: int, sets: seq<Assignment<C>>, stamped: bool, params: seq<Param<V>>, now: int): Option<(C -> V, int)>
  {
    if |sets| == 0 && !stamped then None
    else
      var r := ExecuteSet(cells, sets, params);
      if r.None? then None else Some((r.value, if stamped then now else updatedAt))
  }

  /** Every whitelisted patch, the empty one included, gives a statement the database
      accepts: it writes the patch and stamps the row. Without the stamp exactly the
      patches that define nothing would be refused. */
  lemma BuiltUpdateIsAccepted<K(!new), C(!new), V>(
    cells: C -> V, updatedAt: int, patch: Patch<K, V>, columns: K -> Option<PatchColumn<C>>, pre: seq<Param<V>>, post: seq<Param<V>>, now: int)
    requires Supported(patch, columns) && KeysDistinct(patch) && ColumnsInjective(columns)
    ensures var (sets, params) := (SetsOf(patch, columns, |pre|), pre + ParamsOf(patch, columns) + post);
            var r := ExecuteUpdate(cells, updatedAt, sets, true, params, now);
            && r.Some? && r.value.1 == now && WritesExactly(cells, r.value.0, patch, columns)
            && (ExecuteUpdate(cells, updatedAt, sets, false, params, now).None? <==> forall i :: 0 <= i < |patch| ==> patch[i].1.None?)
  {
    BuiltSetWritesExactlyThePatch(cells, patch, columns, pre, post);
    NothingDefined(patch, columns, |pre|);
  }

  lemma {:induction false} NothingDefined<K, C, V>(patch: Patch<K, V>, columns: K -> Option<PatchColumn<C>>, base: nat)
    requires Supported(patch, columns)
    ensures SetsOf(patch, columns, base) == [] <==> forall i :: 0 <= i < |patch| ==> patch[i].1.None?
  {
    if |patch| > 0 {
      NothingDefined(patch[..|patch| - 1], columns, base);
      assert forall i :: 0 <= i < |patch| - 1 ==> patch[..|patch| - 1][i] == patch[i];
    }
  }

  lemma SkipUndefined<K(!new), C(!new), V>(
    cells: C -> V, mid: C -> V, patch: Patch<K, V>, n: nat, columns: K -> Option<PatchColumn<C>>)
    requires |patch| == n + 1 && Supported(patch, columns)
    requires patch[n].1.None? && WritesExactly(cells, mid, patch[..n], columns)
    ensures WritesExactly(cells, mid, patch, columns)
  {
    var rest := patch[..n];
    assert forall i :: 0 <= i < |patch| && patch[i].1.Some? ==> i < n && patch[i] == rest[i];
    forall c | forall i :: 0 <= i < |patch| && patch[i].1.Some? ==> columns(patch[i].0).value.column != c
      ensures mid(c) == cells(c)
    {
      assert forall i :: 0 <= i < n && rest[i].1.Some? ==> patch[i].1.Some?;
    }
  }

  lemma ColumnIsNew<K(!new), C, V>(patch: Patch<K, V>, n: nat, columns: K -> Option<PatchColumn<C>>, base: nat)
    requires |patch| == n + 1 && Supported(patch, columns) && KeysDistinct(patch) && ColumnsInjective(columns)
    requires patch[n].1.Some?
    ensures var sets := SetsOf(patch[..n], columns, base);
            forall k :: 0 <= k < |sets| ==> sets[k].column != columns(patch[n].0).value.column
  {
    var sets := SetsOf(patch[..n], columns, base);
    forall k | 0 <= k < |sets|
      ensures sets[k].column != columns(patch[n].0).value.column
    {
      SetsNameOnlyPatched(patch[..n], columns, base, k);
    }
  }

  /** The caller's `values` array. */
  class Values<V> {
    var params: seq<Param<V>>

    constructor (params: seq<Param<V>>)
      ensures this.params == params
    {
      this.params := params;
    }

    method Push(p: Param<V>)
      modifies this
      ensures params == old(params) + [p]
    {
      params := params + [p];
    }
  }

  method BuildPatchSet<K(==), C, V>(patch: Patch<K, V>, columns: K -> Option<PatchColumn<C>>, values: Values<V>)
    returns (r: Built<K, C>)
    modifies values
    ensures r.Sets? <==> Supported(patch, columns)
    ensures r.Sets? ==> r.stamped && r.sets == SetsOf(patch, columns, |old(values.params)|)
                        && values.params == old(values.params) + ParamsOf(patch, columns)
    ensures r.Unsupported? ==> exists n :: 0 <= n < |patch| && patch[n].0 == r.key && patch[n].1.Some?
                                           && columns(r.key).None? && Supported(patch[..n], columns)
                                           && values.params == old(values.params) + ParamsOf(patch[..n], columns)
  {
    var sets: seq<Assignment<C>> := [];
    for n := 0 to |patch|
      invariant Supported(patch[..n], columns)
      invariant sets == SetsOf(patch[..n], columns, |old(values.params)|)
      invariant values.params == old(values.params) + ParamsOf(patch[..n], columns)
    {
      SameLength(patch[..n], columns, |old(values.params)|);
      assert patch[..n + 1][..n] == patch[..n] && patch[..n + 1][n] == patch[n];
      var (key, value) := patch[n];
      if value.None? {
        continue;
      }
      if columns(key).None? {
        return Unsupported(key);
      }
      var mapping := columns(key).value;
      values.Push(if mapping.json then JsonText(value.value) else Plain(value.value));
      sets := sets + [Assignment(mapping.column, |values.params|, mapping.json)];
    }
    assert patch[..|patch|] == patch;
    return Sets(sets, true);
  }
}
