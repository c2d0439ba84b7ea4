/** The two loops every list query of the data API runs: materialising the selected rows
    (`ToList`) and copying each row into a DTO (`foreach … Add`). */
module Lists {

  /** `ids` names every key of `keys` exactly once. */
  ghost predicate EachOnce(ids: seq<int>, keys: set<int>) {
    && (forall i :: 0 <= i < |ids| ==> ids[i] in keys)
    && (forall k :: k in keys ==> k in ids)
    && (forall i, j :: 0 <= i < j < |ids| ==> ids[i] != ids[j])
  }

  /** A list naming each key once is exactly as long as the key set is large. */
  lemma {:induction false} EachOnceCount(ids: seq<int>, keys: set<int>)
    requires EachOnce(ids, keys)
    ensures |ids| == |keys|
  {
    if ids != [] {
      var n := |ids| - 1;
      var last := ids[n];
      var prefix := ids[..n];
      forall k | k in keys - {last} ensures k in prefix {
        var i :| 0 <= i < |ids| && ids[i] == k;
        assert i < n;
        assert prefix[i] == k;
      }
      EachOnceCount(prefix, keys - {last});
    } else {
      assert forall k :: k in keys <==> k in {};
    }
  }

  /** Running the query: the rows of `table` whose key is selected. The queries carry no
      ORDER BY; the model scans the identity range `1 .. bound - 1`, that is, key order. */
  method ToList<R>(table: map<int, R>, keys: set<int>, bound: int) returns (ids: seq<int>, rows: seq<R>)
    requires keys <= table.Keys
    requires 1 <= bound && forall k :: k in keys ==> 1 <= k < bound
    ensures EachOnce(ids, keys)
    ensures |rows| == |ids| && forall i :: 0 <= i < |ids| ==> rows[i] == table[ids[i]]
  {
    ids, rows := [], [];
    for id := 1 to bound
      invariant forall i :: 0 <= i < |ids| ==> ids[i] in keys && ids[i] < id
      invariant forall i, j :: 0 <= i < j < |ids| ==> ids[i] < ids[j]
      invariant forall k :: k in keys && k < id ==> k in ids
      invariant |rows| == |ids| && forall i :: 0 <= i < |ids| ==> rows[i] == table[ids[i]]
    {
      if id in keys {
        ids, rows := ids + [id], rows + [table[id]];
      }
    }
  }

  /** The `foreach` over the fetched rows, appending one DTO per row. */
  method Project<R, D>(rows: seq<R>, toDto: R -> D) returns (dtos: seq<D>)
    ensures |dtos| == |rows| && forall i :: 0 <= i < |rows| ==> dtos[i] == toDto(rows[i])
  {
    dtos := [];
    for i := 0 to |rows|
      invariant |dtos| == i && forall j :: 0 <= j < i ==> dtos[j] == toDto(rows[j])
    {
      dtos := dtos + [toDto(rows[i])];
    }
  }
}
