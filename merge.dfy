/** The output merge of a join record: the outputs of all its prerequisites are
    combined key by key, every key's values gathered into one array. */
module Merging {

  /** A value held under a key of a work payload. */
  datatype Value = IntValue(n: int) | StringValue(s: string)

  /** A work payload as the array-creating merge sees it: each key holds an
      array of values, a scalar value being a one-element array. */
  type Data = map<string, seq<Value>>

  /** The array under key, or the empty array when the key is absent. */
  function Get(d: Data, key: string): seq<Value> {
    if key in d then d[key] else []
  }

  /** One merge step: the arrays of next are appended to those gathered in acc. */
  function Combine(acc: Data, next: Data): Data {
    map key | key in acc.Keys + next.Keys :: Get(acc, key) + Get(next, key)
  }

  /** The merged input of a join: the prerequisites' outputs, taken in the order
      the store enumerates them, combined from the first to the last. */
  function Merge(outputs: seq<Data>): Data {
    if outputs == [] then map[] else Combine(Merge(outputs[..|outputs| - 1]), outputs[|outputs| - 1])
  }

  /** Reference reading: the values under key, output after output, front to back. */
  function Column(outputs: seq<Data>, key: string): seq<Value> {
    if outputs == [] then [] else Get(outputs[0], key) + Column(outputs[1..], key)
  }

  lemma {:induction false} ColumnSnoc(outputs: seq<Data>, d: Data, key: string)
    ensures Column(outputs + [d], key) == Column(outputs, key) + Get(d, key)
    decreases |outputs|
  {
    if outputs != [] {
      assert (outputs + [d])[1..] == outputs[1..] + [d];
      ColumnSnoc(outputs[1..], d, key);
    }
  }

  /** The merged array under key is every prerequisite's array under key,
      concatenated in enumeration order. */
  lemma {:induction false} MergeIsColumn(outputs: seq<Data>, key: string)
    ensures Get(Merge(outputs), key) == Column(outputs, key)
    decreases |outputs|
  {
    if outputs != [] {
      var init, last := outputs[..|outputs| - 1], outputs[|outputs| - 1];
      MergeIsColumn(init, key);
      ColumnSnoc(init, last, key);
      assert init + [last] == outputs;
    }
  }

  /** A key is in the merge exactly when some prerequisite's output has it. */
  lemma {:induction false} MergeKeys(outputs: seq<Data>, key: string)
    ensures key in Merge(outputs) <==> exists i :: 0 <= i < |outputs| && key in outputs[i]
    decreases |outputs|
  {
    if outputs != [] {
      var init, last := outputs[..|outputs| - 1], outputs[|outputs| - 1];
      MergeKeys(init, key);
      assert Merge(outputs).Keys == Merge(init).Keys + last.Keys;
      if exists i :: 0 <= i < |outputs| && key in outputs[i] {
        var i :| 0 <= i < |outputs| && key in outputs[i];
        if i < |init| {
          assert key in init[i];
        }
      }
      if exists i :: 0 <= i < |init| && key in init[i] {
        var i :| 0 <= i < |init| && key in init[i];
        assert key in outputs[i];
      }
    }
  }

  lemma {:induction false} ColumnMembers(outputs: seq<Data>, key: string, v: Value)
    ensures v in Column(outputs, key) <==> exists i :: 0 <= i < |outputs| && v in Get(outputs[i], key)
    decreases |outputs|
  {
    if outputs != [] {
      ColumnMembers(outputs[1..], key, v);
      if exists i :: 0 <= i < |outputs| && v in Get(outputs[i], key) {
        var i :| 0 <= i < |outputs| && v in Get(outputs[i], key);
        if i > 0 {
          assert v in Get(outputs[1..][i - 1], key);
        }
      }
    }
  }

  /** A value is in the merged array under key exactly when some prerequisite
      produced it under that key. */
  lemma MergeMembers(outputs: seq<Data>, key: string, v: Value)
    ensures v in Get(Merge(outputs), key) <==>
      exists i :: 0 <= i < |outputs| && key in outputs[i] && v in outputs[i][key]
  {
    MergeIsColumn(outputs, key);
    ColumnMembers(outputs, key, v);
  }

  /** With a single prerequisite the merge hands its output on unchanged. */
  lemma MergeSingle(d: Data)
    ensures Merge([d]) == d
  {
    assert [d][..0] == [];
    var empty: Data := map[];
    assert Merge([]) == empty;
    var m := Merge([d]);
    assert m == Combine(empty, d);
    forall key | key in d ensures key in m && m[key] == d[key] {
      assert m[key] == Get(empty, key) + Get(d, key);
    }
  }
}
