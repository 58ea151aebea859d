/**
 * Runtime behaviour of src/part1.base/generic.ts: two generic array builders
 * and a key-by-key copy of one object's own properties into another.
 */
module Generics {

  // ---------------------------------------------------------------------------
  // Array builders

  /**
   * `createArray(length, value)`: a fresh array holding `value` at every index
   * below `length`. `result[i] = value` always writes one past the end, so it
   * appends; a length of zero or less leaves the array empty.
   */
  method CreateArray<T>(length: int, value: T) returns (result: seq<T>)
    ensures |result| == if length > 0 then length else 0
    ensures forall i :: 0 <= i < |result| ==> result[i] == value
  {
    result := [];
    var i := 0;
    while i < length
      invariant 0 <= i <= (if length > 0 then length else 0)
      invariant |result| == i
      invariant forall k :: 0 <= k < i ==> result[k] == value
    {
      result := result + [value];
      i := i + 1;
    }
  }

  /** `createArray1`: the same loop, reached through a variable of a generic function type. */
  method CreateArray1<T>(length: int, value: T) returns (result: seq<T>)
    ensures |result| == if length > 0 then length else 0
    ensures forall i :: 0 <= i < |result| ==> result[i] == value
  {
    result := [];
    var i := 0;
    while i < length
      invariant 0 <= i <= (if length > 0 then length else 0)
      invariant |result| == i
      invariant forall k :: 0 <= k < i ==> result[k] == value
    {
      result := result + [value];
      i := i + 1;
    }
  }

  /** The two builders agree on every input, and `createArray(3, 'x')` is `['x', 'x', 'x']`. */
  method CreateArrayCalls<T>(length: int, value: T) returns (a: seq<T>, b: seq<T>, xs: seq<char>)
    ensures a == b
    ensures xs == ['x', 'x', 'x']
  {
    a := CreateArray(length, value);
    b := CreateArray1(length, value);
    assert |a| == |b|;
    xs := CreateArray(3, 'x');
  }

  // ---------------------------------------------------------------------------
  // Copying fields

  /**
   * A JavaScript object: its own enumerable properties (the only ones `for...in`
   * visits), and the names of the enumerable properties it inherits through its
   * prototype chain.
   */
  class JsObject<V> {
    var fields: map<string, V>
    var inherited: set<string>

    constructor (fields: map<string, V>, inherited: set<string>)
      ensures this.fields == fields && this.inherited == inherited
    {
      this.fields := fields;
      this.inherited := inherited;
    }
  }

  /**
   * The properties of `target` after `source`'s own properties are written into
   * it: `source` wins on shared keys, every other key of `target` keeps its value.
   */
  function Merged<V>(target: map<string, V>, source: map<string, V>): (r: map<string, V>)
    ensures r.Keys == target.Keys + source.Keys
    ensures forall k :: k in source ==> r[k] == source[k]
    ensures forall k :: k in target && k !in source ==> r[k] == target[k]
  {
    target + source
  }

  /**
   * `copyFields(target, source)`: enumerates the keys of `source`, copies
   * those that are its own properties into `target` in place, and returns
   * `target` itself.
   */
  method CopyFields<V>(target: JsObject<V>, source: JsObject<V>) returns (r: JsObject<V>)
    modifies target
    ensures r == target
    ensures target.fields == Merged(old(target.fields), old(source.fields))
    ensures target.inherited == old(target.inherited)
    ensures source.fields == old(source.fields)
  {
    ghost var t0, s0 := target.fields, source.fields;
    var keys := source.fields.Keys + source.inherited;
    ghost var visited: set<string> := {};
    while keys != {}
      invariant keys !! visited && keys + visited == s0.Keys + source.inherited
      invariant target.fields == t0 + map k | k in visited && k in s0 :: s0[k]
      invariant source.fields == s0
      invariant target.inherited == old(target.inherited)
      decreases keys
    {
      var id :| id in keys;
      if id in source.fields {
        target.fields := target.fields[id := source.fields[id]];
      }
      keys := keys - {id};
      visited := visited + {id};
    }
    r := target;
  }

  /** When `source`'s keys are all keys of `target` (`T extends U`), the merge adds no key. */
  lemma MergedKeepsKeys<V>(target: map<string, V>, source: map<string, V>)
    requires source.Keys <= target.Keys
    ensures Merged(target, source).Keys == target.Keys
  {
  }

  /** Copying the same source a second time changes nothing. */
  lemma MergedIdempotent<V>(target: map<string, V>, source: map<string, V>)
    ensures Merged(Merged(target, source), source) == Merged(target, source)
  {
  }

  /** The file's own calls: `{a:1,b:2,c:3,d:4}` with `{b:10,d:20}`, then with `{b:10,d:20,e:30}`. */
  lemma MergedExamples()
    ensures Merged(map["a" := 1, "b" := 2, "c" := 3, "d" := 4], map["b" := 10, "d" := 20])
         == map["a" := 1, "b" := 10, "c" := 3, "d" := 20]
    ensures Merged(map["a" := 1, "b" := 10, "c" := 3, "d" := 20], map["b" := 10, "d" := 20, "e" := 30])
         == map["a" := 1, "b" := 10, "c" := 3, "d" := 20, "e" := 30]
  {
  }
}
