/**
 * The import of a distributed collection of graph elements into the
 * key/value store. Every element is turned into (Key, Value) tuples by the
 * store's element converter, the tuples of all elements are concatenated in
 * input order (a flatMap) and handed to a key/value import sub-operation.
 *
 * A conversion exception is caught per element: the element then simply
 * contributes no tuple, and the import goes on with the rest.
 */
module ImportRddOfElements {
  import opened Wrappers

  /** What a converter call gives back: its result, or a conversion exception. */
  datatype Conversion<T> = Converted(result: T) | ConversionFailed

  /** `Pair<Key>`: two keys, either of which may be null. */
  datatype KeyPair<K> = KeyPair(first: Option<K>, second: Option<K>)

  /** The store's element converter, whose internals are not part of this model. */
  datatype Converter<-E, K, V> = Converter(
    keysFrom: E -> Conversion<KeyPair<K>>,
    valueFrom: E -> Conversion<V>)

  /** A (Key, Value) tuple; its value may be null. */
  datatype KeyValue<K, V> = KeyValue(key: K, value: Option<V>)

  /** The sub-operation the handler submits to the store. */
  datatype ImportKeyValuePairs<K, V> = ImportKeyValuePairs(input: seq<KeyValue<K, V>>, outputPath: string)

  const OutputPath: string := "outputPath"

  /** The keys `apply` ends up with: the converted pair, or the empty pair it started with. */
  function KeysOf<E, K, V>(conv: Converter<E, K, V>, e: E): (r: KeyPair<K>)
    ensures conv.keysFrom(e).Converted? ==> r == conv.keysFrom(e).result
    ensures conv.keysFrom(e).ConversionFailed? ==> r.first.None? && r.second.None?
  {
    match conv.keysFrom(e)
    case Converted(keys) => keys
    case ConversionFailed => KeyPair(None, None)
  }

  /** The value `apply` ends up with: converted only after the keys converted, null otherwise. */
  function ValueOf<E, K, V>(conv: Converter<E, K, V>, e: E): (r: Option<V>)
    ensures r.Some? <==> conv.keysFrom(e).Converted? && conv.valueFrom(e).Converted?
    ensures r.Some? ==> r.value == conv.valueFrom(e).result
  {
    if conv.keysFrom(e).ConversionFailed? then None
    else match conv.valueFrom(e)
      case Converted(v) => Some(v)
      case ConversionFailed => None
  }

  /** Reference for `apply`: a tuple for the first key, then one for the second, each only if present. */
  function Flatten<E, K, V>(conv: Converter<E, K, V>, e: E): (r: seq<KeyValue<K, V>>)
    ensures |r| == (if KeysOf(conv, e).first.Some? then 1 else 0) + (if KeysOf(conv, e).second.Some? then 1 else 0)
    ensures r != [] ==> r[0].key == (if KeysOf(conv, e).first.Some? then KeysOf(conv, e).first else KeysOf(conv, e).second).value
    ensures |r| == 2 ==> r[1].key == KeysOf(conv, e).second.value
    ensures forall i :: 0 <= i < |r| ==> r[i].value == ValueOf(conv, e)
  {
    var keys, value := KeysOf(conv, e), ValueOf(conv, e);
    (if keys.first.Some? then [KeyValue(keys.first.value, value)] else [])
      + (if keys.second.Some? then [KeyValue(keys.second.value, value)] else [])
  }

  /**
   * `ElementConverterFunction.apply`: converts the keys and then the value
   * inside one try block whose catch does nothing, then appends a tuple for
   * each key that is not null.
   */
  method Apply<E, K, V>(conv: Converter<E, K, V>, e: E) returns (buf: seq<KeyValue<K, V>>)
    ensures buf == Flatten(conv, e)
    ensures |buf| <= 2
    ensures forall i :: 0 <= i < |buf| ==> buf[i].value == ValueOf(conv, e)
  {
    buf := [];
    var keys: KeyPair<K> := KeyPair(None, None);
    var value: Option<V> := None;
    var converted := conv.keysFrom(e);
    if converted.Converted? {
      keys := converted.result;
      var v := conv.valueFrom(e);
      if v.Converted? {
        value := Some(v.result);
      }
    }
    if keys.first.Some? {
      buf := buf + [KeyValue(keys.first.value, value)];
    }
    if keys.second.Some? {
      buf := buf + [KeyValue(keys.second.value, value)];
    }
  }

  /** A failed key conversion drops the element: no tuple, and nothing is thrown. */
  lemma {:induction false} KeyFailureDropsElement<E, K, V>(conv: Converter<E, K, V>, e: E)
    requires conv.keysFrom(e).ConversionFailed?
    ensures Flatten(conv, e) == []
  {
  }

  /** With both keys present the first key's tuple comes first, and both carry the one value. */
  lemma {:induction false} BothKeysInOrder<E, K, V>(conv: Converter<E, K, V>, e: E, k1: K, k2: K)
    requires conv.keysFrom(e) == Converted(KeyPair(Some(k1), Some(k2)))
    ensures Flatten(conv, e) == [KeyValue(k1, ValueOf(conv, e)), KeyValue(k2, ValueOf(conv, e))]
  {
  }

  /** A null key yields no tuple for its position. */
  lemma {:induction false} NullKeySkipped<E, K, V>(conv: Converter<E, K, V>, e: E)
    ensures KeysOf(conv, e).first.None? && KeysOf(conv, e).second.None? ==> Flatten(conv, e) == []
    ensures KeysOf(conv, e).first.None? && KeysOf(conv, e).second.Some? ==>
      Flatten(conv, e) == [KeyValue(KeysOf(conv, e).second.value, ValueOf(conv, e))]
    ensures KeysOf(conv, e).first.Some? && KeysOf(conv, e).second.None? ==>
      Flatten(conv, e) == [KeyValue(KeysOf(conv, e).first.value, ValueOf(conv, e))]
  {
  }

  /** Keys that convert are still emitted when the value conversion throws, paired with a null value. */
  lemma {:induction false} ValueFailureKeepsKeys<E, K, V>(conv: Converter<E, K, V>, e: E)
    requires conv.keysFrom(e).Converted? && conv.valueFrom(e).ConversionFailed?
    ensures |Flatten(conv, e)| == (if KeysOf(conv, e).first.Some? then 1 else 0)
                                 + (if KeysOf(conv, e).second.Some? then 1 else 0)
    ensures forall i :: 0 <= i < |Flatten(conv, e)| ==> Flatten(conv, e)[i].value == None
  {
  }

  /** The flatMap of `apply` over the input, in input order. */
  function Imported<E, K, V>(conv: Converter<E, K, V>, elements: seq<E>): (r: seq<KeyValue<K, V>>)
    ensures |r| <= 2 * |elements|
  {
    if elements == [] then []
    else Flatten(conv, elements[0]) + Imported(conv, elements[1..])
  }

  /** The import of a concatenated input is the concatenation of the imports. */
  lemma {:induction false} ImportedAppend<E, K, V>(conv: Converter<E, K, V>, xs: seq<E>, ys: seq<E>)
    ensures Imported(conv, xs + ys) == Imported(conv, xs) + Imported(conv, ys)
  {
    if xs != [] {
      assert (xs + ys)[1..] == xs[1..] + ys;
      ImportedAppend(conv, xs[1..], ys);
    } else {
      assert xs + ys == ys;
    }
  }

  /** An element whose keys fail to convert is left out, and every other element still contributes. */
  lemma {:induction false} FailedElementSkipped<E, K, V>(conv: Converter<E, K, V>, elements: seq<E>, k: nat)
    requires k < |elements| && conv.keysFrom(elements[k]).ConversionFailed?
    ensures Imported(conv, elements) == Imported(conv, elements[..k]) + Imported(conv, elements[k + 1..])
  {
    assert elements == elements[..k] + [elements[k]] + elements[k + 1..];
    ImportedAppend(conv, elements[..k] + [elements[k]], elements[k + 1..]);
    ImportedAppend(conv, elements[..k], [elements[k]]);
    assert Imported(conv, [elements[k]]) == [] by {
      assert [elements[k]][1..] == [];
    }
  }

  /** An element that converts to exactly one key (an entity) yields exactly one tuple. */
  predicate SingleKey<E, K, V>(conv: Converter<E, K, V>, e: E)
  {
    conv.keysFrom(e).Converted? && conv.keysFrom(e).result.first.Some? && conv.keysFrom(e).result.second.None?
  }

  /** A batch of single-key elements yields one tuple per element. */
  lemma {:induction false} SingleKeyBatch<E, K, V>(conv: Converter<E, K, V>, elements: seq<E>)
    requires forall i :: 0 <= i < |elements| ==> SingleKey(conv, elements[i])
    ensures |Imported(conv, elements)| == |elements|
  {
    if elements != [] {
      SingleKeyBatch(conv, elements[1..]);
    }
  }

  /**
   * Of a batch of N single-key elements of which exactly one fails to
   * convert, N - 1 tuples are imported: the batch is neither aborted nor kept whole.
   */
  lemma {:induction false} OneFailureInBatch<E, K, V>(conv: Converter<E, K, V>, elements: seq<E>, k: nat)
    requires k < |elements| && conv.keysFrom(elements[k]).ConversionFailed?
    requires forall i :: 0 <= i < |elements| && i != k ==> SingleKey(conv, elements[i])
    ensures |Imported(conv, elements)| == |elements| - 1
  {
    FailedElementSkipped(conv, elements, k);
    SingleKeyBatch(conv, elements[..k]);
    SingleKeyBatch(conv, elements[k + 1..]);
  }

  /** What the handler returns and the sub-operation it submits to the store. */
  datatype Handled<K, V> = Handled(output: Option<()>, submitted: ImportKeyValuePairs<K, V>)

  /**
   * `doOperation`: builds the import sub-operation over the flatMap of the
   * input and returns null (its result type is Void).
   */
  function DoOperation<E, K, V>(conv: Converter<E, K, V>, elements: seq<E>): (r: Handled<K, V>)
    ensures r.output == None
    ensures r.submitted.input == Imported(conv, elements)
    ensures r.submitted.outputPath == OutputPath
    ensures |r.submitted.input| <= 2 * |elements|
  {
    Handled(None, ImportKeyValuePairs(Imported(conv, elements), OutputPath))
  }
}
