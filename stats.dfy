/** Stats replies of the broker and the keyed lookups every builder performs on them.

    A reply of `stats` or `stats-tube` is a mapping from stat name to value. The
    dashboard never inspects a value: it only turns it into text with Python's
    `str()`, which this model takes as a parameter `str: V -> string`. Looking up an
    absent key raises `KeyError`, and nothing in the program catches it. */
module Stats {

  /** A stats reply: stat name to value. */
  type Stats<V> = map<string, V>

  datatype Option<T> = None | Some(value: T)

  /** The exceptions that escape the dashboard's builders. */
  datatype Error =
    | KeyError(key: string)      // `stats[key]` on a key the reply does not hold
    | NotFound(tube: string)     // the broker answered a stats-tube request with NOT_FOUND

  /** Either the built value or the exception that ended the build. */
  datatype Result<T> = Ok(value: T) | Err(error: Error) {
    predicate IsFailure() {
      Err?
    }

    function PropagateFailure<U>(): Result<U>
      requires Err?
    {
      Err(error)
    }

    function Extract(): T
      requires Ok?
    {
      value
    }
  }

  /** One `(label, key)` pair of a builder's constant list. */
  datatype Field = Field(name: string, key: string)

  /** The keys of a list of fields, in order. */
  function Keys(fields: seq<Field>): seq<string> {
    seq(|fields|, i requires 0 <= i < |fields| => fields[i].key)
  }

  /** The labels of a list of fields, in order. */
  function Labels(fields: seq<Field>): seq<string> {
    seq(|fields|, i requires 0 <= i < |fields| => fields[i].name)
  }

  /** Every one of `keys` is present in `stats`. */
  predicate HasAll<V>(stats: Stats<V>, keys: seq<string>) {
    forall k | k in keys :: k in stats
  }

  /** The position of the first of `keys` that `stats` lacks, if any. */
  function FirstMissing<V>(stats: Stats<V>, keys: seq<string>): (r: Option<nat>)
    ensures r.None? <==> HasAll(stats, keys)
    ensures r.Some? ==> r.value < |keys| && keys[r.value] !in stats && HasAll(stats, keys[..r.value])
  {
    if keys == [] then None
    else if keys[0] !in stats then Some(0)
    else
      match FirstMissing(stats, keys[1..])
      case None => None
      case Some(i) =>
        assert keys[..i + 1] == [keys[0]] + keys[1..][..i];
        Some(i + 1)
  }

  /** `e` is the exception raised when `keys` are looked up in `stats` one by one,
      in order: the `KeyError` of the first absent key. */
  ghost predicate FirstKeyError<V>(stats: Stats<V>, keys: seq<string>, e: Error) {
    exists i | 0 <= i < |keys| :: keys[i] !in stats && HasAll(stats, keys[..i]) && e == KeyError(keys[i])
  }

  /** `[str(stats[k]) for k in keys]`: the values of `keys`, as text and in order, or
      the `KeyError` of the first absent key. */
  function LookupAll<V>(stats: Stats<V>, keys: seq<string>, str: V -> string): (r: Result<seq<string>>)
    ensures r.Ok? <==> HasAll(stats, keys)
    ensures r.Ok? ==> |r.value| == |keys| && forall j | 0 <= j < |keys| :: r.value[j] == str(stats[keys[j]])
    ensures r.Err? ==> FirstKeyError(stats, keys, r.error)
  {
    match FirstMissing(stats, keys)
    case Some(i) => Err(KeyError(keys[i]))
    case None => Ok(seq(|keys|, j requires 0 <= j < |keys| => str(stats[keys[j]])))
  }

  /** When every key is present, the lookups give exactly the text of each value, in order. */
  lemma LookupAllValues<V>(stats: Stats<V>, keys: seq<string>, str: V -> string, values: seq<string>)
    requires |values| == |keys|
    requires forall j | 0 <= j < |keys| :: keys[j] in stats && values[j] == str(stats[keys[j]])
    ensures LookupAll(stats, keys, str) == Ok(values)
  {
    forall k | k in keys ensures k in stats {
      var j :| 0 <= j < |keys| && keys[j] == k;
    }
    assert values == seq(|keys|, j requires 0 <= j < |keys| => str(stats[keys[j]]));
  }

  /** The first absent key is unique: an absent key with every key before it present
      is the one `FirstMissing` finds. */
  lemma FirstMissingAt<V>(stats: Stats<V>, keys: seq<string>, j: nat)
    requires j < |keys| && keys[j] !in stats && HasAll(stats, keys[..j])
    ensures FirstMissing(stats, keys) == Some(j)
  {
    var r := FirstMissing(stats, keys);
    assert r.Some?;
    assert forall k | 0 <= k < j :: keys[..j][k] == keys[k];
    assert forall k | 0 <= k < r.value :: keys[..r.value][k] == keys[k];
  }

  /** Looking keys up in two batches succeeds exactly when looking up all of them does. */
  lemma HasAllConcat<V>(stats: Stats<V>, a: seq<string>, b: seq<string>)
    ensures HasAll(stats, a + b) <==> HasAll(stats, a) && HasAll(stats, b)
  {
    if HasAll(stats, a) && HasAll(stats, b) {
      forall i | 0 <= i < |a + b| ensures (a + b)[i] in stats {
        if i >= |a| {
          assert (a + b)[i] == b[i - |a|];
        }
      }
    }
    if HasAll(stats, a + b) {
      forall i | 0 <= i < |a| ensures a[i] in stats {
        assert (a + b)[i] == a[i];
      }
      forall i | 0 <= i < |b| ensures b[i] in stats {
        assert (a + b)[|a| + i] == b[i];
      }
    }
  }

  /** Looking up `a` and then `b` raises what looking up `a + b` in one pass raises. */
  lemma FirstKeyErrorConcat<V>(stats: Stats<V>, a: seq<string>, b: seq<string>, e: Error)
    requires FirstKeyError(stats, a, e) || (HasAll(stats, a) && FirstKeyError(stats, b, e))
    ensures FirstKeyError(stats, a + b, e)
  {
    if FirstKeyError(stats, a, e) {
      var i :| 0 <= i < |a| && a[i] !in stats && HasAll(stats, a[..i]) && e == KeyError(a[i]);
      assert (a + b)[..i] == a[..i];
      assert (a + b)[i] == a[i];
    } else {
      var i :| 0 <= i < |b| && b[i] !in stats && HasAll(stats, b[..i]) && e == KeyError(b[i]);
      assert (a + b)[..|a| + i] == a + b[..i];
      HasAllConcat(stats, a, b[..i]);
      assert (a + b)[|a| + i] == b[i];
    }
  }

  /** The keys of two field lists placed one after the other. */
  lemma KeysConcat(f: seq<Field>, g: seq<Field>)
    ensures Keys(f + g) == Keys(f) + Keys(g)
  {
    assert forall i | 0 <= i < |f + g| :: Keys(f + g)[i] == (Keys(f) + Keys(g))[i];
  }
}
