/** Shared vocabulary of the household model: optional values, typed
    failures, the identifiers the record store hands out, and one summation
    fact both expense ledgers rely on. */
module Common {

  /** A value that may be absent: JavaScript's `undefined`/`null`. */
  datatype Option<+T> = None | Some(value: T)

  /** The outcome of a handler: a payload, or the typed failure it answers with. */
  datatype Result<+T, +E> = Ok(value: T) | Err(error: E)

  /** Store identifiers (Mongo ObjectIds) are compared for equality only. */
  type UserId = int
  type HouseId = int
  type RecordId = int

  /** A clock reading (milliseconds since the epoch); the clock itself is a parameter. */
  type Time = int

  /** No identifier occurs twice in `ids`. */
  predicate Distinct(ids: seq<int>)
  {
    forall i, j :: 0 <= i < j < |ids| ==> ids[i] != ids[j]
  }

  /** The sum over `ids` of "`a` for the entry equal to `x`, zero otherwise". */
  function Indicator(ids: seq<int>, x: int, a: real): real
  {
    if ids == [] then 0.0 else (if ids[0] == x then a else 0.0) + Indicator(ids[1..], x, a)
  }

  /** Over distinct identifiers the indicator sum picks `a` exactly once, or
      not at all when `x` is absent. */
  lemma {:induction false} IndicatorValue(ids: seq<int>, x: int, a: real)
    requires Distinct(ids)
    ensures Indicator(ids, x, a) == if x in ids then a else 0.0
  {
    if ids != [] {
      assert Distinct(ids[1..]) by {
        forall i, j | 0 <= i < j < |ids[1..]| ensures ids[1..][i] != ids[1..][j] {
          assert ids[1..][i] == ids[i + 1] && ids[1..][j] == ids[j + 1];
        }
      }
      IndicatorValue(ids[1..], x, a);
      if ids[0] == x {
        assert x !in ids[1..] by {
          forall k | 0 <= k < |ids[1..]| ensures ids[1..][k] != x {
            assert ids[1..][k] == ids[k + 1];
          }
        }
      } else {
        assert x in ids <==> x in ids[1..] by {
          assert ids == [ids[0]] + ids[1..];
        }
      }
    }
  }

  /** The keys of a list, in order. */
  function KeysOf<T>(xs: seq<T>, key: T -> int): (r: seq<int>)
    ensures |r| == |xs| && forall i :: 0 <= i < |xs| ==> r[i] == key(xs[i])
  {
    seq(|xs|, i requires 0 <= i < |xs| => key(xs[i]))
  }

  /** `list.filter(x => x.id !== k)`: the elements with another key, in
      their order. */
  function Drop<T>(xs: seq<T>, key: T -> int, k: int): (r: seq<T>)
    ensures |r| <= |xs|
    ensures forall i :: 0 <= i < |r| ==> r[i] in xs && key(r[i]) != k
    ensures forall i :: 0 <= i < |xs| && key(xs[i]) != k ==> xs[i] in r
  {
    if xs == [] then []
    else (if key(xs[0]) == k then [] else [xs[0]]) + Drop(xs[1..], key, k)
  }

  /** Dropping a key nobody has leaves the list as it was. */
  lemma {:induction false} DropAbsent<T>(xs: seq<T>, key: T -> int, k: int)
    requires forall i :: 0 <= i < |xs| ==> key(xs[i]) != k
    ensures Drop(xs, key, k) == xs
  {
    if xs != [] {
      DropAbsent(xs[1..], key, k);
    }
  }

  /** When no other element shares the key of the `i`-th, dropping that key
      removes exactly the `i`-th element, keeping the order of the rest. */
  lemma {:induction false} DropAt<T>(xs: seq<T>, key: T -> int, i: nat)
    requires i < |xs|
    requires forall j :: 0 <= j < |xs| && j != i ==> key(xs[j]) != key(xs[i])
    ensures Drop(xs, key, key(xs[i])) == xs[..i] + xs[i + 1..]
  {
    var k := key(xs[i]);
    var tail := xs[1..];
    if i == 0 {
      forall j | 0 <= j < |tail| ensures key(tail[j]) != k {
        assert tail[j] == xs[j + 1];
      }
      DropAbsent(tail, key, k);
    } else {
      assert tail[i - 1] == xs[i];
      forall j | 0 <= j < |tail| && j != i - 1 ensures key(tail[j]) != k {
        assert tail[j] == xs[j + 1];
      }
      DropAt(tail, key, i - 1);
      calc {
        Drop(xs, key, k);
        [xs[0]] + Drop(tail, key, k);
        { assert tail[..i - 1] == xs[1..i] && tail[i..] == xs[i + 1..]; }
        [xs[0]] + (xs[1..i] + xs[i + 1..]);
        { assert [xs[0]] + xs[1..i] == xs[..i]; }
        xs[..i] + xs[i + 1..];
      }
    }
  }

  /** With distinct keys, dropping the key of the `i`-th element removes
      that element and no other, keeping the order of the rest. */
  lemma DropUnique<T>(xs: seq<T>, key: T -> int, i: nat)
    requires i < |xs|
    requires Distinct(KeysOf(xs, key))
    ensures Drop(xs, key, key(xs[i])) == xs[..i] + xs[i + 1..]
  {
    forall j | 0 <= j < |xs| && j != i ensures key(xs[j]) != key(xs[i]) {
      if j < i {
        assert KeysOf(xs, key)[j] != KeysOf(xs, key)[i];
      } else {
        assert KeysOf(xs, key)[i] != KeysOf(xs, key)[j];
      }
    }
    DropAt(xs, key, i);
  }

  /** `list.findIndex(x => x.id === k)`: the first position holding key
      `k`, if any. */
  function FindIndex<T>(xs: seq<T>, key: T -> int, k: int): (r: Option<nat>)
    ensures r.Some? ==> r.value < |xs| && key(xs[r.value]) == k
    ensures r.Some? ==> forall j :: 0 <= j < r.value ==> key(xs[j]) != k
    ensures r.None? ==> forall j :: 0 <= j < |xs| ==> key(xs[j]) != k
  {
    if xs == [] then None
    else if key(xs[0]) == k then Some(0)
    else match FindIndex(xs[1..], key, k)
      case None => None
      case Some(i) => Some(i + 1)
  }

  /** Appending an element whose key is new keeps the keys distinct. */
  lemma DistinctKeysSnoc<T>(xs: seq<T>, key: T -> int, x: T)
    requires Distinct(KeysOf(xs, key))
    requires forall i :: 0 <= i < |xs| ==> key(xs[i]) != key(x)
    ensures Distinct(KeysOf(xs + [x], key))
  {
    var ys := xs + [x];
    forall i, j | 0 <= i < j < |ys| ensures key(ys[i]) != key(ys[j]) {
      if j < |xs| {
        assert KeysOf(xs, key)[i] != KeysOf(xs, key)[j];
      }
    }
  }

  /** Removing one element keeps the keys distinct. */
  lemma DistinctKeysRemove<T>(xs: seq<T>, key: T -> int, i: nat)
    requires i < |xs|
    requires Distinct(KeysOf(xs, key))
    ensures Distinct(KeysOf(xs[..i] + xs[i + 1..], key))
  {
    var ys := xs[..i] + xs[i + 1..];
    forall a, b | 0 <= a < b < |ys| ensures key(ys[a]) != key(ys[b]) {
      var a', b' := if a < i then a else a + 1, if b < i then b else b + 1;
      assert ys[a] == xs[a'] && ys[b] == xs[b'];
      assert KeysOf(xs, key)[a'] != KeysOf(xs, key)[b'];
    }
  }
}
