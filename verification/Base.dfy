/** Values shared by every part of the model: optional values, bytes and byte sequences. */
module Base {

  datatype Option<+T> = None | Some(value: T)

  newtype Byte = b: int | 0 <= b < 256

  /** The payload of one `Bytes` buffer. */
  type Bytes = seq<Byte>

  /** An error value; its kind never matters to the code modelled here. */
  type ErrorCode = nat

  function Min(a: nat, b: nat): nat {
    if a < b then a else b
  }

  /** All buffers of a list, one after the other. */
  function Flatten(bufs: seq<Bytes>): Bytes {
    if bufs == [] then [] else bufs[0] + Flatten(bufs[1..])
  }

  lemma Assoc(a: Bytes, b: Bytes, c: Bytes)
    ensures a + b + c == a + (b + c)
  {
  }

  lemma {:induction false} FlattenConcat(a: seq<Bytes>, b: seq<Bytes>)
    ensures Flatten(a + b) == Flatten(a) + Flatten(b)
  {
    if a == [] {
      assert a + b == b;
    } else {
      assert (a + b)[1..] == a[1..] + b;
      FlattenConcat(a[1..], b);
    }
  }

  lemma FlattenPush(a: seq<Bytes>, buf: Bytes)
    ensures Flatten(a + [buf]) == Flatten(a) + buf
  {
    FlattenConcat(a, [buf]);
    assert Flatten([buf]) == buf + Flatten([]);
  }

  /** `x` is what remains of `y` after leaving out some elements: same order, nothing added,
      nothing repeated. */
  ghost predicate Subsequence(x: Bytes, y: Bytes)
    decreases |y|
  {
    || x == []
    || (y != [] && x[|x| - 1] == y[|y| - 1] && Subsequence(x[..|x| - 1], y[..|y| - 1]))
    || (y != [] && Subsequence(x, y[..|y| - 1]))
  }

  lemma {:induction false} SubsequenceSize(x: Bytes, y: Bytes)
    requires Subsequence(x, y)
    ensures |x| <= |y|
    ensures |x| == |y| ==> x == y
    decreases |y|
  {
    if x != [] {
      if x[|x| - 1] == y[|y| - 1] && Subsequence(x[..|x| - 1], y[..|y| - 1]) {
        SubsequenceSize(x[..|x| - 1], y[..|y| - 1]);
        assert x == x[..|x| - 1] + [x[|x| - 1]];
        assert y == y[..|y| - 1] + [y[|y| - 1]];
      } else {
        SubsequenceSize(x, y[..|y| - 1]);
      }
    }
  }

  lemma {:induction false} SubsequenceGrow(x: Bytes, y: Bytes, z: Bytes)
    requires Subsequence(x, y)
    ensures Subsequence(x, y + z)
    decreases |z|
  {
    if z == [] {
      assert y + z == y;
    } else {
      SubsequenceGrow(x, y, z[..|z| - 1]);
      assert (y + z)[..|y + z| - 1] == y + z[..|z| - 1];
    }
  }

  lemma {:induction false} SubsequenceAppend(x: Bytes, y: Bytes, z: Bytes)
    requires Subsequence(x, y)
    ensures Subsequence(x + z, y + z)
    decreases |z|
  {
    if z == [] {
      assert x + z == x && y + z == y;
    } else {
      SubsequenceAppend(x, y, z[..|z| - 1]);
      assert (y + z)[..|y + z| - 1] == y + z[..|z| - 1];
      assert (x + z)[..|x + z| - 1] == x + z[..|z| - 1];
    }
  }

  /** Leaving out a middle part keeps a subsequence a subsequence. */
  lemma {:induction false} SubsequenceCut(a: Bytes, b: Bytes, c: Bytes, y: Bytes)
    requires Subsequence(a + b + c, y)
    ensures Subsequence(a + c, y)
    decreases |y|
  {
    var x := a + b + c;
    if a + c != [] {
      if y == [] {
        SubsequenceSize(x, y);
      } else if x[|x| - 1] == y[|y| - 1] && Subsequence(x[..|x| - 1], y[..|y| - 1]) {
        if c != [] {
          assert x[..|x| - 1] == a + b + c[..|c| - 1];
          SubsequenceCut(a, b, c[..|c| - 1], y[..|y| - 1]);
          assert (a + c)[..|a + c| - 1] == a + c[..|c| - 1];
        } else if b != [] {
          assert x[..|x| - 1] == a + b[..|b| - 1] + [];
          SubsequenceCut(a, b[..|b| - 1], [], y[..|y| - 1]);
          assert a + c == a + [];
        } else {
          assert x == a + c;
        }
      } else {
        SubsequenceCut(a, b, c, y[..|y| - 1]);
      }
    }
  }

  lemma SubsequenceFront(a: Bytes, b: Bytes, c: Bytes, y: Bytes)
    requires Subsequence(a + b + c, y)
    ensures Subsequence(a, y)
  {
    SubsequenceCut(a, b, c, y);
    assert a + c == a + c + [];
    SubsequenceCut(a, c, [], y);
    assert a + [] == a;
  }
}
