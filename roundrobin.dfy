/**
 * Round-robin choice of the server a request goes to. The cursor starts at
 * -1 and, before every send to a non-empty target list of length L, becomes
 * (cursor + 1) % L, the modulo taken against the list's current length.
 */
module RoundRobin {

  /** The cursor after one send to a list of `len` targets (Python's `%` and Dafny's agree for len > 0). */
  function Advance(cursor: int, len: nat): (r: nat)
    requires len > 0
    ensures r < len
    ensures -1 <= cursor < len - 1 ==> r == cursor + 1
    ensures cursor == len - 1 ==> r == 0
  {
    (cursor + 1) % len
  }

  /** The indices used by k consecutive sends from cursor c to an unchanged list of length len. */
  function Visits(c: int, len: nat, k: nat): (r: seq<nat>)
    requires len > 0
    decreases k
  {
    if k == 0 then [] else [Advance(c, len)] + Visits(Advance(c, len), len, k - 1)
  }

  /** a % len is the remainder r of any decomposition a == q * len + r with 0 <= r < len. */
  lemma ModUnique(a: int, len: nat, q: int, r: int)
    requires len > 0 && a == q * len + r && 0 <= r < len
    ensures a % len == r
  {
    var d := q - a / len;
    assert d * len == a % len - r;
    if d != 0 {
      MulAwayFromZero(d, len);
    }
  }

  /** A non-zero multiple of len is at least len away from zero. */
  lemma {:induction false} MulAwayFromZero(d: int, len: nat)
    requires d != 0
    ensures d > 0 ==> d * len >= len
    ensures d < 0 ==> d * len + len <= 0
    decreases if d > 0 then d else -d
  {
    if d > 1 {
      MulAwayFromZero(d - 1, len);
      assert d * len == (d - 1) * len + len;
    } else if d < -1 {
      MulAwayFromZero(d + 1, len);
      assert d * len == (d + 1) * len - len;
    }
  }

  /** Adding i to a number shifts its remainder by i, wrapping once at len. */
  lemma ModShift(x: int, i: int, len: nat)
    requires len > 0 && 0 <= i < len
    ensures (x + i) % len == if x % len + i < len then x % len + i else x % len + i - len
  {
    var q, m := x / len, x % len;
    if m + i < len {
      ModUnique(x + i, len, q, m + i);
    } else {
      assert x + i == (q + 1) * len + (m + i - len);
      ModUnique(x + i, len, q + 1, m + i - len);
    }
  }

  /** The (j+1)-th of k consecutive sends from cursor c uses index (c + 1 + j) % len. */
  lemma {:induction false} VisitsAt(c: int, len: nat, k: nat)
    requires len > 0
    decreases k
    ensures |Visits(c, len, k)| == k
    ensures forall j :: 0 <= j < k ==> Visits(c, len, k)[j] == (c + 1 + j) % len
  {
    if k > 0 {
      var n := Advance(c, len);
      VisitsAt(n, len, k - 1);
      forall j | 0 <= j < k
        ensures Visits(c, len, k)[j] == (c + 1 + j) % len
      {
        if j > 0 {
          assert Visits(c, len, k)[j] == Visits(n, len, k - 1)[j - 1];
          ModDecompose(c + 1, j, len);
        }
      }
    }
  }

  /** (x % len + j) % len == (x + j) % len for every j >= 0. */
  lemma {:induction false} ModDecompose(x: int, j: nat, len: nat)
    requires len > 0
    ensures (x % len + j) % len == (x + j) % len
    decreases j
  {
    if j == 0 {
      ModUnique(x % len, len, 0, x % len);
    } else {
      ModDecompose(x, j - 1, len);
      ModStep(x % len + j - 1, len);
      ModStep(x + j - 1, len);
    }
  }

  /** (a + 1) % len is a % len + 1, or 0 when a % len is the last index. */
  lemma ModStep(a: int, len: nat)
    requires len > 0
    ensures (a + 1) % len == if a % len == len - 1 then 0 else a % len + 1
  {
    if len == 1 {
      ModUnique(a + 1, 1, a + 1, 0);
    } else {
      ModShift(a, 1, len);
    }
  }

  /** Starting from the initial cursor -1, the first len sends use indices 0, 1, ..., len - 1. */
  lemma FirstRound(len: nat)
    requires len > 0
    ensures |Visits(-1, len, len)| == len
    ensures forall i :: 0 <= i < len ==> Visits(-1, len, len)[i] == i
  {
    VisitsAt(-1, len, len);
    forall i | 0 <= i < len
      ensures Visits(-1, len, len)[i] == i
    {
      ModUnique(i, len, 0, i);
    }
  }

  /**
   * Any len consecutive sends to an unchanged list of length len, whatever
   * the cursor c they start from, use every index exactly once, each the
   * successor of the one before, wrapping from len - 1 to 0.
   */
  lemma RoundRobinWindow(c: int, len: nat)
    requires len > 0
    ensures |Visits(c, len, len)| == len
    ensures forall t :: 0 <= t < len ==> t in Visits(c, len, len)
    ensures forall i, j :: 0 <= i < j < len ==> Visits(c, len, len)[i] != Visits(c, len, len)[j]
    ensures forall i :: 0 <= i < len - 1 ==>
              Visits(c, len, len)[i + 1] == if Visits(c, len, len)[i] == len - 1 then 0 else Visits(c, len, len)[i] + 1
  {
    VisitsAt(c, len, len);
    var v := Visits(c, len, len);
    var m := (c + 1) % len;
    forall i | 0 <= i < len
      ensures v[i] == if m + i < len then m + i else m + i - len
    {
      ModShift(c + 1, i, len);
    }
    forall t | 0 <= t < len
      ensures t in v
    {
      var i := if t >= m then t - m else t - m + len;
      assert v[i] == t;
    }
    forall i, j | 0 <= i < j < len
      ensures v[i] != v[j]
    {
    }
    forall i | 0 <= i < len - 1
      ensures v[i + 1] == if v[i] == len - 1 then 0 else v[i] + 1
    {
      ModStep(c + 1 + i, len);
    }
  }

  /** Beyond the first round the order repeats: send j + len uses the index send j used. */
  lemma VisitsRepeat(c: int, len: nat, k: nat)
    requires len > 0
    ensures |Visits(c, len, k)| == k
    ensures forall j :: 0 <= j < k - len ==> Visits(c, len, k)[j + len] == Visits(c, len, k)[j]
  {
    VisitsAt(c, len, k);
    forall j | 0 <= j < k - len
      ensures Visits(c, len, k)[j + len] == Visits(c, len, k)[j]
    {
      var x := c + 1 + j;
      ModUnique(x + len, len, x / len + 1, x % len);
    }
  }
}
