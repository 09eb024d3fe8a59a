/**
 * The transport controller's arithmetic: the repeat-mode cycle, the
 * wrap-around next/previous indices and the index picked under shuffle.
 */
module Transport {
  import opened Seqs

  /** The repeat modes in cycle order, as the player stores them. */
  const Modes: seq<string> := ["none", "one", "all"]

  /**
   * toggleRepeat's choice: the mode after `mode` in Modes, wrapping around.
   * A mode that is not in the list has position -1, so it goes to the first.
   */
  function NextRepeatMode(mode: string): (next: string)
    ensures next in Modes
    ensures mode == "none" ==> next == "one"
    ensures mode == "one" ==> next == "all"
    ensures mode == "all" ==> next == "none"
    ensures mode !in Modes ==> next == "none"
  {
    var k := IndexOf(Modes, mode);
    assert Modes[0] == "none" && Modes[1] == "one" && Modes[2] == "all";
    Modes[(k + 1) % |Modes|]
  }

  /** Three toggles bring any recognised mode back; an unrecognised one ends at "all". */
  lemma RepeatModePeriod(mode: string)
    ensures mode in Modes ==> NextRepeatMode(NextRepeatMode(NextRepeatMode(mode))) == mode
    ensures mode !in Modes ==> NextRepeatMode(NextRepeatMode(NextRepeatMode(mode))) == "all"
  {
    assert mode in Modes ==> mode == "none" || mode == "one" || mode == "all";
  }

  /** playNext without shuffle: one step forward, wrapping after the last index. */
  function NextIndex(i: nat, n: nat): (j: nat)
    requires n > 0
    ensures j < n
    ensures i + 1 < n ==> j == i + 1
    ensures i + 1 == n ==> j == 0
  {
    (i + 1) % n
  }

  /** playPrevious without shuffle: one step back, wrapping before index 0. */
  function PreviousIndex(i: nat, n: nat): (j: nat)
    requires n > 0
    ensures j < n
    ensures 0 < i <= n ==> j == i - 1
    ensures i == 0 ==> j == n - 1
  {
    (i - 1 + n) % n
  }

  lemma {:induction false} MulAtLeast(d: nat, n: int)
    requires d >= 1 && n > 0
    ensures d * n >= n
  {
    if d > 1 {
      MulAtLeast(d - 1, n);
      assert d * n == (d - 1) * n + n;
    }
  }

  /** x mod n is determined by any decomposition x == q * n + r with 0 <= r < n. */
  lemma ModUnique(x: int, n: int, q: int, r: int)
    requires n > 0 && 0 <= r < n && x == q * n + r
    ensures x % n == r
  {
    var q0, r0 := x / n, x % n;
    assert x == q0 * n + r0;
    if q0 != q {
      var d := if q0 < q then q - q0 else q0 - q;
      assert d * n == if q0 < q then q * n - q0 * n else q0 * n - q * n;
      MulAtLeast(d, n);
    }
  }

  /** Stepping forward from i lands where stepping forward from i mod n does. */
  lemma NextIndexMod(i: nat, n: nat)
    requires n > 0
    ensures NextIndex(i, n) == NextIndex(i % n, n)
  {
    var q := i / n;
    assert i == q * n + i % n;
    if i % n + 1 < n {
      ModUnique(i + 1, n, q, i % n + 1);
    } else {
      ModUnique(i + 1, n, q + 1, 0);
    }
  }

  /** Previous undoes next, for any starting index, stale ones included. */
  lemma PreviousUndoesNext(i: nat, n: nat)
    requires n > 0
    ensures PreviousIndex(NextIndex(i, n), n) == i % n
  {
    NextIndexMod(i, n);
  }

  /** Next undoes previous, for any starting index, stale ones included. */
  lemma NextUndoesPrevious(i: nat, n: nat)
    requires n > 0
    ensures NextIndex(PreviousIndex(i, n), n) == i % n
  {
    var q := i / n;
    assert i == q * n + i % n;
    if i % n == 0 {
      ModUnique(i - 1 + n, n, q, n - 1);
    } else {
      ModUnique(i - 1 + n, n, q + 1, i % n - 1);
    }
  }

  /**
   * The index shuffle picks, Math.floor(rand * n), from the value rand
   * that Math.random() returned: always a valid index.
   */
  function ShuffleIndex(rand: real, n: nat): (j: nat)
    requires 0.0 <= rand < 1.0 && n > 0
    ensures j < n
  {
    var x := rand * n as real;
    assert 0.0 <= x < n as real by {
      assert rand * n as real < 1.0 * n as real;
    }
    x.Floor
  }
}
