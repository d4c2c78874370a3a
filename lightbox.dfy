/** The lightbox gallery: a grid of `n` thumbnails and a modal that shows one
    of them. Its only state is `openIndex`, which is `None` while the modal is
    closed and `Some(i)` while item `i` is shown. */
module Lightbox {
  import opened Optional

  type OpenIndex = Option<nat>

  /** The open index, if any, names one of the `n` items. */
  predicate InRange(n: nat, s: OpenIndex) {
    s.Some? ==> s.value < n
  }

  // ---------------------------------------------------------------------
  // The updaters behind `next` and `prev`
  // ---------------------------------------------------------------------

  /** The `next` updater. A closed gallery opens at the first item. An open
      one moves forward one item and wraps from the last item to the first.
      The arguments of `%` are never negative here, so JavaScript's
      truncating `%` and Dafny's Euclidean `%` agree. */
  function NextIndex(n: nat, s: OpenIndex): (r: OpenIndex)
    requires s.Some? ==> n > 0
    ensures r.Some?
    ensures s.None? ==> r.value == 0
    ensures s.Some? && s.value < n ==>
              r.value == if s.value + 1 < n then s.value + 1 else 0
    ensures n > 0 ==> InRange(n, r)
  {
    match s
    case None => Some(0)
    case Some(i) => Some((i + 1) % n)
  }

  /** The `prev` updater. A closed gallery opens at the first item. An open
      one moves back one item and wraps from the first item to the last. */
  function PrevIndex(n: nat, s: OpenIndex): (r: OpenIndex)
    requires s.Some? ==> n > 0
    ensures r.Some?
    ensures s.None? ==> r.value == 0
    ensures s.Some? && s.value < n ==>
              r.value == if s.value > 0 then s.value - 1 else n - 1
    ensures n > 0 ==> InRange(n, r)
  {
    match s
    case None => Some(0)
    case Some(i) => Some((i - 1 + n) % n)
  }

  /** `next` and `prev` undo each other on an open gallery. */
  lemma NextUndoesPrev(n: nat, i: nat)
    requires i < n
    ensures NextIndex(n, PrevIndex(n, Some(i))) == Some(i)
    ensures PrevIndex(n, NextIndex(n, Some(i))) == Some(i)
  {
  }

  /** With a single item, `next` and `prev` stay on it. */
  lemma SingleItemFixed(s: OpenIndex)
    requires InRange(1, s) && s.Some?
    ensures NextIndex(1, s) == s && PrevIndex(1, s) == s
  {
  }

  // ---------------------------------------------------------------------
  // Repeated steps: the cycle property
  // ---------------------------------------------------------------------

  /** `k` applications of `next`. */
  function NextTimes(n: nat, s: OpenIndex, k: nat): (r: OpenIndex)
    requires n > 0
    decreases k
  {
    if k == 0 then s else NextTimes(n, NextIndex(n, s), k - 1)
  }

  /** `k` applications of `prev`. */
  function PrevTimes(n: nat, s: OpenIndex, k: nat): (r: OpenIndex)
    requires n > 0
    decreases k
  {
    if k == 0 then s else PrevTimes(n, PrevIndex(n, s), k - 1)
  }

  /** A remainder is determined by any quotient-remainder decomposition. */
  lemma ModOfDecomposition(x: int, n: int, q: int, r: int)
    requires n > 0 && 0 <= r < n && x == q * n + r
    ensures x % n == r
  {
    var q' := x / n;
    assert x == q' * n + x % n;
    if q > q' {
      MulAtLeast(q - q', n);
    } else if q < q' {
      MulAtLeast(q' - q, n);
    }
  }

  lemma MulAtLeast(d: int, n: int)
    requires d >= 1 && n > 0
    ensures d * n >= n
  {
  }

  /** Adding `m` to a remainder and reducing again is reducing the sum. */
  lemma ModAdd(x: int, m: int, n: int)
    requires n > 0
    ensures (x % n + m) % n == (x + m) % n
  {
    var q, r := x / n, x % n;
    var q2, r2 := (r + m) / n, (r + m) % n;
    assert r + m == q2 * n + r2;
    assert x + m == (q + q2) * n + r2;
    ModOfDecomposition(x + m, n, q + q2, r2);
  }

  /** Adding the divisor does not change a remainder. */
  lemma ModPlusDivisor(x: int, n: int)
    requires n > 0
    ensures (x + n) % n == x % n
  {
    ModOfDecomposition(x + n, n, x / n + 1, x % n);
  }

  /** `k` steps forward from item `i` land on item `(i + k) % n`. */
  lemma {:induction false} NextTimesLandsAt(n: nat, i: nat, k: nat)
    requires i < n
    ensures NextTimes(n, Some(i), k) == Some((i + k) % n)
    decreases k
  {
    if k == 0 {
      ModOfDecomposition(i, n, 0, i);
    } else {
      var j := (i + 1) % n;
      assert NextIndex(n, Some(i)) == Some(j);
      NextTimesLandsAt(n, j, k - 1);
      ModAdd(i + 1, k - 1, n);
    }
  }

  /** `k` steps back from item `i` land on item `(i - k) mod n`. */
  lemma {:induction false} PrevTimesLandsAt(n: nat, i: nat, k: nat)
    requires i < n
    ensures PrevTimes(n, Some(i), k) == Some((i - k) % n)
    decreases k
  {
    if k == 0 {
      ModOfDecomposition(i, n, 0, i);
    } else {
      var j := (i - 1 + n) % n;
      assert PrevIndex(n, Some(i)) == Some(j);
      PrevTimesLandsAt(n, j, k - 1);
      assert PrevTimes(n, Some(i), k) == Some((j - (k - 1)) % n);
      ModAdd(i - 1 + n, -(k - 1), n);
      assert (j - (k - 1)) % n == ((i - k) + n) % n;
      ModPlusDivisor(i - k, n);
    }
  }

  /** Going `n` steps forward, or `n` steps back, returns to the same item. */
  lemma FullCycle(n: nat, i: nat)
    requires i < n
    ensures NextTimes(n, Some(i), n) == Some(i)
    ensures PrevTimes(n, Some(i), n) == Some(i)
  {
    NextTimesLandsAt(n, i, n);
    ModOfDecomposition(i + n, n, 1, i);
    PrevTimesLandsAt(n, i, n);
    ModOfDecomposition(i - n, n, -1, i);
  }

  // ---------------------------------------------------------------------
  // The keyboard handler
  // ---------------------------------------------------------------------

  const Escape: string := "Escape"
  const ArrowRight: string := "ArrowRight"
  const ArrowLeft: string := "ArrowLeft"

  /** One keydown. The listener is attached only while the modal is open, so
      a closed gallery ignores every key. Escape closes, ArrowRight and
      ArrowLeft step, and any other key changes nothing. */
  function OnKey(n: nat, s: OpenIndex, key: string): (r: OpenIndex)
    requires s.Some? ==> n > 0
    ensures s.None? ==> r.None?
    ensures s.Some? && key == Escape ==> r.None?
    ensures s.Some? && key == ArrowRight ==> r == NextIndex(n, s)
    ensures s.Some? && key == ArrowLeft ==> r == PrevIndex(n, s)
    ensures key != Escape && key != ArrowRight && key != ArrowLeft ==> r == s
    ensures InRange(n, s) ==> InRange(n, r)
  {
    if s.None? then s
    else if key == Escape then None
    else if key == ArrowRight then NextIndex(n, s)
    else if key == ArrowLeft then PrevIndex(n, s)
    else s
  }

  /** A sequence of keydowns, handled in order. */
  function OnKeys(n: nat, s: OpenIndex, keys: seq<string>): (r: OpenIndex)
    requires n > 0
    decreases |keys|
  {
    if keys == [] then s else OnKeys(n, OnKey(n, s, keys[0]), keys[1..])
  }

  /** The same key pressed `k` times. */
  function Presses(key: string, k: nat): (r: seq<string>)
    ensures |r| == k && forall j :: 0 <= j < k ==> r[j] == key
  {
    seq(k, _ => key)
  }

  /** No key sequence reopens a closed gallery. */
  lemma {:induction false} ClosedIgnoresKeys(n: nat, keys: seq<string>)
    requires n > 0
    ensures OnKeys(n, None, keys) == None
    decreases |keys|
  {
    if keys != [] {
      ClosedIgnoresKeys(n, keys[1..]);
    }
  }

  /** Every key sequence keeps the open index on an item. */
  lemma {:induction false} KeysStayInRange(n: nat, s: OpenIndex, keys: seq<string>)
    requires n > 0 && InRange(n, s)
    ensures InRange(n, OnKeys(n, s, keys))
    decreases |keys|
  {
    if keys != [] {
      KeysStayInRange(n, OnKey(n, s, keys[0]), keys[1..]);
    }
  }

  /** Pressing ArrowRight `k` times on an open gallery is `k` steps of
      `next`; pressing ArrowLeft `k` times is `k` steps of `prev`. */
  lemma {:induction false} ArrowPressesStep(n: nat, i: nat, k: nat)
    requires i < n
    ensures OnKeys(n, Some(i), Presses(ArrowRight, k)) == NextTimes(n, Some(i), k)
    ensures OnKeys(n, Some(i), Presses(ArrowLeft, k)) == PrevTimes(n, Some(i), k)
    decreases k
  {
    if k > 0 {
      assert Presses(ArrowRight, k)[1..] == Presses(ArrowRight, k - 1);
      assert Presses(ArrowLeft, k)[1..] == Presses(ArrowLeft, k - 1);
      ArrowPressesStep(n, NextIndex(n, Some(i)).value, k - 1);
      ArrowPressesStep(n, PrevIndex(n, Some(i)).value, k - 1);
    }
  }

  /** Pressing ArrowRight (or ArrowLeft) `n` times returns to the same item. */
  lemma ArrowKeysCycle(n: nat, i: nat)
    requires i < n
    ensures OnKeys(n, Some(i), Presses(ArrowRight, n)) == Some(i)
    ensures OnKeys(n, Some(i), Presses(ArrowLeft, n)) == Some(i)
  {
    ArrowPressesStep(n, i, n);
    FullCycle(n, i);
  }

  /** With three items opened at the first: two ArrowRights reach the last
      item, a third wraps to the first, and Escape closes. */
  lemma ThreeItemWalk()
    ensures OnKeys(3, Some(0), [ArrowRight, ArrowRight]) == Some(2)
    ensures OnKeys(3, Some(0), [ArrowRight, ArrowRight, ArrowRight]) == Some(0)
    ensures OnKeys(3, Some(0), [ArrowRight, ArrowRight, ArrowRight, Escape]) == None
  {
    var keys := [ArrowRight, ArrowRight, ArrowRight, Escape];
    assert keys[1..] == [ArrowRight, ArrowRight, Escape];
    assert keys[2..] == [ArrowRight, Escape];
    assert keys[3..] == [Escape];
    assert OnKeys(3, Some(0), keys) == OnKeys(3, Some(1), keys[1..]);
    assert OnKeys(3, Some(1), keys[1..]) == OnKeys(3, Some(2), keys[2..]);
    assert OnKeys(3, Some(2), keys[2..]) == OnKeys(3, Some(0), keys[3..]);
    assert OnKeys(3, Some(0), keys[3..]) == OnKeys(3, None, []);
    var two := [ArrowRight, ArrowRight];
    assert two[1..] == [ArrowRight];
    assert OnKeys(3, Some(0), two) == OnKeys(3, Some(1), two[1..]);
    assert OnKeys(3, Some(1), two[1..]) == OnKeys(3, Some(2), []);
    var three := [ArrowRight, ArrowRight, ArrowRight];
    assert three[1..] == two;
    assert OnKeys(3, Some(0), three) == OnKeys(3, Some(1), two);
    assert OnKeys(3, Some(1), two) == OnKeys(3, Some(2), two[1..]);
    assert OnKeys(3, Some(2), two[1..]) == OnKeys(3, Some(0), []);
  }

  // ---------------------------------------------------------------------
  // The component's handlers, acting on its `openIndex` state
  // ---------------------------------------------------------------------

  /** One `LightboxGallery` instance over `count` items. */
  class Gallery {
    const count: nat
    var openIndex: OpenIndex

    ghost predicate Valid()
      reads this
    {
      InRange(count, openIndex)
    }

    /** A new gallery starts closed. */
    constructor (count: nat)
      ensures this.count == count && openIndex.None? && Valid()
    {
      this.count := count;
      openIndex := None;
    }

    /** Clicking thumbnail `i` opens the modal on that item. */
    method Open(i: nat)
      requires Valid() && i < count
      modifies this
      ensures openIndex == Some(i) && Valid()
    {
      openIndex := Some(i);
    }

    /** The close button and Escape. */
    method Close()
      modifies this
      ensures openIndex.None? && Valid()
    {
      openIndex := None;
    }

    /** The `›` button and ArrowRight. */
    method Next()
      requires Valid() && count > 0
      modifies this
      ensures openIndex == NextIndex(count, old(openIndex)) && Valid()
    {
      openIndex := NextIndex(count, openIndex);
    }

    /** The `‹` button and ArrowLeft. */
    method Prev()
      requires Valid() && count > 0
      modifies this
      ensures openIndex == PrevIndex(count, old(openIndex)) && Valid()
    {
      openIndex := PrevIndex(count, openIndex);
    }

    /** The document keydown listener, which exists only while the modal is
        open; its three tests run one after the other. */
    method KeyDown(key: string)
      requires Valid()
      modifies this
      ensures openIndex == OnKey(count, old(openIndex), key) && Valid()
    {
      if openIndex.None? {
        return;
      }
      if key == Escape {
        Close();
      }
      if key == ArrowRight {
        Next();
      }
      if key == ArrowLeft {
        Prev();
      }
    }
  }
}
