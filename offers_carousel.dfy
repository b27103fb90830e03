/** The index arithmetic of the offers carousel
    (src/conponents/carrouesel/OffersCarousel.tsx). `current` is a
    JavaScript number; `n` is the length of the offer list in the render
    whose handler runs. */
module OffersCarousel {
  import opened Wrappers

  /** JavaScript's `a % n` for `n > 0`: the remainder truncates toward
      zero, so it takes the sign of `a`. */
  function JsRem(a: int, n: int): (r: int)
    requires n > 0
    ensures -n < r < n
    ensures a >= 0 ==> r >= 0
    ensures a <= 0 ==> r <= 0
    ensures 0 <= a < n ==> r == a
    ensures (a - r) % n == 0
  {
    if a >= 0 then
      RemCongruent(a, n);
      a % n
    else
      RemCongruent(-a, n);
      -((-a) % n)
  }

  /** Dafny's remainder differs from its dividend by a multiple of `n`, in
      either direction. */
  lemma RemCongruent(x: int, n: int)
    requires n > 0
    ensures (x - x % n) % n == 0
    ensures (x % n - x) % n == 0
  {
    var q := x / n;
    assert x - x % n == n * q;
    MultipleMod(q, n);
    assert x % n - x == n * -q;
    MultipleMod(-q, n);
  }

  /** A multiple of `n` leaves no remainder. */
  lemma MultipleMod(q: int, n: int)
    requires n > 0
    ensures (n * q) % n == 0
  {
    var m := n * q;
    var d, e := m / n, m % n;
    assert m == n * d + e && 0 <= e < n;
    var k := q - d;
    assert n * k == e;
    if k >= 1 {
      MulAtLeast(n, k);
    } else if k <= -1 {
      MulAtLeast(n, -k);
    }
  }

  /** A positive multiple of `n` is at least `n`. */
  lemma {:induction false} MulAtLeast(n: int, k: int)
    requires n > 0 && k >= 1
    ensures n * k >= n
    decreases k
  {
    if k > 1 {
      MulAtLeast(n, k - 1);
      assert n * k == n * (k - 1) + n;
    }
  }

  /** `n % n` is 0 and a value in [n, 2n) loses one `n`. */
  lemma ModRange(x: int, n: int)
    requires 0 < n <= x < 2 * n
    ensures x % n == x - n
  {
    var q, r := x / n, x % n;
    assert x == n * q + r && 0 <= r < n;
    assert 0 < n * q < 2 * n;
    assert q == 1;
  }

  /** `current` as a JavaScript number: an integer, or NaN after `% 0`. */
  datatype Index = At(i: int) | NaN

  /** `nextSlide` as written: `(prev + 1) % ofertas.length`. */
  function NextAsWritten(cur: Index, n: nat): Index
  {
    match cur
    case NaN => NaN
    case At(i) => if n == 0 then NaN else At(JsRem(i + 1, n))
  }

  /** `prevSlide` as written: `(prev - 1 + ofertas.length) % ofertas.length`. */
  function PrevAsWritten(cur: Index, n: nat): Index
  {
    match cur
    case NaN => NaN
    case At(i) => if n == 0 then NaN else At(JsRem(i - 1 + n, n))
  }

  /** The slot `ofertas[current]` reads: `None` is `undefined`. */
  function Shown(cur: Index, n: nat): Option<nat>
  {
    match cur
    case At(i) => if 0 <= i < n then Some(i as nat) else None
    case NaN => None
  }

  /** The auto-advance interval is installed while the offer list is still
      empty. If it fires before the list arrives, `current` becomes NaN and
      no later press brings it back, so once offers are shown the render
      reads an undefined offer. */
  lemma AutoAdvanceBeforeLoad(n: nat)
    requires n > 0
    ensures NextAsWritten(At(0), 0) == NaN
    ensures NextAsWritten(NaN, n) == NaN && PrevAsWritten(NaN, n) == NaN
    ensures Shown(NextAsWritten(At(0), 0), n) == None
  {
  }

  /** `nextSlide` with the empty list guarded: the index is left alone. */
  function Next(i: int, n: nat): int
  {
    if n == 0 then i else JsRem(i + 1, n)
  }

  function Prev(i: int, n: nat): int
  {
    if n == 0 then i else JsRem(i - 1 + n, n)
  }

  /** On a non-empty list the guarded steps are the written ones. */
  lemma AgreesWhenNonEmpty(i: int, n: nat)
    requires n > 0
    ensures NextAsWritten(At(i), n) == At(Next(i, n))
    ensures PrevAsWritten(At(i), n) == At(Prev(i, n))
    ensures Next(i, 0) == i && Prev(i, 0) == i
  {
  }

  /** Next and previous of an in-range index, written out. */
  lemma StepValues(i: int, n: nat)
    requires 0 <= i < n
    ensures Next(i, n) == (if i == n - 1 then 0 else i + 1)
    ensures Prev(i, n) == (if i == 0 then n - 1 else i - 1)
  {
    if i == n - 1 {
      ModRange(i + 1, n);
    }
    if i > 0 {
      ModRange(i - 1 + n, n);
    }
  }

  /** Both steps stay in range, wrap at the ends and undo each other. */
  lemma Steps(i: int, n: nat)
    requires 0 <= i < n
    ensures 0 <= Next(i, n) < n && 0 <= Prev(i, n) < n
    ensures Next(n - 1, n) == 0 && Prev(0, n) == n - 1
    ensures Prev(Next(i, n), n) == i && Next(Prev(i, n), n) == i
  {
    StepValues(i, n);
    StepValues(n - 1, n);
    StepValues(0, n);
    StepValues(Next(i, n), n);
    StepValues(Prev(i, n), n);
  }

  /** `k` presses of the next button. */
  function Advance(i: int, n: nat, k: nat): int
  {
    if k == 0 then i else Next(Advance(i, n, k - 1), n)
  }

  /** Up to one full turn, `k` presses move `k` slides forward, wrapping
      once past the last slide. */
  lemma {:induction false} AdvanceSpec(i: int, n: nat, k: nat)
    requires 0 <= i < n && k <= n
    ensures Advance(i, n, k) == if i + k < n then i + k else i + k - n
  {
    if k > 0 {
      AdvanceSpec(i, n, k - 1);
      StepValues(Advance(i, n, k - 1), n);
    }
  }

  /** `n` presses of next come back to the starting slide. */
  lemma FullTurn(i: int, n: nat)
    requires 0 <= i < n
    ensures Advance(i, n, n) == i
  {
    AdvanceSpec(i, n, n);
  }

  class Carousel {
    var current: int

    constructor ()
      ensures current == 0
    {
      current := 0;
    }

    method NextSlide(n: nat)
      modifies this
      ensures current == Next(old(current), n)
      ensures 0 <= old(current) < n ==> 0 <= current < n
    {
      if 0 <= current < n {
        Steps(current, n);
      }
      if n != 0 {
        current := JsRem(current + 1, n);
      }
    }

    method PrevSlide(n: nat)
      modifies this
      ensures current == Prev(old(current), n)
      ensures 0 <= old(current) < n ==> 0 <= current < n
    {
      if 0 <= current < n {
        Steps(current, n);
      }
      if n != 0 {
        current := JsRem(current - 1 + n, n);
      }
    }
  }
}
