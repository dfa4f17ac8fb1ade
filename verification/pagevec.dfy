/**
 * The page vector: a batch of up to fifteen page pointers collected so that
 * an operation can be applied to all of them at once.  `nr` counts the
 * slots in use, which are always the leading ones; the slots past `nr`
 * hold whatever they held before.
 */
module Pagevec {
  /** The number of page slots. */
  const PAGEVEC_SIZE := 15

  /** A page the vector refers to; pages are only stored and compared here. */
  datatype Page = Page(id: nat)

  /** `nr` is an unsigned char; `pages` always has its fifteen slots. */
  datatype Pagevec = Pagevec(nr: nat, cold: bool, drained: bool, pages: seq<Page>)

  /** A page vector whose count lies within its slots. */
  predicate Valid(pv: Pagevec) {
    pv.nr <= PAGEVEC_SIZE && |pv.pages| == PAGEVEC_SIZE
  }

  /** `pagevec_init`: empty, with the given coldness (any non-zero int is true) and not drained. */
  function Init(pv: Pagevec, cold: int): (r: Pagevec)
    requires |pv.pages| == PAGEVEC_SIZE
    ensures Valid(r) && Count(r) == 0 && Space(r) == PAGEVEC_SIZE
    ensures r.cold == (cold != 0) && !r.drained && r.pages == pv.pages
  {
    Pagevec(0, cold != 0, false, pv.pages)
  }

  /** `pagevec_reinit`: empty again, keeping coldness and the drained flag. */
  function Reinit(pv: Pagevec): (r: Pagevec)
    requires |pv.pages| == PAGEVEC_SIZE
    ensures Valid(r) && Count(r) == 0 && Space(r) == PAGEVEC_SIZE
    ensures r.cold == pv.cold && r.drained == pv.drained && r.pages == pv.pages
  {
    pv.(nr := 0)
  }

  /** `pagevec_count`: the number of pages held, at most the number of slots. */
  function Count(pv: Pagevec): (n: nat)
    ensures Valid(pv) ==> n <= PAGEVEC_SIZE
  {
    pv.nr
  }

  /** `pagevec_space`: the free slots, `PAGEVEC_SIZE - nr` in unsigned arithmetic. */
  function Space(pv: Pagevec): (n: nat)
    ensures n < 0x1_0000_0000
    ensures Valid(pv) ==> Count(pv) + n == PAGEVEC_SIZE
  {
    (PAGEVEC_SIZE - pv.nr) % 0x1_0000_0000
  }

  /**
   * `pagevec_add`: the page goes into the first free slot and the count
   * grows by one.  The result is the number of slots still free, which is
   * zero exactly when this page filled the vector.  The source writes past
   * the array when the vector is already full, so callers must not do that.
   */
  function Add(pv: Pagevec, page: Page): (r: (Pagevec, nat))
    requires Valid(pv) && pv.nr < PAGEVEC_SIZE
    ensures Valid(r.0) && Count(r.0) == Count(pv) + 1
    ensures r.0.pages[pv.nr] == page
    ensures forall i :: 0 <= i < PAGEVEC_SIZE && i != pv.nr ==> r.0.pages[i] == pv.pages[i]
    ensures r.0.cold == pv.cold && r.0.drained == pv.drained
    ensures r.1 == Space(r.0) && (r.1 == 0 <==> Count(r.0) == PAGEVEC_SIZE)
  {
    var next := pv.(pages := pv.pages[pv.nr := page], nr := pv.nr + 1);
    (next, Space(next))
  }

  /**
   * `pagevec_release`: the pages are handed to `__pagevec_release` only when
   * there are some.  That routine is not part of this model; the result says
   * whether it is called.
   */
  function Release(pv: Pagevec): (called: bool)
    ensures called <==> Count(pv) != 0
  {
    pv.nr != 0
  }

  /** The vector after adding `added` one page at a time. */
  function AddAll(pv: Pagevec, added: seq<Page>): (r: Pagevec)
    requires Valid(pv) && pv.nr + |added| <= PAGEVEC_SIZE
    ensures Valid(r)
    decreases |added|
  {
    if added == [] then pv
    else AddAll(Add(pv, added[0]).0, added[1..])
  }

  /**
   * The pages held are exactly the pages added, in order: adding a batch
   * to an emptied vector fills its leading slots with that batch and leaves
   * the rest of the slots as they were.
   */
  lemma {:induction false} AddAllHolds(pv: Pagevec, added: seq<Page>)
    requires Valid(pv) && pv.nr + |added| <= PAGEVEC_SIZE
    ensures var r := AddAll(pv, added);
      Count(r) == Count(pv) + |added| &&
      r.pages == pv.pages[..pv.nr] + added + pv.pages[Count(r)..] &&
      r.cold == pv.cold && r.drained == pv.drained
    decreases |added|
  {
    var n := pv.nr;
    if added == [] {
      assert pv.pages == pv.pages[..n] + pv.pages[n..];
    } else {
      var next := Add(pv, added[0]).0;
      assert next.pages == pv.pages[n := added[0]] && next.nr == n + 1;
      assert next.cold == pv.cold && next.drained == pv.drained;
      AddAllHolds(next, added[1..]);
      var r := AddAll(pv, added);
      assert r == AddAll(next, added[1..]);
      SlotThenRest(pv.pages, n, added[0], added[1..], Count(r));
      assert [added[0]] + added[1..] == added;
    }
  }

  /**
   * Writing `x` into slot `n` and then filling the following slots with
   * `ys` fills the slots from `n` on with `[x] + ys`.
   */
  lemma SlotThenRest(s: seq<Page>, n: nat, x: Page, ys: seq<Page>, m: nat)
    requires n < m <= |s| && m == n + 1 + |ys|
    ensures s[n := x][..n + 1] + ys + s[n := x][m..] == s[..n] + ([x] + ys) + s[m..]
  {
    assert s[n := x][..n + 1] == s[..n] + [x];
    assert s[n := x][m..] == s[m..];
  }

  /** Filling an initialised vector with fifteen pages leaves no space, and releasing it calls `__pagevec_release`. */
  lemma FullAfterFifteen(pv: Pagevec, cold: int, added: seq<Page>)
    requires |pv.pages| == PAGEVEC_SIZE && |added| == PAGEVEC_SIZE
    ensures var r := AddAll(Init(pv, cold), added);
      Space(r) == 0 && r.pages == added && Release(r)
  {
    var r := AddAll(Init(pv, cold), added);
    AddAllHolds(Init(pv, cold), added);
    assert r.pages == [] + added + [];
  }
}
