/** Rows and pages of a fixed size: where a page starts, which page a row is on, how many pages a
    number of rows needs.  Products and quotients are computed by counting pages. */
module Paging {
  function Min(a: nat, b: nat): nat { if a <= b then a else b }

  function Max(a: nat, b: nat): nat { if a >= b then a else b }

  /** Position of the first row of page k. */
  function Start(k: nat, size: nat): nat {
    if k == 0 then 0 else Start(k - 1, size) + size
  }

  /** The page of row n. */
  function PageOf(n: nat, size: nat): nat
    requires size > 0
  {
    if n < size then 0 else 1 + PageOf(n - size, size)
  }

  lemma {:induction false} PageOfBounds(n: nat, size: nat)
    requires size > 0
    ensures Start(PageOf(n, size), size) <= n < Start(PageOf(n, size) + 1, size)
  {
    if n >= size { PageOfBounds(n - size, size); }
  }

  lemma {:induction false} StartMonotone(a: nat, b: nat, size: nat)
    requires a <= b
    ensures Start(a, size) <= Start(b, size)
    ensures a < b ==> Start(a, size) + size <= Start(b, size)
  {
    if a < b {
      StartMonotone(a, b - 1, size);
    }
  }

  lemma {:induction false} StartIsProduct(k: nat, size: nat)
    ensures Start(k, size) == k * size
  {
    if k > 0 { StartIsProduct(k - 1, size); }
  }

  /** Number of pages for n rows. */
  function PagesFor(n: nat, size: nat): nat
    requires size > 0
  {
    (n + size - 1) / size
  }

  lemma PagesCover(n: nat, size: nat)
    requires size > 0
    ensures n <= Start(PagesFor(n, size), size)
    ensures n > 0 ==> PagesFor(n, size) > 0 && Start(PagesFor(n, size) - 1, size) < n
  {
    var p := PagesFor(n, size);
    StartIsProduct(p, size);
    if p > 0 { StartIsProduct(p - 1, size); }
  }

  lemma PageOfRow(n: nat, size: nat)
    requires size > 0
    ensures Start(n / size, size) <= n < Start(n / size + 1, size)
    ensures n % size == n - Start(n / size, size)
  {
    StartIsProduct(n / size, size);
  }

  /** The page of a row is determined by its bounds. */
  lemma PageIsUnique(a: nat, b: nat, n: nat, size: nat)
    requires Start(a, size) <= n < Start(a + 1, size) && Start(b, size) <= n < Start(b + 1, size)
    ensures a == b
  {
    if a < b { StartMonotone(a + 1, b, size); }
    if b < a { StartMonotone(b + 1, a, size); }
  }

  lemma PagesAre(p: nat, n: nat, size: nat)
    requires size > 0 && p > 0 && Start(p - 1, size) < n <= Start(p, size)
    ensures PagesFor(n, size) == p
  {
    var c := PagesFor(n, size);
    PagesCover(n, size);
    if c < p { StartMonotone(c, p - 1, size); }
    if p < c { StartMonotone(p, c - 1, size); }
  }

  lemma PagesMonotone(a: nat, b: nat, size: nat)
    requires size > 0 && a <= b
    ensures PagesFor(a, size) <= PagesFor(b, size)
  {
    PagesCover(a, size);
    PagesCover(b, size);
    if PagesFor(b, size) < PagesFor(a, size) { StartMonotone(PagesFor(b, size), PagesFor(a, size) - 1, size); }
  }

  /** The n-th row needs one more page than those before it exactly if it starts a page. */
  lemma NextPage(n: nat, size: nat)
    requires size > 1 && n > 0
    ensures PagesFor(n, size) == PagesFor(n - 1, size) + (if n % size == 1 then 1 else 0)
    ensures n % size == 1 ==> Start(PagesFor(n - 1, size), size) == n - 1
  {
    var k := n / size;
    PageOfRow(n, size);
    if n % size == 1 {
      if k > 0 { PagesAre(k, n - 1, size); }
      PagesAre(k + 1, n, size);
    } else if n % size == 0 {
      PagesAre(k, n - 1, size);
      PagesAre(k, n, size);
    } else {
      PagesAre(k + 1, n - 1, size);
      PagesAre(k + 1, n, size);
    }
  }

  lemma StartReflects(a: nat, b: nat, size: nat)
    requires Start(a, size) < Start(b, size)
    ensures a < b
  {
    if b <= a { StartMonotone(b, a, size); }
  }

  /** Counting pages is dividing: page and row of a position are quotient and remainder. */
  lemma PageOfIsQuotient(n: nat, size: nat)
    requires size > 0
    ensures PageOf(n, size) == n / size && n - Start(PageOf(n, size), size) == n % size
  {
    PageOfRow(n, size);
    PageOfBounds(n, size);
    PageIsUnique(PageOf(n, size), n / size, n, size);
  }

  lemma FloorBelowCeil(full: nat, pages: nat, n: nat, size: nat)
    requires size > 0 && Start(full, size) <= n <= Start(pages, size)
    ensures full <= pages
  {
    if pages < full { StartMonotone(pages, full, size); }
  }

  lemma {:induction false} StartAdds(a: nat, b: nat, size: nat)
    ensures Start(a + b, size) == Start(a, size) + Start(b, size)
  {
    if b > 0 { StartAdds(a, b - 1, size); }
  }

  lemma QuotientIs(a: nat, n: nat, q: nat)
    requires n > 0 && Start(q, n) <= a < Start(q, n) + n
    ensures a / n == q
  {
    PageOfRow(a, n);
    PageIsUnique(a / n, q, a, n);
  }

  /** The quotient of a sum: the quotients of its parts, and perhaps one more. */
  lemma QuotientOfSum(a: nat, b: nat, n: nat)
    requires n > 0
    ensures (a + b) / n == a / n + b / n + (if a % n + b % n >= n then 1 else 0)
  {
    var q, r := a / n + b / n, a % n + b % n;
    assert a + b == Start(q, n) + r && r < n + n by {
      PageOfRow(a, n);
      PageOfRow(b, n);
      StartAdds(a / n, b / n, n);
    }
    QuotientIs(a + b, n, if r >= n then q + 1 else q);
  }
}
