/** The size menu of an interactive launch: sorted, labelled and priced. */
module SizeMenu {
  import opened Ordering
  import Columns
  import Decimal

  datatype SizeInfo = SizeInfo(slug: string, category: string, vcpus: nat, memGb: nat, diskGb: nat,
                               hourly: real, currency: string)

  // ------------------------------------------------------------------ prices

  /** The hourly price in cents, rounded up. */
  function Cents(hourly: real): int {
    -((-hourly * 100.0).Floor)
  }

  function Price(hourly: real): real {
    Cents(hourly) as real / 100.0
  }

  /** The price shown never understates the hourly rate, nor overstates it by a
      cent or more. */
  lemma PriceIsTight(hourly: real)
    ensures hourly <= Price(hourly) < hourly + 0.01
  {
    var x := -hourly * 100.0;
    assert x.Floor as real <= x < x.Floor as real + 1.0;
    assert Cents(hourly) as real == -(x.Floor as real);
  }

  /** It is the lowest price in whole cents that does not understate. */
  lemma PriceIsLowest(hourly: real, cents: int)
    requires hourly <= cents as real / 100.0
    ensures Cents(hourly) <= cents
  {
    var x := -hourly * 100.0;
    assert x.Floor as real <= x;
    assert -(cents as real) <= x;
    assert x.Floor >= -cents;
  }

  /** `%.2f` of a price in whole cents. */
  function PriceText(cents: nat): string {
    Decimal.Digits(cents / 100) + "." + [Decimal.DigitChar(cents / 10 % 10), Decimal.DigitChar(cents % 10)]
  }

  /** Reads a price of the form `12.34`, in cents. */
  predicate ReadsAs(t: string, cents: int) {
    && |t| >= 4 && t[|t| - 3] == '.'
    && Decimal.AllDigits(t[..|t| - 3] + t[|t| - 2..])
    && Decimal.Magnitude(t[..|t| - 3] + t[|t| - 2..]) == cents
  }

  /** The text of a price reads back. */
  lemma PriceReadsBack(cents: nat)
    ensures ReadsAs(PriceText(cents), cents)
  {
    var whole, d, e := Decimal.Digits(cents / 100), cents / 10 % 10, cents % 10;
    Decimal.MagnitudeOfDigits(cents / 100);
    ReadDigits(whole, d, e);
    hide Decimal.Digits, Decimal.DigitChar, Decimal.Magnitude, Decimal.AllDigits;
    AroundThePoint(whole, [Decimal.DigitChar(d), Decimal.DigitChar(e)]);
    Places(cents);
  }

  lemma AroundThePoint(whole: string, places: string)
    requires |places| == 2
    ensures var t := whole + "." + places;
      t[|t| - 3] == '.' && t[..|t| - 3] == whole && t[|t| - 2..] == places
  {
  }

  lemma Places(cents: nat)
    ensures 100 * (cents / 100) + 10 * (cents / 10 % 10) + cents % 10 == cents
  {
  }

  lemma ReadDigits(whole: string, d: nat, e: nat)
    requires Decimal.AllDigits(whole) && d < 10 && e < 10
    ensures var s := whole + [Decimal.DigitChar(d), Decimal.DigitChar(e)];
      Decimal.AllDigits(s) && Decimal.Magnitude(s) == 100 * Decimal.Magnitude(whole) + 10 * d + e
  {
    hide Decimal.DigitChar;
    var s := whole + [Decimal.DigitChar(d), Decimal.DigitChar(e)];
    assert s[..|s| - 1] == whole + [Decimal.DigitChar(d)];
    assert s[..|s| - 1][..|s| - 2] == whole;
  }

  // ---------------------------------------------------------------- the order

  /** Cheapest first, then by slug. */
  predicate Before(a: SizeInfo, b: SizeInfo) {
    if a.hourly != b.hourly then a.hourly < b.hourly else StringLess(a.slug, b.slug)
  }

  ghost predicate InOrder(sizes: seq<SizeInfo>) {
    forall i, j :: 0 <= i < j < |sizes| ==> !Before(sizes[j], sizes[i])
  }

  ghost predicate DistinctSlugs(sizes: seq<SizeInfo>) {
    forall i, j :: 0 <= i < j < |sizes| ==> sizes[i].slug != sizes[j].slug
  }

  /** What the order means for any two rows: the upper one is cheaper, or costs the same
      and its slug does not sort later. */
  lemma CheapestFirst(menu: seq<SizeInfo>, i: nat, j: nat)
    requires InOrder(menu) && i < j < |menu|
    ensures menu[i].hourly <= menu[j].hourly
    ensures menu[i].hourly == menu[j].hourly ==>
      menu[i].slug == menu[j].slug || StringLess(menu[i].slug, menu[j].slug)
  {
    StringsTotal();
    assert !Before(menu[j], menu[i]);
    hide StringLess;
  }

  lemma BeforeIsOrder()
    ensures forall a, b :: Before(a, b) ==> !Before(b, a)
    ensures forall a, b, c :: !Before(b, a) && !Before(c, b) ==> !Before(c, a)
  {
    StringsTotal();
    forall a, b, c | !Before(b, a) && !Before(c, b) ensures !Before(c, a) {
      if a.hourly == b.hourly == c.hourly {
        NotLessTransitive(a.slug, b.slug, c.slug);
      }
    }
  }

  lemma NotLessTransitive(a: string, b: string, c: string)
    requires !StringLess(b, a) && !StringLess(c, b)
    ensures !StringLess(c, a)
  {
    StringsTotal();
    hide StringLess;
    assert a == b || StringLess(a, b);
    assert b == c || StringLess(b, c);
    assert a == c || StringLess(a, c);
  }

  /** Inserts one size behind all that do not come after it. */
  method InsertSize(sorted: seq<SizeInfo>, x: SizeInfo) returns (all: seq<SizeInfo>)
    requires InOrder(sorted)
    ensures InOrder(all) && multiset(all) == multiset(sorted) + multiset{x}
  {
    hide InOrder, Before;
    var at := |sorted|;
    while at > 0 && Before(x, sorted[at - 1])
      invariant 0 <= at <= |sorted|
      invariant forall i :: at <= i < |sorted| ==> Before(x, sorted[i])
    {
      at := at - 1;
    }
    InsertedInOrder(sorted, x, at);
    InsertedOnce(sorted, x, at);
    all := sorted[..at] + [x] + sorted[at..];
  }

  lemma InsertedInOrder(sorted: seq<SizeInfo>, x: SizeInfo, at: nat)
    requires InOrder(sorted) && at <= |sorted| && (at > 0 ==> !Before(x, sorted[at - 1]))
    requires forall i :: at <= i < |sorted| ==> Before(x, sorted[i])
    ensures InOrder(sorted[..at] + [x] + sorted[at..])
  {
    BeforeIsOrder();
    hide Before;
    forall i | 0 <= i < at ensures !Before(x, sorted[i]) {
      assert i < at - 1 ==> !Before(sorted[at - 1], sorted[i]);
    }
  }

  lemma InsertedOnce(sorted: seq<SizeInfo>, x: SizeInfo, at: nat)
    requires at <= |sorted|
    ensures multiset(sorted[..at] + [x] + sorted[at..]) == multiset(sorted) + multiset{x}
  {
    assert sorted == sorted[..at] + sorted[at..];
  }

  /** Sorts the sizes as the menu shows them. */
  method SortSizes(sizes: seq<SizeInfo>) returns (sorted: seq<SizeInfo>)
    ensures InOrder(sorted) && multiset(sorted) == multiset(sizes)
  {
    sorted := [];
    for n := 0 to |sizes|
      invariant InOrder(sorted) && multiset(sorted) == multiset(sizes[..n])
    {
      assert sizes[..n + 1] == sizes[..n] + [sizes[n]];
      sorted := InsertSize(sorted, sizes[n]);
    }
    assert sizes[..|sizes|] == sizes;
  }

  lemma SlugsStayDistinct(a: seq<SizeInfo>, b: seq<SizeInfo>)
    requires multiset(a) == multiset(b) && DistinctSlugs(a)
    ensures DistinctSlugs(b)
  {
    forall i, j | 0 <= i < j < |b| ensures b[i].slug != b[j].slug {
      if b[i] == b[j] {
        TwiceInMultiset(b, i, j);
        OnceInMultiset(a, b[i]);
      } else {
        assert b[i] in multiset(b) && b[j] in multiset(b);
        assert b[i] in a && b[j] in a;
      }
    }
  }

  lemma TwiceInMultiset(s: seq<SizeInfo>, i: nat, j: nat)
    requires i < j < |s| && s[i] == s[j]
    ensures multiset(s)[s[i]] >= 2
  {
    assert s == s[..j] + s[j..];
    assert s[i] in s[..j] && s[j] in s[j..];
    assert s[..j][i] == s[i] && s[j..][0] == s[j];
  }

  lemma {:induction false} OnceInMultiset(s: seq<SizeInfo>, x: SizeInfo)
    requires DistinctSlugs(s)
    ensures multiset(s)[x] <= 1
  {
    if s != [] {
      assert s == [s[0]] + s[1..];
      FirstIsAlone(s);
      OnceInMultiset(s[1..], x);
      hide DistinctSlugs;
    }
  }

  lemma FirstIsAlone(s: seq<SizeInfo>)
    requires DistinctSlugs(s) && s != []
    ensures DistinctSlugs(s[1..]) && s[0] !in s[1..]
  {
    assert forall k :: 0 <= k < |s[1..]| ==> s[1..][k] == s[k + 1] && s[k + 1].slug != s[0].slug;
  }

  /** The menu is a function of the set of sizes: any two orders in which the
      provider lists the same sizes, with distinct slugs, sort to the same menu. */
  lemma MenuIgnoresInputOrder(a: seq<SizeInfo>, b: seq<SizeInfo>, menuA: seq<SizeInfo>, menuB: seq<SizeInfo>)
    requires multiset(a) == multiset(b) && DistinctSlugs(a)
    requires InOrder(menuA) && multiset(menuA) == multiset(a)
    requires InOrder(menuB) && multiset(menuB) == multiset(b)
    ensures menuA == menuB
  {
    SlugsStayDistinct(a, menuA);
    SlugsStayDistinct(a, menuB);
    StrictlySorted(menuA);
    StrictlySorted(menuB);
    BeforeIsOrder();
    forall x ensures x in menuA <==> x in menuB {
      assert x in multiset(menuA) <==> x in multiset(menuB);
    }
    SortedUnique(Before, menuA, menuB);
  }

  lemma StrictlySorted(menu: seq<SizeInfo>)
    requires InOrder(menu) && DistinctSlugs(menu)
    ensures Sorted(Before, menu)
  {
    StringsTotal();
    forall i, j | 0 <= i < j < |menu| ensures Before(menu[i], menu[j]) {
      assert !Before(menu[j], menu[i]) && menu[i].slug != menu[j].slug;
    }
  }

  // ---------------------------------------------------------------- the menu

  function Cells(s: SizeInfo): (cells: seq<string>)
    requires s.hourly >= 0.0
    ensures |cells| == 6 && cells[0] == s.category && cells[5] == s.slug
    ensures cells[1] == Decimal.FormatInt(s.vcpus) + " vCPU"
    ensures cells[2] == Decimal.FormatInt(s.memGb) + " GB memory"
    ensures cells[3] == Decimal.FormatInt(s.diskGb) + " GB disk"
  {
    CentsNotNegative(s.hourly);
    [s.category, Decimal.FormatInt(s.vcpus) + " vCPU", Decimal.FormatInt(s.memGb) + " GB memory",
     Decimal.FormatInt(s.diskGb) + " GB disk", "~" + s.currency + PriceText(Cents(s.hourly)) + "/h", s.slug]
  }

  lemma CentsNotNegative(hourly: real)
    requires hourly >= 0.0
    ensures Cents(hourly) >= 0
  {
    PriceIsTight(hourly);
  }

  /** The price a row shows, read back from its text: between the currency and `/h` stands
      a price in whole cents that does not understate the hourly rate and is less than a
      cent above it. */
  lemma PriceShown(s: SizeInfo) returns (t: string, cents: int)
    requires s.hourly >= 0.0
    ensures Cells(s)[4] == "~" + s.currency + t + "/h" && ReadsAs(t, cents)
    ensures s.hourly <= cents as real / 100.0 < s.hourly + 0.01
  {
    CentsNotNegative(s.hourly);
    cents := Cents(s.hourly);
    t := PriceText(cents);
    PriceReadsBack(cents);
    PriceIsTight(s.hourly);
  }

  function MenuRows(sizes: seq<SizeInfo>): seq<seq<string>>
    requires forall k :: 0 <= k < |sizes| ==> sizes[k].hourly >= 0.0
  {
    seq(|sizes|, k requires 0 <= k < |sizes| => Cells(sizes[k]))
  }

  /** The cells of a size in a table whose columns have the given widths. */
  ghost predicate IsLabel(text: string, s: SizeInfo, widths: seq<nat>, width: Columns.Width) {
    && s.hourly >= 0.0 && Columns.Fits(width, Cells(s), widths)
    && text == Columns.TrimRight(Columns.Laid(width, Cells(s), widths, {1, 2, 3, 4}, 6))
  }

  /** Where the cells of a label stand: the numbers and the price end, and category and
      slug start, where those of every other label of the menu do. */
  lemma LabelLinesUp(text: string, s: SizeInfo, widths: seq<nat>, width: Columns.Width, whole: Columns.Whole, k: nat)
    returns (before: string, after: string)
    requires IsLabel(text, s, widths, width) && k < 6
    requires Columns.Additive(width, whole) && Columns.WholeCells(whole, Cells(s))
    ensures |widths| == 6 && text == Columns.TrimRight(before + Cells(s)[k] + after)
    ensures if 1 <= k <= 4 then width(before + Cells(s)[k]) == Columns.Sum(widths[..k]) + 2 * k + widths[k]
            else width(before) == Columns.Sum(widths[..k]) + 2 * k
    ensures k == 5 ==> after == ""
  {
    hide Columns.Additive, Columns.WholeCells, Columns.Laid, Columns.TrimRight, Columns.Sum;
    before, after := Columns.CellsLineUp(width, whole, Cells(s), widths, {1, 2, 3, 4}, k);
  }

  /** One aligned row per size; the numbers and the price are right-aligned. */
  method SizeRows(sizes: seq<SizeInfo>, width: Columns.Width) returns (labels: seq<string>, ghost widths: seq<nat>)
    requires forall k :: 0 <= k < |sizes| ==> sizes[k].hourly >= 0.0
    ensures |labels| == |sizes|
    ensures forall k :: 0 <= k < |sizes| ==> IsLabel(labels[k], sizes[k], widths, width)
    ensures sizes != [] ==> Columns.Widest(width, MenuRows(sizes), widths)
  {
    var rows := MenuRows(sizes);
    labels, widths := Columns.Columns(rows, {1, 2, 3, 4}, width);
    hide Columns.Laid, Columns.TrimRight, Columns.Fits;
    forall k | 0 <= k < |sizes| ensures IsLabel(labels[k], sizes[k], widths, width) {
      assert rows[k] == Cells(sizes[k]) && |Cells(sizes[k])| == 6;
    }
  }

  /** One labelled option per size and the lookup by slug. */
  method SizeOptions(sizes: seq<SizeInfo>, width: Columns.Width)
    returns (menu: seq<SizeInfo>, labels: seq<string>, bySlug: map<string, SizeInfo>, ghost widths: seq<nat>)
    requires forall k :: 0 <= k < |sizes| ==> sizes[k].hourly >= 0.0
    ensures InOrder(menu) && multiset(menu) == multiset(sizes) && |labels| == |menu|
    ensures forall k :: 0 <= k < |menu| ==> menu[k].hourly >= 0.0 && IsLabel(labels[k], menu[k], widths, width)
    ensures menu != [] ==> Columns.Widest(width, MenuRows(menu), widths)
    ensures forall k :: 0 <= k < |menu| ==> menu[k].slug in bySlug
    ensures forall slug :: slug in bySlug ==> bySlug[slug] in menu && bySlug[slug].slug == slug
  {
    hide *;
    menu := SortSizes(sizes);
    SamePricesShown(sizes, menu);
    labels, widths := SizeRows(menu, width);
    bySlug := BySlug(menu);
  }

  lemma SamePricesShown(sizes: seq<SizeInfo>, menu: seq<SizeInfo>)
    requires multiset(menu) == multiset(sizes) && forall k :: 0 <= k < |sizes| ==> sizes[k].hourly >= 0.0
    ensures forall k :: 0 <= k < |menu| ==> menu[k].hourly >= 0.0
  {
    forall k | 0 <= k < |menu| ensures menu[k].hourly >= 0.0 {
      assert menu[k] in multiset(sizes);
    }
  }

  /** The lookup by slug; of two sizes with one slug the later wins. */
  method BySlug(menu: seq<SizeInfo>) returns (bySlug: map<string, SizeInfo>)
    ensures forall k :: 0 <= k < |menu| ==> menu[k].slug in bySlug
    ensures forall slug :: slug in bySlug ==> bySlug[slug] in menu && bySlug[slug].slug == slug
  {
    bySlug := map[];
    for k := 0 to |menu|
      invariant forall j :: 0 <= j < k ==> menu[j].slug in bySlug
      invariant forall slug :: slug in bySlug ==> bySlug[slug] in menu && bySlug[slug].slug == slug
    {
      bySlug := bySlug[menu[k].slug := menu[k]];
    }
  }

  /** Two different sizes with one slug. */
  ghost predicate SharedSlug(menu: seq<SizeInfo>) {
    exists i, j :: 0 <= i < |menu| && 0 <= j < |menu| && menu[i].slug == menu[j].slug && menu[i] != menu[j]
  }

  /** Looking the chosen slug up gives the row that was shown, for every row,
      exactly when no two different sizes share a slug. */
  lemma LookupGivesTheRowShown(menu: seq<SizeInfo>, bySlug: map<string, SizeInfo>)
    requires forall k :: 0 <= k < |menu| ==> menu[k].slug in bySlug
    requires forall slug :: slug in bySlug ==> bySlug[slug] in menu && bySlug[slug].slug == slug
    ensures (forall k :: 0 <= k < |menu| ==> bySlug[menu[k].slug] == menu[k]) <==> !SharedSlug(menu)
  {
    if !SharedSlug(menu) {
      forall k | 0 <= k < |menu| ensures bySlug[menu[k].slug] == menu[k] {
        var j :| 0 <= j < |menu| && menu[j] == bySlug[menu[k].slug];
      }
    } else {
      var i, j :| 0 <= i < |menu| && 0 <= j < |menu| && menu[i].slug == menu[j].slug && menu[i] != menu[j];
      assert bySlug[menu[i].slug] == bySlug[menu[j].slug];
    }
  }
}
