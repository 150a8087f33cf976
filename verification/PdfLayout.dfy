/** Column widths, in exact reals, and row pagination of a PDF report (pdf_report.py). */
module PdfLayout {
  import opened Prelude

  function MinReal(a: real, b: real): real { if a <= b then a else b }

  function MaxReal(a: real, b: real): real { if a <= b then b else a }

  /** A column's weight: its longest sampled text, kept between 6 and 28 characters. */
  function Weight(longest: nat): real { Max(6, Min(longest, 28)) as real }

  function Weights(longest: seq<nat>): seq<real> {
    seq(|longest|, i requires 0 <= i < |longest| => Weight(longest[i]))
  }

  function Minimum(count: nat, available: real, themeMinimum: real): real
    requires count > 0
  {
    MinReal(themeMinimum, available / count as real)
  }

  /** The part of an amount that a share of a total receives. */
  function Portion(amount: real, share: real, total: real): real
    requires total != 0.0
  {
    amount * (share / total)
  }

  // ---- Portions -----------------------------------------------------------------------------

  lemma DivideBack(a: real, b: real)
    requires b != 0.0
    ensures a / b * b == a
  {}

  lemma QuotientAdds(x: real, y: real, total: real)
    requires total > 0.0
    ensures (x + y) / total == x / total + y / total
  {}

  lemma Distribute(a: real, x: real, y: real)
    ensures a * (x + y) == a * x + a * y
  {}

  lemma Scale(a: real, b: real, c: real)
    requires a <= b && c >= 0.0
    ensures a * c <= b * c
  {}

  lemma NotNegative(a: real, b: real)
    requires a >= 0.0 && b > 0.0
    ensures a / b >= 0.0
  {}

  lemma PortionAdds(amount: real, x: real, y: real, total: real)
    requires total > 0.0
    ensures Portion(amount, x + y, total) == Portion(amount, x, total) + Portion(amount, y, total)
  {
    QuotientAdds(x, y, total);
    Distribute(amount, x / total, y / total);
  }

  lemma PortionOfAll(amount: real, total: real)
    requires total > 0.0
    ensures Portion(amount, total, total) == amount && Portion(amount, 0.0, total) == 0.0
  {
    assert total / total == 1.0;
    assert 0.0 / total == 0.0;
  }

  lemma PortionNotNegative(amount: real, share: real, total: real)
    requires amount >= 0.0 && share >= 0.0 && total > 0.0
    ensures Portion(amount, share, total) >= 0.0
  {
    NotNegative(share, total);
    Scale(0.0, amount, share / total);
  }

  /** A part of an amount that is at most the total is at most the share. */
  lemma PortionWithin(amount: real, share: real, total: real)
    requires amount <= total && share >= 0.0 && total > 0.0
    ensures Portion(amount, share, total) <= share
  {
    NotNegative(share, total);
    Scale(amount, total, share / total);
    DivideBack(share, total);
  }

  lemma PortionGrows(amount: real, x: real, y: real, total: real)
    requires amount >= 0.0 && x <= y && total > 0.0
    ensures Portion(amount, x, total) <= Portion(amount, y, total)
  {
    PortionAdds(amount, x, y - x, total);
    PortionNotNegative(amount, y - x, total);
  }

  // ---- Sums of columns ----------------------------------------------------------------------

  function Portions(amount: real, shares: seq<real>, total: real): seq<real>
    requires total != 0.0
  {
    seq(|shares|, i requires 0 <= i < |shares| => Portion(amount, shares[i], total))
  }

  lemma {:induction false} SumOfPortions(amount: real, shares: seq<real>, total: real)
    requires total > 0.0
    ensures Sum(Portions(amount, shares, total)) == Portion(amount, Sum(shares), total)
  {
    hide Portion;
    if shares == [] {
      PortionOfAll(amount, total);
    } else {
      var n := |shares| - 1;
      SumOfPortions(amount, shares[..n], total);
      assert Portions(amount, shares, total)[..n] == Portions(amount, shares[..n], total);
      PortionAdds(amount, Sum(shares[..n]), shares[n], total);
    }
  }

  function Less(xs: seq<real>, ys: seq<real>): seq<real>
    requires |xs| == |ys|
  {
    seq(|xs|, i requires 0 <= i < |xs| => xs[i] - ys[i])
  }

  lemma {:induction false} SumOfLess(xs: seq<real>, ys: seq<real>)
    requires |xs| == |ys|
    ensures Sum(Less(xs, ys)) == Sum(xs) - Sum(ys)
  {
    if xs != [] {
      var n := |xs| - 1;
      SumOfLess(xs[..n], ys[..n]);
      assert Less(xs, ys)[..n] == Less(xs[..n], ys[..n]);
    }
  }

  lemma OneMore(x: real, n: nat)
    requires n > 0
    ensures x * n as real == x * (n - 1) as real + x
  {
    Distribute(x, (n - 1) as real, 1.0);
  }

  lemma NoCopies(x: real)
    ensures Sum(Copies(x, 0)) == x * 0 as real
  {}

  lemma CopiesOneMore(x: real, n: nat)
    requires n > 0
    ensures Copies(x, n) == Copies(x, n - 1) + [x]
  {}

  lemma SumOfOneMore(xs: seq<real>, x: real)
    ensures Sum(xs + [x]) == Sum(xs) + x
  {
    assert (xs + [x])[..|xs|] == xs;
  }

  lemma {:induction false} SumOfCopies(x: real, n: nat)
    ensures Sum(Copies(x, n)) == x * n as real
  {
    hide *;
    if n == 0 {
      NoCopies(x);
    } else {
      SumOfCopies(x, n - 1);
      CopiesOneMore(x, n);
      SumOfOneMore(Copies(x, n - 1), x);
      OneMore(x, n);
    }
  }

  lemma {:induction false} SumDominates(xs: seq<real>, ys: seq<real>)
    requires |xs| == |ys| && forall i :: 0 <= i < |xs| ==> xs[i] <= ys[i]
    ensures Sum(xs) <= Sum(ys)
  {
    if xs != [] { SumDominates(xs[..|xs| - 1], ys[..|ys| - 1]); }
  }

  lemma {:induction false} WeightsArePositive(longest: seq<nat>)
    requires longest != []
    ensures Sum(Weights(longest)) > 0.0
  {
    var n := |longest| - 1;
    assert Weights(longest)[..n] == Weights(longest[..n]);
    if n > 0 { WeightsArePositive(longest[..n]); } else { assert Weights(longest)[..0] == []; }
  }

  // ---- The redistribution -------------------------------------------------------------------

  function Widened(shares: seq<real>, minimum: real): seq<real> {
    seq(|shares|, i requires 0 <= i < |shares| => MaxReal(minimum, shares[i]))
  }

  function Room(widths: seq<real>, minimum: real): seq<real> {
    seq(|widths|, i requires 0 <= i < |widths| => MaxReal(0.0, widths[i] - minimum))
  }

  predicate AtLeast(widths: seq<real>, minimum: real) { forall i :: 0 <= i < |widths| ==> widths[i] >= minimum }

  /** No column is narrower than one of smaller or equal rank. */
  ghost predicate Ordered(widths: seq<real>, rank: seq<nat>) {
    |widths| == |rank|
    && forall i, j :: 0 <= i < |rank| && 0 <= j < |rank| && rank[i] <= rank[j] ==> widths[i] <= widths[j]
  }

  lemma RoomIsLess(widths: seq<real>, minimum: real)
    requires AtLeast(widths, minimum)
    ensures Room(widths, minimum) == Less(widths, Copies(minimum, |widths|))
  {}

  lemma RoomIsSlack(widths: seq<real>, minimum: real)
    requires AtLeast(widths, minimum)
    ensures Sum(Room(widths, minimum)) == Sum(widths) - minimum * |widths| as real
  {
    hide *;
    var floor := Copies(minimum, |widths|);
    RoomIsLess(widths, minimum);
    SumOfLess(widths, floor);
    SumOfCopies(minimum, |widths|);
  }

  lemma MinimaFit(minimum: real, available: real, n: real)
    requires n > 0.0 && minimum <= available / n
    ensures minimum * n <= available
  {
    DivideBack(available, n);
    Scale(minimum, available / n, n);
  }

  /** What the widened columns exceed the page by never exceeds the room they have above the minimum. */
  lemma OverflowFitsRoom(weights: seq<real>, available: real, minimum: real)
    requires Sum(weights) > 0.0 && weights != [] && minimum <= available / |weights| as real
    ensures var widths := Widened(Portions(available, weights, Sum(weights)), minimum);
            0.0 <= Sum(widths) - available <= Sum(Room(widths, minimum))
  {
    hide Sum, Portion;
    var shares := Portions(available, weights, Sum(weights));
    SumOfPortions(available, weights, Sum(weights));
    PortionOfAll(available, Sum(weights));
    hide Portions;
    WidenedFits(shares, minimum);
    MinimaFit(minimum, available, |weights| as real);
  }

  lemma WidenedFits(shares: seq<real>, minimum: real)
    ensures var widths := Widened(shares, minimum);
            Sum(shares) <= Sum(widths) && Sum(Room(widths, minimum)) == Sum(widths) - minimum * |shares| as real
  {
    hide Sum;
    SumDominates(shares, Widened(shares, minimum));
    RoomIsSlack(Widened(shares, minimum), minimum);
  }

  lemma WidenedOrdered(longest: seq<nat>, available: real, minimum: real)
    requires longest != [] && available >= 0.0 && Sum(Weights(longest)) > 0.0
    ensures Ordered(Widened(Portions(available, Weights(longest), Sum(Weights(longest))), minimum), longest)
  {
    hide Sum, Portion;
    var weights := Weights(longest);
    forall i, j | 0 <= i < |longest| && 0 <= j < |longest| && longest[i] <= longest[j]
      ensures Portion(available, weights[i], Sum(weights)) <= Portion(available, weights[j], Sum(weights))
    {
      PortionGrows(available, weights[i], weights[j], Sum(weights));
    }
  }

  /** No proportional share is below the theme's minimum. */
  predicate Roomy(longest: seq<nat>, available: real, themeMinimum: real) {
    Sum(Weights(longest)) > 0.0 && forall i :: 0 <= i < |longest| ==> Portions(available, Weights(longest), Sum(Weights(longest)))[i] >= themeMinimum
  }

  lemma RoomyIsProportional(longest: seq<nat>, available: real, themeMinimum: real)
    requires longest != [] && Roomy(longest, available, themeMinimum)
    ensures var shares := Portions(available, Weights(longest), Sum(Weights(longest)));
            Widened(shares, Minimum(|longest|, available, themeMinimum)) == shares && Sum(shares) == available
  {
    hide Sum, Portion;
    var weights := Weights(longest);
    SumOfPortions(available, weights, Sum(weights));
    PortionOfAll(available, Sum(weights));
  }

  /** A column weighs as much as its longest sampled text, but at least as 6 and at most as 28 characters. */
  lemma WeightIsClamped(longest: nat)
    ensures longest <= 6 ==> Weight(longest) == 6.0
    ensures 6 <= longest <= 28 ==> Weight(longest) == longest as real
    ensures longest >= 28 ==> Weight(longest) == 28.0
  {}

  /** Every width gives up its portion of the overflow. */
  function Shrunk(widths: seq<real>, minimum: real, overflow: real): seq<real>
    requires Sum(Room(widths, minimum)) > 0.0
  {
    var flexible := Room(widths, minimum);
    Less(widths, Portions(overflow, flexible, Sum(flexible)))
  }

  /** A width never gives up more than its room, and the order of the widths survives. */
  lemma NeverOverdrawn(widths: seq<real>, minimum: real, overflow: real, rank: seq<nat>)
    requires AtLeast(widths, minimum) && 0.0 < overflow <= Sum(Room(widths, minimum))
    ensures Sum(Shrunk(widths, minimum, overflow)) == Sum(widths) - overflow
    ensures AtLeast(Shrunk(widths, minimum, overflow), minimum)
    ensures Ordered(widths, rank) ==> Ordered(Shrunk(widths, minimum, overflow), rank)
  {
    hide Sum, Portion;
    var flexible := Room(widths, minimum);
    var room := Sum(flexible);
    SumOfLess(widths, Portions(overflow, flexible, room));
    SumOfPortions(overflow, flexible, room);
    PortionOfAll(overflow, room);
    forall i | 0 <= i < |widths| ensures Portion(overflow, flexible[i], room) <= widths[i] - minimum {
      PortionWithin(overflow, flexible[i], room);
    }
    forall i, j | 0 <= i < |widths| && 0 <= j < |widths| && widths[i] <= widths[j]
      ensures widths[i] - Portion(overflow, flexible[i], room) <= widths[j] - Portion(overflow, flexible[j], room)
    {
      PortionAdds(overflow, flexible[i], flexible[j] - flexible[i], room);
      PortionWithin(overflow, flexible[j] - flexible[i], room);
    }
  }

  /**
   * The widths fill the page exactly, none is below the minimum, and a longer column is never the narrower one. The
   * fallback for columns without any room is unreachable.
   */
  method ColumnWidths(longest: seq<nat>, available: real, themeMinimum: real) returns (widths: seq<real>)
    ensures |widths| == |longest|
    ensures longest != [] ==> Sum(widths) == available
    ensures forall i :: 0 <= i < |widths| ==> widths[i] >= themeMinimum || widths[i] >= available / |longest| as real
    ensures available >= 0.0 ==> Ordered(widths, longest)
    ensures longest != [] && Roomy(longest, available, themeMinimum) ==>
              widths == Portions(available, Weights(longest), Sum(Weights(longest)))
  {
    hide Sum, Portion, Shrunk;
    if longest == [] { return []; }
    var weights := Weights(longest);
    WeightsArePositive(longest);
    var minimum := Minimum(|longest|, available, themeMinimum);
    widths := Widened(Portions(available, weights, Sum(weights)), minimum);
    OverflowFitsRoom(weights, available, minimum);
    if Roomy(longest, available, themeMinimum) { RoomyIsProportional(longest, available, themeMinimum); }
    if available >= 0.0 { WidenedOrdered(longest, available, minimum); }
    var overflow := Sum(widths) - available;
    if overflow > 0.0 {
      var flexibleTotal := Sum(Room(widths, minimum));
      if flexibleTotal > 0.0 {
        NeverOverdrawn(widths, minimum, overflow, longest);
        widths := Redistribute(widths, minimum, overflow);
      } else {
        assert false;
      }
    }
    var last := |widths| - 1;
    ghost var before := widths;
    widths := widths[last := widths[last] + (available - Sum(widths))];
    assert widths == before;
  }

  method Redistribute(widths: seq<real>, minimum: real, overflow: real) returns (shrunk: seq<real>)
    requires Sum(Room(widths, minimum)) > 0.0
    ensures shrunk == Shrunk(widths, minimum, overflow) && |shrunk| == |widths|
  {
    var flexible := Room(widths, minimum);
    var total := Sum(flexible);
    shrunk := seq(|widths|, i requires 0 <= i < |widths| => widths[i] - overflow * (flexible[i] / total));
    assert shrunk == Less(widths, Portions(overflow, flexible, total)) by {
      forall i | 0 <= i < |widths| ensures shrunk[i] == widths[i] - Portion(overflow, flexible[i], total) {}
      hide Portion, Room, Sum;
    }
  }

  // ---- Pagination ---------------------------------------------------------------------------

  function Joined<T>(pages: seq<seq<T>>): seq<T> {
    if pages == [] then [] else Joined(pages[..|pages| - 1]) + pages[|pages| - 1]
  }

  lemma JoinedSnoc<T>(pages: seq<seq<T>>, page: seq<T>)
    ensures Joined(pages + [page]) == Joined(pages) + page
  {
    assert (pages + [page])[..|pages|] == pages;
  }

  lemma JoinedOne<T>(page: seq<T>)
    ensures Joined([page]) == page
  {
    assert [page][..0] == [];
  }

  /** Every row lands on exactly one page, in order; pages are full up to the last, and none but a sole one is empty. */
  method PaginateRows<T>(rows: seq<T>, first: nat, continuation: nat) returns (pages: seq<seq<T>>)
    requires first >= 1 && continuation >= 1
    ensures pages != [] && Joined(pages) == rows
    ensures forall p :: 0 <= p < |pages| ==> |pages[p]| <= if p == 0 then first else continuation
    ensures forall p :: 0 <= p < |pages| - 1 ==> |pages[p]| == if p == 0 then first else continuation
    ensures rows != [] ==> forall p :: 0 <= p < |pages| ==> pages[p] != []
  {
    hide Joined;
    if rows == [] {
      JoinedOne<T>([]);
      return [[]];
    }
    var cursor := first;
    pages := [rows[..Min(first, |rows|)]];
    JoinedOne(pages[0]);
    while cursor < |rows|
      invariant pages != [] && cursor >= first
      invariant Joined(pages) == rows[..Min(cursor, |rows|)]
      invariant forall p :: 0 <= p < |pages| ==> pages[p] != [] && |pages[p]| <= if p == 0 then first else continuation
      invariant forall p :: 0 <= p < |pages| - 1 ==> |pages[p]| == if p == 0 then first else continuation
      invariant cursor <= |rows| ==> |pages[|pages| - 1]| == if |pages| == 1 then first else continuation
      decreases |rows| - cursor
    {
      var end := Min(cursor + continuation, |rows|);
      JoinedSnoc(pages, rows[cursor..end]);
      pages := pages + [rows[cursor..end]];
      assert rows[..end] == rows[..cursor] + rows[cursor..end];
      cursor := cursor + continuation;
    }
    assert rows[..|rows|] == rows;
  }
}
