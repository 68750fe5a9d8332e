/** The retained top routes of a streamed search. */
module Ranking {
  import opened Routing

  /** Where a stable descending sort puts a newcomer pushed at the end of a sorted list. */
  function Slot(top: seq<RouteQuote>, amount: nat): (i: nat)
    ensures i <= |top|
    ensures forall j :: 0 <= j < i ==> top[j].amountOut >= amount
    ensures i < |top| ==> top[i].amountOut < amount
  {
    if top == [] || top[0].amountOut < amount then 0 else 1 + Slot(top[1..], amount)
  }

  predicate HasPath(top: seq<RouteQuote>, path: Path) {
    exists i :: 0 <= i < |top| && top[i].path == path
  }

  function InsertAt(top: seq<RouteQuote>, i: nat, x: RouteQuote): (r: seq<RouteQuote>)
    requires i <= |top|
    ensures |r| == |top| + 1
    ensures forall j {:trigger r[j]} :: 0 <= j < |r| ==> r[j] == if j < i then top[j] else if j == i then x else top[j - 1]
  {
    top[..i] + [x] + top[i..]
  }

  function Truncated(top: seq<RouteQuote>, k: nat): seq<RouteQuote> {
    if |top| > k then top[..k] else top
  }

  /** `record_top_route`: ignore a known path, otherwise insert by amount and keep the first `k`. */
  function Record(top: seq<RouteQuote>, quote: RouteQuote, k: nat): seq<RouteQuote> {
    if HasPath(top, quote.path) then top
    else
      var i := Slot(top, quote.amountOut);
      Truncated(InsertAt(top, i, quote), k)
  }

  /** The newcomer's one-based rank, when it entered the retained list. */
  function Rank(top: seq<RouteQuote>, quote: RouteQuote, k: nat): Option<nat> {
    if HasPath(top, quote.path) then None
    else
      var rank := Slot(top, quote.amountOut) + 1;
      if rank <= k then Some(rank) else None
  }

  ghost predicate Sorted(top: seq<RouteQuote>) {
    forall i, j :: 0 <= i < j < |top| ==> top[i].amountOut >= top[j].amountOut
  }

  ghost predicate PathDistinct(top: seq<RouteQuote>) {
    forall i, j :: 0 <= i < j < |top| ==> top[i].path != top[j].path
  }

  /** Within one search a path determines its quote. */
  ghost predicate PathDetermines(seen: seq<RouteQuote>) {
    forall i, j :: 0 <= i < |seen| && 0 <= j < |seen| && seen[i].path == seen[j].path ==> seen[i] == seen[j]
  }

  /** `s` is retained, or `k` routes at least as good are. */
  ghost predicate Beaten(top: seq<RouteQuote>, k: nat, s: RouteQuote) {
    s in top || (|top| == k && k > 0 && top[k - 1].amountOut >= s.amountOut)
  }

  /** `top` is a correct list of the `k` best among the distinct paths of `seen`. */
  ghost predicate TopK(top: seq<RouteQuote>, seen: seq<RouteQuote>, k: nat) {
    && Sorted(top) && PathDistinct(top) && |top| <= k
    && (forall i :: 0 <= i < |top| ==> top[i] in seen)
    && (forall j :: 0 <= j < |seen| ==> Beaten(top, k, seen[j]))
  }

  lemma RecordKeepsTopK(top: seq<RouteQuote>, seen: seq<RouteQuote>, quote: RouteQuote, k: nat)
    requires k > 0 && TopK(top, seen, k) && PathDetermines(seen + [quote])
    ensures TopK(Record(top, quote, k), seen + [quote], k)
  {
    hide InsertAt, Slot, Truncated, PathDetermines, Sorted, PathDistinct, Beaten, HasPath;
    var seen' := seen + [quote];
    if HasPath(top, quote.path) {
      KnownPath(top, seen, quote, k);
    } else {
      var i := Slot(top, quote.amountOut);
      Inserted(top, quote, i);
      var top' := Truncated(InsertAt(top, i, quote), k);
      ShortenedKeeps(top, quote, i, k);
      forall j | 0 <= j < |seen'| ensures Beaten(top', k, seen'[j]) {
        assert j == |seen| ==> seen'[j] == quote;
        InsertBeats(top, quote, i, k, seen'[j]);
      }
      forall j | 0 <= j < |top'| ensures top'[j] in seen' {
        assert top'[j] in top' && seen'[|seen|] == quote;
      }
    }
  }

  /** Cutting the tail off keeps order and distinctness, and brings nothing new. */
  lemma ShortenedKeeps(top: seq<RouteQuote>, quote: RouteQuote, i: nat, k: nat)
    requires i <= |top| && Sorted(InsertAt(top, i, quote)) && PathDistinct(InsertAt(top, i, quote))
    ensures var top' := Truncated(InsertAt(top, i, quote), k);
            Sorted(top') && PathDistinct(top') && |top'| <= k && forall x :: x in top' ==> x == quote || x in top
  {
    hide InsertAt;
    var full := InsertAt(top, i, quote);
    forall x | x in Truncated(full, k) ensures x == quote || x in top {
      var j :| 0 <= j < |full| && full[j] == x;
    }
  }

  /** The rank told to the caller is the newcomer's place in the new list, counted from one; no rank, no place. */
  lemma RankIsPlace(top: seq<RouteQuote>, quote: RouteQuote, k: nat)
    requires |top| <= k
    ensures Rank(top, quote, k).Some? ==>
              var r := Rank(top, quote, k).value;
              && 1 <= r <= |Record(top, quote, k)| && Record(top, quote, k)[r - 1] == quote && !HasPath(top, quote.path)
              && (forall i :: 0 <= i < r - 1 ==> Record(top, quote, k)[i].amountOut >= quote.amountOut)
              && (forall i :: r <= i < |Record(top, quote, k)| ==> Sorted(top) ==> Record(top, quote, k)[i].amountOut < quote.amountOut)
    ensures Rank(top, quote, k).None? ==> Record(top, quote, k) == top
  {
    hide InsertAt;
    if !HasPath(top, quote.path) {
      var i := Slot(top, quote.amountOut);
      var full := InsertAt(top, i, quote);
      assert full[i] == quote;
      if i >= k {
        assert i == |top| == k && full[..k] == top;
      }
    }
  }

  lemma KnownPath(top: seq<RouteQuote>, seen: seq<RouteQuote>, quote: RouteQuote, k: nat)
    requires TopK(top, seen, k) && PathDetermines(seen + [quote]) && HasPath(top, quote.path)
    ensures TopK(top, seen + [quote], k)
  {
  }

  lemma Inserted(top: seq<RouteQuote>, quote: RouteQuote, i: nat)
    requires Sorted(top) && PathDistinct(top) && !HasPath(top, quote.path) && i == Slot(top, quote.amountOut)
    ensures Sorted(InsertAt(top, i, quote)) && PathDistinct(InsertAt(top, i, quote))
  {
  }

  lemma InsertBeats(top: seq<RouteQuote>, quote: RouteQuote, i: nat, k: nat, s: RouteQuote)
    requires k > 0 && |top| <= k && Sorted(top) && i == Slot(top, quote.amountOut)
    requires Sorted(InsertAt(top, i, quote))
    requires s == quote || Beaten(top, k, s)
    ensures Beaten(Truncated(InsertAt(top, i, quote), k), k, s)
  {
    hide InsertAt, Slot;
    var full := InsertAt(top, i, quote);
    if s == quote || s in top {
      var j := i;
      if s != quote {
        var m :| 0 <= m < |top| && top[m] == s;
        j := if m < i then m else m + 1;
      }
      assert full[j] == s;
      KeptOrBeaten(full, k, j);
    } else {
      assert |top| == k;
      assert full[k - 1].amountOut >= s.amountOut;
      assert Truncated(full, k)[k - 1] == full[k - 1];
    }
  }

  lemma KeptOrBeaten(full: seq<RouteQuote>, k: nat, j: nat)
    requires k > 0 && Sorted(full) && j < |full|
    ensures Beaten(Truncated(full, k), k, full[j])
  {
  }

  /** The first retained route changes only to a strictly better one. */
  lemma RecordHead(top: seq<RouteQuote>, quote: RouteQuote, k: nat)
    requires k > 0 && Sorted(top)
    ensures |Record(top, quote, k)| > 0
    ensures top != [] && (quote.amountOut <= top[0].amountOut || HasPath(top, quote.path)) ==> Record(top, quote, k)[0] == top[0]
    ensures (top == [] || quote.amountOut > top[0].amountOut) && !HasPath(top, quote.path) ==> Record(top, quote, k)[0] == quote
  {
  }

  /** The paths of a list, as a set with one element per entry when paths are distinct. */
  ghost function PathSet(top: seq<RouteQuote>): set<Path> {
    set x | x in top :: x.path
  }

  lemma {:induction false} PathSetSize(top: seq<RouteQuote>)
    requires PathDistinct(top)
    ensures |PathSet(top)| == |top|
  {
    if top != [] {
      var n := |top| - 1;
      PathSetSize(top[..n]);
      assert top == top[..n] + [top[n]];
      assert PathSet(top) == PathSet(top[..n]) + {top[n].path};
      assert top[n].path !in PathSet(top[..n]);
    }
  }

  lemma AllFit(a: seq<RouteQuote>, b: seq<RouteQuote>)
    requires PathDistinct(a) && PathDistinct(b) && forall i :: 0 <= i < |a| ==> a[i] in b
    ensures |a| <= |b|
  {
    PathSetSize(a);
    PathSetSize(b);
    assert PathSet(a) <= PathSet(b);
    assert PathSet(b) == PathSet(a) + (PathSet(b) - PathSet(a));
  }

  ghost predicate SameRoutes(seen: seq<RouteQuote>, seen': seq<RouteQuote>) {
    (forall x :: x in seen ==> x in seen') && (forall x :: x in seen' ==> x in seen)
  }

  lemma NoBetterAt(a: seq<RouteQuote>, b: seq<RouteQuote>, seen: seq<RouteQuote>, k: nat, i: nat)
    requires TopK(b, seen, k) && Sorted(a) && PathDistinct(a) && |a| <= k
    requires forall j :: 0 <= j < |a| ==> a[j] in seen
    requires i < |a|
    ensures i < |b| && a[i].amountOut <= b[i].amountOut
  {
    var a' := a[..i + 1];
    forall j | 0 <= j < |a'| ensures Beaten(b, k, a'[j]) {
      assert a'[j] == a[j] && a[j] in seen;
    }
    hide TopK;
    TopShape(b, seen, k);
    if |b| < k {
      AllFit(a', b);
    }
    var b' := b[..i];
    assert exists j :: 0 <= j < |a'| && a'[j] !in b' by {
      if forall j :: 0 <= j < |a'| ==> a'[j] in b' {
        AllFit(a', b');
      }
    }
    var j :| 0 <= j < |a'| && a'[j] !in b';
    AmountBeaten(b, k, i, a'[j]);
    assert a'[j] == a[j];
  }

  lemma TopShape(b: seq<RouteQuote>, seen: seq<RouteQuote>, k: nat)
    requires TopK(b, seen, k)
    ensures Sorted(b) && PathDistinct(b) && |b| <= k
  {
  }

  lemma AmountBeaten(b: seq<RouteQuote>, k: nat, i: nat, x: RouteQuote)
    requires Sorted(b) && i < |b| <= k && Beaten(b, k, x) && x !in b[..i]
    ensures x.amountOut <= b[i].amountOut
  {
  }

  lemma TopFacts(a: seq<RouteQuote>, seen: seq<RouteQuote>, seen': seq<RouteQuote>, k: nat)
    requires TopK(a, seen, k) && SameRoutes(seen, seen')
    ensures Sorted(a) && PathDistinct(a) && |a| <= k && SameRoutes(seen', seen)
    ensures forall j :: 0 <= j < |a| ==> a[j] in seen'
  {
  }

  /** The retained amounts do not depend on the order in which routes were observed. */
  lemma OrderIndependent(a: seq<RouteQuote>, b: seq<RouteQuote>, seen: seq<RouteQuote>, seen': seq<RouteQuote>, k: nat)
    requires TopK(a, seen, k) && TopK(b, seen', k) && SameRoutes(seen, seen')
    ensures |a| == |b| && forall i :: 0 <= i < |a| ==> a[i].amountOut == b[i].amountOut
  {
    hide TopK, SameRoutes;
    TopFacts(a, seen, seen', k);
    TopFacts(b, seen', seen, k);
    forall i | 0 <= i < |a| ensures i < |b| && a[i].amountOut <= b[i].amountOut {
      NoBetterAt(a, b, seen', k, i);
    }
    forall i | 0 <= i < |b| ensures i < |a| && b[i].amountOut <= a[i].amountOut {
      NoBetterAt(b, a, seen, k, i);
    }
    if |a| > 0 {
      NoBetterAt(a, b, seen', k, |a| - 1);
    }
    if |b| > 0 {
      NoBetterAt(b, a, seen, k, |b| - 1);
    }
  }

  /** `best` is a largest of `quotes`, and absent only if there are none. */
  ghost predicate LargestOf(quotes: seq<RouteQuote>, best: Option<RouteQuote>) {
    if quotes == [] then best.None?
    else best.Some? && best.value in quotes && forall x :: x in quotes ==> x.amountOut <= best.value.amountOut
  }

  /** The head of a correct ranking is a largest of everything seen. */
  lemma HeadIsLargest(top: seq<RouteQuote>, seen: seq<RouteQuote>, k: nat)
    requires TopK(top, seen, k) && (top == [] <==> seen == [])
    ensures LargestOf(seen, if top == [] then None else Some(top[0]))
  {
    forall x | x in seen ensures x.amountOut <= top[0].amountOut {
      var j :| 0 <= j < |seen| && seen[j] == x;
      assert Beaten(top, k, seen[j]);
    }
  }
}
