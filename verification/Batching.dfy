/** How long result lists are cut into responses: the greedy loops of feeds.c under a
    content budget, and the threshold closures of ChannelMethod.cpp. */
module Batching {
  import opened Wrappers

  const SIZE_T: nat := 0x1_0000_0000_0000_0000

  datatype Batch<T> = Batch(items: seq<T>, isLast: bool)

  function Sum(s: seq<nat>, i: nat, j: nat): nat
    requires i <= j <= |s|
    decreases j - i
  {
    if i == j then 0 else s[i] + Sum(s, i + 1, j)
  }

  lemma {:induction false} SumSplit(s: seq<nat>, i: nat, m: nat, j: nat)
    requires i <= m <= j <= |s|
    ensures Sum(s, i, j) == Sum(s, i, m) + Sum(s, m, j)
    decreases m - i
  {
    if i < m {
      SumSplit(s, i + 1, m, j);
    }
  }

  // -------------------------------------------------------------------------
  // Cutting a list at given positions
  // -------------------------------------------------------------------------

  // Positions at which a list of n items is cut, the end of the list being the last.
  ghost predicate Cuts(start: nat, ends: seq<nat>, n: nat)
    decreases |ends|
  {
    if ends == [] then start == n else start < ends[0] <= n && Cuts(ends[0], ends[1..], n)
  }

  function Cut<T>(items: seq<T>, start: nat, ends: seq<nat>): seq<Batch<T>>
    requires Cuts(start, ends, |items|)
    decreases |ends|
  {
    if ends == [] then []
    else [Batch(items[start..ends[0]], ends[0] == |items|)] + Cut(items, ends[0], ends[1..])
  }

  function Concat<T>(bs: seq<Batch<T>>): seq<T> {
    if bs == [] then [] else bs[0].items + Concat(bs[1..])
  }

  lemma {:induction false} CutRight<T>(items: seq<T>, start: nat, ends: seq<nat>)
    requires Cuts(start, ends, |items|) && start <= |items|
    ensures var bs := Cut(items, start, ends);
            && |bs| == |ends|
            && Concat(bs) == items[start..]
            && (forall k :: 0 <= k < |bs| ==> bs[k].items != [])
            && (forall k :: 0 <= k < |bs| ==> (bs[k].isLast <==> k == |bs| - 1))
    decreases |ends|
  {
    if ends != [] {
      CutRight(items, ends[0], ends[1..]);
      var rest := Cut(items, ends[0], ends[1..]);
      var bs := Cut(items, start, ends);
      assert bs[1..] == rest;
      assert items[start..ends[0]] + items[ends[0]..] == items[start..];
      if ends[1..] == [] {
        assert ends[0] == |items|;
      }
    }
  }

  // -------------------------------------------------------------------------
  // The greedy loops
  // -------------------------------------------------------------------------

  // charge[i] is subtracted for item i; next[i] is what is compared with the room left
  // after item i.
  datatype Costs = Costs(charge: seq<nat>, next: seq<nat>, max: nat)

  predicate Sized(c: Costs) {
    && |c.charge| == |c.next| && c.max < SIZE_T
    && (forall i :: 0 <= i < |c.charge| ==> c.charge[i] < SIZE_T && c.next[i] < SIZE_T)
  }

  // Channels and posts: charged and looked ahead by the same cost.
  function PlainCosts(cost: seq<nat>, max: nat): Costs {
    Costs(cost, seq(|cost|, i requires 0 <= i < |cost| => if i + 1 < |cost| then cost[i + 1] else 0), max)
  }

  // Comments: charged by content, looked ahead by content and thumbnails.
  function CommentCosts(content: seq<nat>, thumbnails: seq<nat>, max: nat): Costs
    requires |content| == |thumbnails|
  {
    var cost := seq(|content|, i requires 0 <= i < |content| => content[i] + thumbnails[i]);
    Costs(content, PlainCosts(cost, max).next, max)
  }

  // A pointer and three terminators: no like costs less.
  const LIKE_MIN: nat := 8 + 3

  // Liked data: what is compared is the cost of the item just taken.
  function LikedCosts(cost: seq<nat>, max: nat): Costs {
    Costs(cost, cost, max)
  }

  // size_t subtraction.
  function Minus(left: nat, cost: nat): nat
    requires left < SIZE_T && cost < SIZE_T
  {
    if cost <= left then left - cost else left + SIZE_T - cost
  }

  predicate Flush(c: Costs, i: nat, left: nat)
    requires Sized(c) && i < |c.charge|
  {
    left == 0 || i == |c.charge| - 1 || c.next[i] > left
  }

  // The positions at which the loop flushes, from item i on.
  function Ends(c: Costs, i: nat, left: nat): seq<nat>
    requires Sized(c) && i <= |c.charge| && left < SIZE_T
    decreases |c.charge| - i
  {
    if i == |c.charge| then []
    else
      var l := Minus(left, c.charge[i]);
      if Flush(c, i, l) then [i + 1] + Ends(c, i + 1, c.max) else Ends(c, i + 1, l)
  }

  lemma {:induction false} EndsCut(c: Costs, start: nat, i: nat, left: nat)
    requires Sized(c) && start <= i < |c.charge| && left < SIZE_T
    ensures Cuts(start, Ends(c, i, left), |c.charge|)
    decreases |c.charge| - i
  {
    var l := Minus(left, c.charge[i]);
    if !Flush(c, i, l) {
      EndsCut(c, start, i + 1, l);
    } else if i + 1 < |c.charge| {
      EndsCut(c, i + 1, i + 1, c.max);
    }
  }

  function Batches<T>(items: seq<T>, c: Costs): seq<Batch<T>>
    requires Sized(c) && |items| == |c.charge|
  {
    if items == [] then [Batch([], true)]
    else
      EndsCut(c, 0, 0, c.max);
      Cut(items, 0, Ends(c, 0, c.max))
  }

  function Min(a: nat, b: nat): nat {
    if a <= b then a else b
  }

  // The loop stands before item i, holding the items from start on.
  ghost predicate Sending<T>(items: seq<T>, c: Costs, start: nat, i: nat, left: nat, sent: seq<Batch<T>>)
    requires Sized(c) && |items| == |c.charge|
  {
    && start <= i <= |items| && left < SIZE_T
    && Cuts(start, Ends(c, i, left), |items|)
    && Batches(items, c) == sent + Cut(items, start, Ends(c, i, left))
  }

  lemma SendingStep<T>(items: seq<T>, c: Costs, start: nat, i: nat, left: nat, sent: seq<Batch<T>>)
    requires Sized(c) && |items| == |c.charge| && Sending(items, c, start, i, left, sent) && i < |items|
    ensures var l := Minus(left, c.charge[i]);
            if Flush(c, i, l) then
              && Sending(items, c, i + 1, i + 1, c.max, sent + [Batch(items[start..i + 1], i == |items| - 1)])
              && |sent| < |Batches(items, c)| && sent == Batches(items, c)[..|sent|]
            else
              Sending(items, c, start, i + 1, l, sent)
  {
    hide Batches;
    var l := Minus(left, c.charge[i]);
    if Flush(c, i, l) {
      var ends := Ends(c, i + 1, c.max);
      assert ([i + 1] + ends)[1..] == ends;
      var b := Batch(items[start..i + 1], i == |items| - 1);
      assert sent + ([b] + Cut(items, i + 1, ends)) == (sent + [b]) + Cut(items, i + 1, ends);
    }
  }

  lemma SendingStart<T>(items: seq<T>, c: Costs)
    requires Sized(c) && |items| == |c.charge| && items != []
    ensures Sending(items, c, 0, 0, c.max, [])
  {
    EndsCut(c, 0, 0, c.max);
  }

  lemma SendingDone<T>(items: seq<T>, c: Costs, left: nat, sent: seq<Batch<T>>)
    requires Sized(c) && |items| == |c.charge| && Sending(items, c, |items|, |items|, left, sent)
    ensures sent == Batches(items, c)
  {
    hide Batches;
  }

  // The loop, where msgq_enq accepts so many responses before it fails.
  method SendBatches<T>(items: seq<T>, c: Costs, accepted: nat) returns (sent: seq<Batch<T>>)
    requires Sized(c) && |items| == |c.charge|
    ensures sent == Batches(items, c)[..Min(accepted, |Batches(items, c)|)]
  {
    if items == [] {
      sent := if accepted > 0 then [Batch([], true)] else [];
    } else {
      sent := SendAll(items, c, accepted);
    }
  }

  method SendAll<T>(items: seq<T>, c: Costs, accepted: nat) returns (sent: seq<Batch<T>>)
    requires Sized(c) && |items| == |c.charge| && items != []
    ensures sent == Batches(items, c)[..Min(accepted, |Batches(items, c)|)]
  {
    hide Sending, Batches, Ends, Cut, Cuts;
    sent := [];
    var left: nat, tmp: seq<T>, i: nat := c.max, [], 0;
    ghost var start := 0;
    SendingStart(items, c);
    while i < |items|
      invariant 0 <= start <= i <= |items| && left < SIZE_T && |sent| <= accepted
      invariant tmp == items[start..i] && (i == |items| ==> start == i)
      invariant Sending(items, c, start, i, left, sent)
    {
      SendingStep(items, c, start, i, left, sent);
      left := Minus(left, c.charge[i]);
      tmp := tmp + [items[i]];
      assert tmp == items[start..i + 1];
      if left == 0 || i == |items| - 1 || c.next[i] > left {
        if |sent| == accepted {
          return;
        }
        sent := sent + [Batch(tmp, i == |items| - 1)];
        tmp := [];
        left := c.max;
        start := i + 1;
      }
      i := i + 1;
    }
    SendingDone(items, c, left, sent);
  }

  // For every cost function whatever: the batches are the list in order, none is empty
  // (but the one answer to an empty list) and exactly the final one is marked last.
  lemma BatchesRight<T>(items: seq<T>, c: Costs)
    requires Sized(c) && |items| == |c.charge|
    ensures var bs := Batches(items, c);
            && bs != [] && Concat(bs) == items
            && (items != [] ==> forall k :: 0 <= k < |bs| ==> bs[k].items != [])
            && (forall k :: 0 <= k < |bs| ==> (bs[k].isLast <==> k == |bs| - 1))
  {
    if items == [] {
      var bs := Batches(items, c);
      assert bs[1..] == [];
    } else {
      EndsCut(c, 0, 0, c.max);
      CutRight(items, 0, Ends(c, 0, c.max));
      assert items[0..] == items;
    }
  }

  // -------------------------------------------------------------------------
  // The budget
  // -------------------------------------------------------------------------

  // What is looked ahead is at least what will be charged.
  ghost predicate LooksAhead(c: Costs) {
    Sized(c) && forall i :: 0 <= i < |c.charge| - 1 ==> c.next[i] >= c.charge[i + 1]
  }

  ghost predicate Budgeted(c: Costs, start: nat, ends: seq<nat>)
    requires Cuts(start, ends, |c.charge|)
    decreases |ends|
  {
    ends != [] ==> Sum(c.charge, start, ends[0]) <= c.max && Budgeted(c, ends[0], ends[1..])
  }

  ghost predicate Affordable(c: Costs) {
    forall i :: 0 <= i < |c.charge| ==> c.charge[i] <= c.max
  }

  // While every cost is affordable the room left is what it should be: it never wraps.
  ghost predicate RoomLeft(c: Costs, start: nat, i: nat, left: nat)
    requires start <= i <= |c.charge|
  {
    left + Sum(c.charge, start, i) == c.max && (i < |c.charge| ==> c.charge[i] <= left)
  }

  lemma RoomKept(c: Costs, start: nat, i: nat, left: nat)
    requires LooksAhead(c) && start <= i < |c.charge| && RoomLeft(c, start, i, left)
    ensures var l := Minus(left, c.charge[i]);
            && l == left - c.charge[i] && l + Sum(c.charge, start, i + 1) == c.max
            && (!Flush(c, i, l) ==> RoomLeft(c, start, i + 1, l))
  {
    SumSplit(c.charge, start, i, i + 1);
  }

  lemma {:induction false} AffordableBudgeted(c: Costs, start: nat, i: nat, left: nat)
    requires LooksAhead(c) && Affordable(c) && start <= i < |c.charge| && RoomLeft(c, start, i, left)
    ensures Cuts(start, Ends(c, i, left), |c.charge|) && Budgeted(c, start, Ends(c, i, left))
    decreases |c.charge| - i
  {
    EndsCut(c, start, i, left);
    RoomKept(c, start, i, left);
    var l := Minus(left, c.charge[i]);
    if !Flush(c, i, l) {
      AffordableBudgeted(c, start, i + 1, l);
    } else if i + 1 < |c.charge| {
      AffordableBudgeted(c, i + 1, i + 1, c.max);
    }
  }

  lemma {:induction false} BudgetedAffordable(c: Costs, start: nat, ends: seq<nat>, i: nat)
    requires Cuts(start, ends, |c.charge|) && Budgeted(c, start, ends) && start <= i < |c.charge|
    ensures c.charge[i] <= c.max
    decreases |ends|
  {
    if i < ends[0] {
      SumSplit(c.charge, start, i, ends[0]);
    } else {
      BudgetedAffordable(c, ends[0], ends[1..], i);
    }
  }

  // No subtraction from item i on exceeds the room left.
  ghost predicate NeverWraps(c: Costs, i: nat, left: nat)
    requires Sized(c) && i <= |c.charge| && left < SIZE_T
    decreases |c.charge| - i
  {
    i < |c.charge| ==>
      && c.charge[i] <= left
      && NeverWraps(c, i + 1, if Flush(c, i, Minus(left, c.charge[i])) then c.max else Minus(left, c.charge[i]))
  }

  lemma {:induction false} AffordableNeverWraps(c: Costs, start: nat, i: nat, left: nat)
    requires LooksAhead(c) && Affordable(c) && start <= i < |c.charge| && RoomLeft(c, start, i, left)
    ensures NeverWraps(c, i, left)
    decreases |c.charge| - i
  {
    RoomKept(c, start, i, left);
    var l := Minus(left, c.charge[i]);
    if !Flush(c, i, l) {
      AffordableNeverWraps(c, start, i + 1, l);
    } else if i + 1 < |c.charge| {
      AffordableNeverWraps(c, i + 1, i + 1, c.max);
    }
  }

  lemma {:induction false} NeverWrapsAffordable(c: Costs, i: nat, left: nat, j: nat)
    requires Sized(c) && i <= j < |c.charge| && left <= c.max && NeverWraps(c, i, left)
    ensures c.charge[j] <= c.max
    decreases j - i
  {
    if i < j {
      var l := Minus(left, c.charge[i]);
      NeverWrapsAffordable(c, i + 1, if Flush(c, i, l) then c.max else l, j);
    }
  }

  // The batches stay within the budget exactly when every single item does, and exactly
  // then the room left never wraps; so it is for channels, for posts, and for the content
  // of comments.
  lemma WithinBudgetExactly(c: Costs)
    requires LooksAhead(c) && c.charge != []
    ensures Cuts(0, Ends(c, 0, c.max), |c.charge|)
    ensures Budgeted(c, 0, Ends(c, 0, c.max)) <==> Affordable(c)
    ensures NeverWraps(c, 0, c.max) <==> Affordable(c)
  {
    EndsCut(c, 0, 0, c.max);
    if Affordable(c) {
      AffordableBudgeted(c, 0, 0, c.max);
      AffordableNeverWraps(c, 0, 0, c.max);
    }
    if Budgeted(c, 0, Ends(c, 0, c.max)) {
      forall i | 0 <= i < |c.charge|
        ensures c.charge[i] <= c.max
      {
        BudgetedAffordable(c, 0, Ends(c, 0, c.max), i);
      }
    }
    if NeverWraps(c, 0, c.max) {
      forall i | 0 <= i < |c.charge|
        ensures c.charge[i] <= c.max
      {
        NeverWrapsAffordable(c, 0, c.max, i);
      }
    }
  }

  lemma ChannelsAndCommentsLookAhead(cost: seq<nat>, thumbnails: seq<nat>, max: nat)
    requires |cost| == |thumbnails|
    ensures Sized(PlainCosts(cost, max)) ==> LooksAhead(PlainCosts(cost, max))
    ensures Sized(CommentCosts(cost, thumbnails, max)) ==> LooksAhead(CommentCosts(cost, thumbnails, max))
    ensures var c := CommentCosts(cost, thumbnails, max);
            && c.charge == cost && c.max == max && |c.next| == |cost|
            && forall i :: 0 <= i < |cost| - 1 ==> c.next[i] == cost[i + 1] + thumbnails[i + 1]
  {
  }

  // The loop for liked data looks at the item just taken. Two affordable likes stay within
  // the budget unless the first fits twice and the two together do not.
  lemma LikedPairExactly(a: nat, b: nat, max: nat)
    requires 0 < a <= max && b <= max < SIZE_T
    ensures var c := LikedCosts([a, b], max);
            && Cuts(0, Ends(c, 0, max), 2)
            && (Budgeted(c, 0, Ends(c, 0, max)) <==> !(2 * a <= max < a + b))
  {
    var c := LikedCosts([a, b], max);
    assert Sum(c.charge, 1, 2) == b;
    assert Sum(c.charge, 0, 2) == a + b;
    assert Sum(c.charge, 0, 1) == a;
    if Flush(c, 0, max - a) {
      assert Ends(c, 1, max) == [2];
      assert Ends(c, 0, max) == [1, 2] && [1, 2][1..] == [2];
    } else {
      assert Ends(c, 2, max) == [] && Ends(c, 1, max - a) == [2];
      assert Ends(c, 0, max) == [2];
    }
  }

  // A page of a result: what the limits and bounds of a request can select.
  function Page(cost: seq<nat>, i: nat, j: nat): seq<nat>
    requires i <= j <= |cost|
  {
    cost[i..j]
  }

  ghost predicate NonIncreasing(cost: seq<nat>) {
    forall i :: 0 <= i < |cost| - 1 ==> cost[i + 1] <= cost[i]
  }

  ghost predicate LikedBudgeted(cost: seq<nat>, max: nat)
    requires Sized(LikedCosts(cost, max)) && cost != []
  {
    EndsCut(LikedCosts(cost, max), 0, 0, max);
    Budgeted(LikedCosts(cost, max), 0, Ends(LikedCosts(cost, max), 0, max))
  }

  // Each single like keeps the budget.
  ghost predicate Keeps(cost: seq<nat>, max: nat) {
    Sized(LikedCosts(cost, max)) && Affordable(LikedCosts(cost, max))
  }

  // Every affordable page is sent within every budget.
  ghost predicate LikedAlwaysBudgeted(cost: seq<nat>) {
    forall i, j, max :: 0 <= i < j <= |cost| && Keeps(Page(cost, i, j), max) ==> LikedBudgeted(Page(cost, i, j), max)
  }

  // Likes that do not get longer are enough, for any budget.
  lemma NonIncreasingBudgeted(cost: seq<nat>, max: nat)
    requires Sized(LikedCosts(cost, max)) && cost != [] && NonIncreasing(cost)
    ensures LikedBudgeted(cost, max) <==> Affordable(LikedCosts(cost, max))
  {
    WithinBudgetExactly(LikedCosts(cost, max));
  }

  // And they are what it takes: all pages of a list of likes keep every budget that each
  // single like keeps, if and only if no like is longer than the one before.
  lemma LikedBudgetExactly(cost: seq<nat>)
    requires forall i :: 0 <= i < |cost| ==> LIKE_MIN <= cost[i] < SIZE_T / 2
    ensures LikedAlwaysBudgeted(cost) <==> NonIncreasing(cost)
  {
    if NonIncreasing(cost) {
      forall i, j, max | 0 <= i < j <= |cost| && Keeps(Page(cost, i, j), max)
        ensures LikedBudgeted(Page(cost, i, j), max)
      {
        NonIncreasingBudgeted(Page(cost, i, j), max);
      }
    } else {
      var i :| 0 <= i < |cost| - 1 && cost[i] < cost[i + 1];
      var a, b := cost[i], cost[i + 1];
      assert Page(cost, i, i + 2) == [a, b];
      LikedPairExactly(a, b, a + b - 1);
      var c := LikedCosts([a, b], a + b - 1);
      assert Keeps([a, b], a + b - 1);
      assert !LikedBudgeted(Page(cost, i, i + 2), a + b - 1);
    }
  }

  // For the one budget there is: item k would fit once more behind the items from i on.
  predicate FitsAgain(cost: seq<nat>, max: nat, i: nat, k: nat)
    requires i <= k < |cost|
  {
    Sum(cost, i, k + 1) + cost[k] <= max
  }

  // After a stretch each item of which would fit once more, the next item fits.
  ghost predicate StretchesFit(cost: seq<nat>, max: nat) {
    forall i, k :: 0 <= i <= k < |cost| - 1 && EachFitsAgain(cost, max, i, k) ==> Sum(cost, i, k + 2) <= max
  }

  ghost predicate EachFitsAgain(cost: seq<nat>, max: nat, i: nat, k: nat)
    requires i <= k < |cost|
  {
    forall m :: i <= m <= k ==> FitsAgain(cost, max, i, m)
  }

  ghost predicate LikedPagesBudgeted(cost: seq<nat>, max: nat)
    requires Sized(LikedCosts(cost, max))
  {
    forall i, j :: 0 <= i < j <= |cost| ==> LikedBudgeted(Page(cost, i, j), max)
  }

  lemma {:induction false} SumPage(cost: seq<nat>, a: nat, b: nat, i: nat, j: nat)
    requires a <= b <= |cost| && i <= j <= b - a
    ensures Sum(Page(cost, a, b), i, j) == Sum(cost, a + i, a + j)
    decreases j - i
  {
    if i < j {
      SumPage(cost, a, b, i + 1, j);
    }
  }

  lemma StretchesOfPage(cost: seq<nat>, max: nat, a: nat, b: nat)
    requires StretchesFit(cost, max) && a <= b <= |cost|
    ensures StretchesFit(Page(cost, a, b), max)
  {
    var page := Page(cost, a, b);
    forall i, k | 0 <= i <= k < |page| - 1 && EachFitsAgain(page, max, i, k)
      ensures Sum(page, i, k + 2) <= max
    {
      var first, last := a + i, a + k;
      forall m | first <= m <= last
        ensures FitsAgain(cost, max, first, m)
      {
        assert FitsAgain(page, max, i, m - a);
        SumPage(cost, a, b, i, m - a + 1);
      }
      assert EachFitsAgain(cost, max, first, last);
      SumPage(cost, a, b, i, k + 2);
    }
  }

  lemma {:induction false} StretchBudgeted(cost: seq<nat>, max: nat, start: nat, i: nat, left: nat)
    requires Keeps(cost, max) && StretchesFit(cost, max) && start <= i < |cost|
    requires RoomLeft(LikedCosts(cost, max), start, i, left)
    requires forall m :: start <= m < i ==> FitsAgain(cost, max, start, m)
    ensures var c := LikedCosts(cost, max);
            Cuts(start, Ends(c, i, left), |cost|) && Budgeted(c, start, Ends(c, i, left))
    decreases |cost| - i
  {
    var c := LikedCosts(cost, max);
    EndsCut(c, start, i, left);
    SumSplit(cost, start, i, i + 1);
    var l := left - cost[i];
    if !Flush(c, i, l) {
      assert EachFitsAgain(cost, max, start, i);
      SumSplit(cost, start, i + 1, i + 2);
      StretchBudgeted(cost, max, start, i + 1, l);
    } else if i + 1 < |cost| {
      StretchBudgeted(cost, max, i + 1, i + 1, max);
    }
  }

  // A list each item of which, but the last, would fit once more goes out in one batch.
  lemma {:induction false} OneBatch(cost: seq<nat>, max: nat, i: nat, left: nat)
    requires Keeps(cost, max) && i < |cost| && left + Sum(cost, 0, i) == max
    requires forall k :: 0 <= k < |cost| ==> cost[k] > 0
    requires forall m :: 0 <= m < |cost| - 1 ==> FitsAgain(cost, max, 0, m)
    ensures Ends(LikedCosts(cost, max), i, left) == [|cost|]
    decreases |cost| - i
  {
    if i < |cost| - 1 {
      SumSplit(cost, 0, i, i + 1);
      assert FitsAgain(cost, max, 0, i);
      OneBatch(cost, max, i + 1, left - cost[i]);
    }
  }

  // Under one budget all pages of a list of likes, each within it, are sent within it, if
  // and only if after each stretch whose items would fit once more the next item fits.
  lemma LikedPagesExactly(cost: seq<nat>, max: nat)
    requires Keeps(cost, max) && forall i :: 0 <= i < |cost| ==> LIKE_MIN <= cost[i]
    ensures LikedPagesBudgeted(cost, max) <==> StretchesFit(cost, max)
  {
    if StretchesFit(cost, max) {
      forall i, j | 0 <= i < j <= |cost|
        ensures LikedBudgeted(Page(cost, i, j), max)
      {
        StretchesOfPage(cost, max, i, j);
        StretchBudgeted(Page(cost, i, j), max, 0, 0, max);
      }
    } else {
      var i, k :| 0 <= i <= k < |cost| - 1 && EachFitsAgain(cost, max, i, k) && Sum(cost, i, k + 2) > max;
      PageOverBudget(cost, max, i, k);
    }
  }

  lemma PageOverBudget(cost: seq<nat>, max: nat, i: nat, k: nat)
    requires Keeps(cost, max) && forall i :: 0 <= i < |cost| ==> LIKE_MIN <= cost[i]
    requires i <= k < |cost| - 1 && EachFitsAgain(cost, max, i, k) && Sum(cost, i, k + 2) > max
    ensures !LikedBudgeted(Page(cost, i, k + 2), max)
  {
    var page := Page(cost, i, k + 2);
    forall m | 0 <= m < |page| - 1
      ensures FitsAgain(page, max, 0, m)
    {
      assert FitsAgain(cost, max, i, i + m);
      SumPage(cost, i, k + 2, 0, m + 1);
    }
    OneBatch(page, max, 0, max);
    SumPage(cost, i, k + 2, 0, |page|);
  }

  // -------------------------------------------------------------------------
  // Fewest batches
  // -------------------------------------------------------------------------

  // Any other way to cut the list within the budget, empty batches allowed.
  ghost predicate Fits(cost: seq<nat>, max: nat, start: nat, ends: seq<nat>)
    decreases |ends|
  {
    if ends == [] then start == |cost|
    else start <= ends[0] <= |cost| && Sum(cost, start, ends[0]) <= max && Fits(cost, max, ends[0], ends[1..])
  }

  // A batch that ends where it must: at the end, with the budget spent, or before an item
  // that is too much.
  ghost predicate Full(cost: seq<nat>, max: nat, start: nat, end: nat)
    requires start <= end <= |cost|
  {
    end == |cost| || Sum(cost, start, end) == max || Sum(cost, start, end + 1) > max
  }

  ghost predicate Greedy(cost: seq<nat>, max: nat, start: nat, ends: seq<nat>)
    decreases |ends|
  {
    if ends == [] then start == |cost|
    else
      && start < ends[0] <= |cost| && Sum(cost, start, ends[0]) <= max && Full(cost, max, start, ends[0])
      && Greedy(cost, max, ends[0], ends[1..])
  }

  lemma {:induction false} EndsGreedy(cost: seq<nat>, max: nat, start: nat, i: nat, left: nat)
    requires var c := PlainCosts(cost, max);
             Sized(c) && Affordable(c) && start <= i < |cost| && RoomLeft(c, start, i, left)
    ensures Greedy(cost, max, start, Ends(PlainCosts(cost, max), i, left))
    decreases |cost| - i
  {
    var c := PlainCosts(cost, max);
    RoomKept(c, start, i, left);
    var l := Minus(left, c.charge[i]);
    if !Flush(c, i, l) {
      EndsGreedy(cost, max, start, i + 1, l);
    } else if i + 1 < |cost| {
      EndsGreedy(cost, max, i + 1, i + 1, max);
      SumSplit(cost, start, i + 1, i + 2);
      assert Ends(c, i, left)[1..] == Ends(c, i + 1, max);
    } else {
      assert Ends(c, i, left) == [i + 1];
    }
  }

  // What the last batch costs.
  ghost function LastSum(cost: seq<nat>, start: nat, ends: seq<nat>): nat
    requires Cuts(start, ends, |cost|) && ends != []
    decreases |ends|
  {
    if |ends| == 1 then Sum(cost, start, ends[0]) else LastSum(cost, ends[0], ends[1..])
  }

  lemma {:induction false} GreedyCuts(cost: seq<nat>, max: nat, start: nat, ends: seq<nat>)
    requires Greedy(cost, max, start, ends)
    ensures Cuts(start, ends, |cost|)
    decreases |ends|
  {
    if ends != [] {
      GreedyCuts(cost, max, ends[0], ends[1..]);
    }
  }

  lemma {:induction false} LastSumBound(cost: seq<nat>, start: nat, ends: seq<nat>)
    requires Cuts(start, ends, |cost|) && ends != []
    ensures start <= |cost| && LastSum(cost, start, ends) <= Sum(cost, start, |cost|)
    decreases |ends|
  {
    SumSplit(cost, start, ends[0], |cost|);
    if |ends| > 1 {
      LastSumBound(cost, ends[0], ends[1..]);
    }
  }

  // Greedy batches never fall behind another way of cutting by more than items of cost 0.
  lemma StaysAhead(cost: seq<nat>, max: nat, a: nat, b: nat, o: nat, p: nat)
    requires a < b <= |cost| && o <= p <= |cost|
    requires o <= a || (a < o && Sum(cost, a, o) == 0)
    requires Sum(cost, a, b) <= max && Full(cost, max, a, b) && Sum(cost, o, p) <= max
    ensures p <= b || Sum(cost, b, p) == 0
  {
    if b < p {
      if o <= a {
        SumSplit(cost, o, a, p);
      } else {
        SumSplit(cost, a, o, p);
      }
      SumSplit(cost, a, b, p);
      SumSplit(cost, a, b + 1, p);
    }
  }

  lemma {:induction false} Fewest(cost: seq<nat>, max: nat, a: nat, ends: seq<nat>, o: nat, others: seq<nat>)
    requires Greedy(cost, max, a, ends) && Cuts(a, ends, |cost|) && Fits(cost, max, o, others)
    requires ends != [] ==> LastSum(cost, a, ends) > 0
    requires o <= |cost| && (o <= a || Sum(cost, a, o) == 0)
    ensures |ends| <= |others|
    decreases |ends|
  {
    if ends != [] {
      if others == [] {
        LastSumBound(cost, a, ends);
        assert false;
      }
      StaysAhead(cost, max, a, ends[0], o, others[0]);
      if |ends| > 1 {
        Fewest(cost, max, ends[0], ends[1..], others[0], others[1..]);
      }
    }
  }

  // The last two batches made one.
  function Merged(ends: seq<nat>): seq<nat>
    requires |ends| >= 2
  {
    ends[..|ends| - 2] + [ends[|ends| - 1]]
  }

  lemma {:induction false} MergedFits(cost: seq<nat>, max: nat, a: nat, ends: seq<nat>)
    requires Greedy(cost, max, a, ends) && Cuts(a, ends, |cost|) && |ends| >= 2 && LastSum(cost, a, ends) == 0
    ensures Fits(cost, max, a, Merged(ends))
    decreases |ends|
  {
    if |ends| == 2 {
      assert Merged(ends) == [ends[1]] && ends[1..] == [ends[1]] && [ends[1]][1..] == [];
      assert Cuts(ends[0], [ends[1]], |cost|) && Cuts(ends[1], [], |cost|);
      SumSplit(cost, a, ends[0], ends[1]);
    } else {
      MergedFits(cost, max, ends[0], ends[1..]);
      assert Merged(ends)[1..] == Merged(ends[1..]);
    }
  }

  // No way of cutting within the budget uses fewer batches, unless the greedy loop ends
  // with a batch that costs nothing at all: then one batch less would do.
  lemma FewestExactly(cost: seq<nat>, max: nat)
    requires var c := PlainCosts(cost, max); Sized(c) && Affordable(c)
    requires cost != []
    ensures var ends := Ends(PlainCosts(cost, max), 0, max);
            && Cuts(0, ends, |cost|) && ends != []
            && ((forall others :: Fits(cost, max, 0, others) ==> |ends| <= |others|) <==>
                |ends| == 1 || LastSum(cost, 0, ends) > 0)
  {
    var ends := Ends(PlainCosts(cost, max), 0, max);
    EndsGreedy(cost, max, 0, 0, max);
    GreedyCuts(cost, max, 0, ends);
    if LastSum(cost, 0, ends) > 0 {
      forall others | Fits(cost, max, 0, others)
        ensures |ends| <= |others|
      {
        Fewest(cost, max, 0, ends, 0, others);
      }
    } else if |ends| > 1 {
      MergedFits(cost, max, 0, ends);
    }
  }

  // It never comes to that when the last item costs something, as every channel does.
  lemma PositiveIsOptimal(cost: seq<nat>, max: nat, others: seq<nat>)
    requires var c := PlainCosts(cost, max); Sized(c) && Affordable(c)
    requires cost != [] && cost[|cost| - 1] > 0
    requires Fits(cost, max, 0, others)
    ensures |Ends(PlainCosts(cost, max), 0, max)| <= |others|
  {
    FewestExactly(cost, max);
    LastSumPositive(cost, 0, Ends(PlainCosts(cost, max), 0, max));
  }

  lemma {:induction false} LastSumPositive(cost: seq<nat>, start: nat, ends: seq<nat>)
    requires Cuts(start, ends, |cost|) && ends != [] && cost != [] && cost[|cost| - 1] > 0
    ensures LastSum(cost, start, ends) > 0
    decreases |ends|
  {
    if |ends| > 1 {
      LastSumPositive(cost, ends[0], ends[1..]);
    } else {
      SumSplit(cost, start, |cost| - 1, |cost|);
    }
  }

  // A post that is not available is free. Behind one that fills the budget it takes two
  // responses, though one would do.
  lemma FreeItemWastes(max: nat)
    requires 0 < max < SIZE_T
    ensures Ends(PlainCosts([max, 0], max), 0, max) == [1, 2]
    ensures Fits([max, 0], max, 0, [2])
  {
    var c := PlainCosts([max, 0], max);
    assert Ends(c, 1, max) == [2];
  }

  // -------------------------------------------------------------------------
  // The threshold closures
  // -------------------------------------------------------------------------

  const MAX_AVAILABLE_SIZE: nat := 4 * 1024

  // Row counts after which the accumulated size has reached the threshold.
  function Reaches(sizes: seq<nat>, base: nat, i: nat, size: nat): seq<nat>
    requires i <= |sizes|
    decreases |sizes| - i
  {
    if i == |sizes| then []
    else if size + sizes[i] >= MAX_AVAILABLE_SIZE then [i + 1] + Reaches(sizes, base, i + 1, base)
    else Reaches(sizes, base, i + 1, size + sizes[i])
  }

  predicate Within(start: nat, ends: seq<nat>, n: nat)
    decreases |ends|
  {
    start <= n && (ends != [] ==> start < ends[0] && Within(ends[0], ends[1..], n))
  }

  // Full responses, then the last one with whatever rows remain.
  function Responses<T>(rows: seq<T>, start: nat, ends: seq<nat>): seq<Batch<T>>
    requires Within(start, ends, |rows|)
    decreases |ends|
  {
    if ends == [] then [Batch(rows[start..], true)]
    else
      assert Within(ends[0], ends[1..], |rows|);
      [Batch(rows[start..ends[0]], false)] + Responses(rows, ends[0], ends[1..])
  }

  lemma {:induction false} ReachesWithin(sizes: seq<nat>, base: nat, start: nat, i: nat, size: nat)
    requires start <= i <= |sizes|
    ensures Within(start, Reaches(sizes, base, i, size), |sizes|)
    decreases |sizes| - i
  {
    if i < |sizes| {
      if size + sizes[i] >= MAX_AVAILABLE_SIZE {
        ReachesWithin(sizes, base, i + 1, i + 1, base);
        assert Reaches(sizes, base, i, size)[1..] == Reaches(sizes, base, i + 1, base);
      } else {
        ReachesWithin(sizes, base, start, i + 1, size + sizes[i]);
      }
    }
  }

  // Every response but the last first reaches the threshold with its own last row; the
  // last stays below it.
  ghost predicate FirstReach(sizes: seq<nat>, base: nat, start: nat, ends: seq<nat>)
    decreases |ends|
  {
    if ends == [] then start <= |sizes| && base + Sum(sizes, start, |sizes|) < 4096
    else
      && start < ends[0] <= |sizes|
      && base + Sum(sizes, start, ends[0]) >= 4096
      && base + Sum(sizes, start, ends[0] - 1) < 4096
      && FirstReach(sizes, base, ends[0], ends[1..])
  }

  lemma {:induction false} ReachesFirst(sizes: seq<nat>, base: nat, start: nat, i: nat, size: nat)
    requires base < MAX_AVAILABLE_SIZE && start <= i <= |sizes|
    requires size == base + Sum(sizes, start, i) < MAX_AVAILABLE_SIZE
    ensures FirstReach(sizes, base, start, Reaches(sizes, base, i, size))
    decreases |sizes| - i
  {
    if i < |sizes| {
      SumSplit(sizes, start, i, i + 1);
      if size + sizes[i] >= MAX_AVAILABLE_SIZE {
        ReachesFirst(sizes, base, i + 1, i + 1, base);
        assert Reaches(sizes, base, i, size)[1..] == Reaches(sizes, base, i + 1, base);
      } else {
        ReachesFirst(sizes, base, start, i + 1, size + sizes[i]);
      }
    }
  }

  // There is only one such way to cut the rows.
  lemma {:induction false} FirstReachUnique(sizes: seq<nat>, base: nat, start: nat, a: seq<nat>, b: seq<nat>)
    requires FirstReach(sizes, base, start, a) && FirstReach(sizes, base, start, b)
    ensures a == b
    decreases |a|
  {
    if a != [] {
      if b == [] {
        SumSplit(sizes, start, a[0], |sizes|);
      } else {
        if a[0] < b[0] {
          SumSplit(sizes, start, a[0], b[0] - 1);
        } else if b[0] < a[0] {
          SumSplit(sizes, start, b[0], a[0] - 1);
        }
        FirstReachUnique(sizes, base, a[0], a[1..], b[1..]);
      }
    } else if b != [] {
      SumSplit(sizes, start, b[0], |sizes|);
    }
  }

  lemma {:induction false} ResponsesRight<T>(rows: seq<T>, start: nat, ends: seq<nat>)
    requires Within(start, ends, |rows|)
    ensures var bs := Responses(rows, start, ends);
            && |bs| == |ends| + 1 && Concat(bs) == rows[start..]
            && (forall k :: 0 <= k < |bs| ==> (bs[k].isLast <==> k == |bs| - 1))
            && (forall k :: 0 <= k < |bs| - 1 ==> bs[k].items != [])
    decreases |ends|
  {
    var bs := Responses(rows, start, ends);
    if ends == [] {
      assert bs[1..] == [];
    } else {
      ResponsesRight(rows, ends[0], ends[1..]);
      assert bs[1..] == Responses(rows, ends[0], ends[1..]);
      assert rows[start..ends[0]] + rows[ends[0]..] == rows[start..];
    }
  }

  function AllResponses<T>(rows: seq<T>, sizes: seq<nat>, base: nat): seq<Batch<T>>
    requires |rows| == |sizes|
  {
    ReachesWithin(sizes, base, 0, 0, base);
    Responses(rows, 0, Reaches(sizes, base, 0, base))
  }

  // The variables captured by a step closure.
  class Collector<T> {
    const base: nat
    var response: Option<seq<T>>
    var size: nat
    var responses: seq<Batch<T>>

    constructor (base: nat)
      ensures this.base == base && response == None && size == base && responses == []
    {
      this.base, response, size, responses := base, None, base, [];
    }

    // The step closure, once per row.
    method Step(row: T, rowSize: nat)
      modifies this
      ensures var held, total := old(response).GetOr([]) + [row], old(size) + rowSize;
              if total >= MAX_AVAILABLE_SIZE then
                responses == old(responses) + [Batch(held, false)] && response == None && size == base
              else
                responses == old(responses) && response == Some(held) && size == total
    {
      size := size + rowSize;
      if response == None {
        response := Some([]);
      }
      response := Some(response.value + [row]);
      if size >= MAX_AVAILABLE_SIZE {
        responses := responses + [Batch(response.value, false)];
        response := None;
        size := base;
      }
    }
  }

  // i rows are done; those from start on are still held.
  ghost predicate Midway<T>(rows: seq<T>, sizes: seq<nat>, base: nat, start: nat, i: nat, size: nat,
      done: seq<Batch<T>>)
    requires |rows| == |sizes|
  {
    && start <= i <= |rows|
    && Within(start, Reaches(sizes, base, i, size), |rows|)
    && AllResponses(rows, sizes, base) == done + Responses(rows, start, Reaches(sizes, base, i, size))
  }

  lemma MidwayStep<T>(rows: seq<T>, sizes: seq<nat>, base: nat, start: nat, i: nat, size: nat, done: seq<Batch<T>>)
    requires |rows| == |sizes| && Midway(rows, sizes, base, start, i, size, done) && i < |rows|
    ensures if size + sizes[i] >= MAX_AVAILABLE_SIZE then
              Midway(rows, sizes, base, i + 1, i + 1, base, done + [Batch(rows[start..i + 1], false)])
            else
              Midway(rows, sizes, base, start, i + 1, size + sizes[i], done)
  {
    hide AllResponses;
    if size + sizes[i] >= MAX_AVAILABLE_SIZE {
      var ends := Reaches(sizes, base, i + 1, base);
      assert ([i + 1] + ends)[1..] == ends;
      var b := Batch(rows[start..i + 1], false);
      assert done + ([b] + Responses(rows, i + 1, ends)) == (done + [b]) + Responses(rows, i + 1, ends);
    }
  }

  // One query: the rows the database returns, and whether it fails after them.
  method Collect<T>(rows: seq<T>, sizes: seq<nat>, base: nat, ok: bool) returns (ret: int, responses: seq<Batch<T>>)
    requires |rows| == |sizes|
    ensures if ok then ret == 0 && responses == AllResponses(rows, sizes, base) else ret < 0 && responses == []
  {
    hide AllResponses;
    var c := new Collector<T>(base);
    ghost var start: nat := 0;
    MidwayStart(rows, sizes, base);
    var i := 0;
    while i < |rows|
      invariant 0 <= start <= i <= |rows|
      invariant c.base == base && c.response == if start == i then None else Some(rows[start..i])
      invariant Midway(rows, sizes, base, start, i, c.size, c.responses)
    {
      hide Midway;
      assert rows[start..i + 1] == rows[start..i] + [rows[i]];
      MidwayStep(rows, sizes, base, start, i, c.size, c.responses);
      ghost var full := c.size + sizes[i] >= MAX_AVAILABLE_SIZE;
      c.Step(rows[i], sizes[i]);
      i := i + 1;
      if full {
        start := i;
      }
    }
    if !ok {
      ret, responses := -1, [];
    } else {
      var last := c.response.GetOr([]);
      assert last == rows[start..];
      ret, responses := 0, c.responses + [Batch(last, true)];
    }
  }

  lemma MidwayStart<T>(rows: seq<T>, sizes: seq<nat>, base: nat)
    requires |rows| == |sizes|
    ensures Midway(rows, sizes, base, 0, 0, base, [])
  {
    ReachesWithin(sizes, base, 0, 0, base);
  }

  // Over any rows: the responses are the rows in order, only the final one is marked last,
  // and they are cut where the threshold is first reached, which there is one way to do.
  lemma CollectRight<T>(rows: seq<T>, sizes: seq<nat>, base: nat)
    requires |rows| == |sizes| && base < 4096
    ensures var bs := AllResponses(rows, sizes, base);
            && bs != [] && Concat(bs) == rows
            && (forall k :: 0 <= k < |bs| ==> (bs[k].isLast <==> k == |bs| - 1))
            && (forall k :: 0 <= k < |bs| - 1 ==> bs[k].items != [])
            && (exists ends :: FirstReach(sizes, base, 0, ends))
            && (forall ends :: FirstReach(sizes, base, 0, ends) ==>
                  Within(0, ends, |rows|) && bs == Responses(rows, 0, ends))
  {
    var ends := Reaches(sizes, base, 0, base);
    ReachesWithin(sizes, base, 0, 0, base);
    ReachesFirst(sizes, base, 0, 0, base);
    assert FirstReach(sizes, base, 0, ends);
    forall other | FirstReach(sizes, base, 0, other)
      ensures other == ends
    {
      FirstReachUnique(sizes, base, 0, other, ends);
    }
    ResponsesRight(rows, 0, ends);
    assert rows[0..] == rows;
  }
}
