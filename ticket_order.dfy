/** `sortTickets` (index.js:752-766): a category's ticket channels are
    ordered by descending tier, ties kept in their previous order, and
    given positions 0, 1, 2, ... in that order. */
module TicketOrder {
  import opened Options
  import opened Text
  import opened Seqs
  import opened Platform
  import opened Guilds
  import opened Entitlement

  /** A child of the category whose name contains "-t" (index.js:753-755). */
  predicate IsTicketChild(c: Channel, categoryId: Snowflake) {
    c.parentId == Some(categoryId) && Contains(c.name, "-t")
  }

  function ChildOf(categoryId: Snowflake): Channel -> bool {
    c => IsTicketChild(c, categoryId)
  }

  /** The category's ticket channels, in guild order. */
  function TicketChildren(cs: seq<Channel>, categoryId: Snowflake): seq<Channel> {
    Filter(cs, ChildOf(categoryId))
  }

  /** The tier a channel sorts by. */
  function Tier(c: Channel): nat {
    SortTier(c.name)
  }

  function HasTier(t: nat): Channel -> bool {
    c => Tier(c) == t
  }

  ghost predicate SortedByTier(s: seq<Channel>) {
    forall i, j :: 0 <= i < j < |s| ==> Tier(s[i]) >= Tier(s[j])
  }

  // ---------------------------------------------------------------------
  // The sort: `channels.sort((a, b) => tierB - tierA)`, which the language
  // requires to be stable
  // ---------------------------------------------------------------------

  /** Where `x` goes in a list sorted by descending tier so that it comes
      after every channel of a higher tier and before every other one. */
  function InsertPoint(x: Channel, t: seq<Channel>): (k: nat)
    ensures k <= |t|
    ensures forall j :: 0 <= j < k ==> Tier(t[j]) > Tier(x)
    ensures k < |t| ==> Tier(t[k]) <= Tier(x)
  {
    if t == [] || Tier(t[0]) <= Tier(x) then 0
    else
      var k := InsertPoint(x, t[1..]);
      assert forall j :: 1 <= j < |t| ==> t[j] == t[1..][j - 1];
      1 + k
  }

  function Insert(x: Channel, t: seq<Channel>): seq<Channel> {
    var k := InsertPoint(x, t);
    t[..k] + [x] + t[k..]
  }

  lemma InsertElements(x: Channel, t: seq<Channel>)
    ensures var k := InsertPoint(x, t); var r := Insert(x, t);
      && |r| == |t| + 1 && r[k] == x
      && (forall m :: 0 <= m < k ==> r[m] == t[m])
      && (forall m :: k < m < |r| ==> r[m] == t[m - 1])
  {
  }

  function SortByTier(s: seq<Channel>): (r: seq<Channel>)
    ensures |r| == |s|
  {
    if s == [] then [] else Insert(s[0], SortByTier(s[1..]))
  }

  lemma InsertSorted(x: Channel, t: seq<Channel>)
    requires SortedByTier(t)
    ensures SortedByTier(Insert(x, t))
  {
    InsertElements(x, t);
  }

  /** The sort orders by descending tier. */
  lemma {:induction false} SortByTierSorted(s: seq<Channel>)
    ensures SortedByTier(SortByTier(s))
  {
    if s != [] {
      SortByTierSorted(s[1..]);
      InsertSorted(s[0], SortByTier(s[1..]));
    }
  }

  /** The sort rearranges and neither loses nor adds a channel. */
  lemma {:induction false} SortByTierPermutation(s: seq<Channel>)
    ensures multiset(SortByTier(s)) == multiset(s)
  {
    if s != [] {
      SortByTierPermutation(s[1..]);
      InsertMultiset(s[0], SortByTier(s[1..]));
      assert s == [s[0]] + s[1..];
    }
  }

  lemma InsertMultiset(x: Channel, t: seq<Channel>)
    ensures multiset(Insert(x, t)) == multiset(t) + multiset{x}
  {
    var k := InsertPoint(x, t);
    assert t == t[..k] + t[k..];
  }

  lemma InsertFilter(x: Channel, t: seq<Channel>, p: Channel -> bool)
    ensures var k := InsertPoint(x, t);
      && Filter(Insert(x, t), p) == Filter(t[..k], p) + Filter([x], p) + Filter(t[k..], p)
      && Filter(t, p) == Filter(t[..k], p) + Filter(t[k..], p)
  {
    var k := InsertPoint(x, t);
    FilterAround(t[..k], x, t[k..], p);
    FilterCut(t, k, p);
  }

  /** Filtering a sequence with one element put in filters each piece. */
  lemma FilterAround(a: seq<Channel>, x: Channel, b: seq<Channel>, p: Channel -> bool)
    ensures Filter(a + [x] + b, p) == Filter(a, p) + Filter([x], p) + Filter(b, p)
  {
    FilterAppend(a + [x], b, p);
    FilterAppend(a, [x], p);
  }

  /** Filtering a sequence cut in two filters each part. */
  lemma FilterCut(t: seq<Channel>, k: nat, p: Channel -> bool)
    requires k <= |t|
    ensures Filter(t, p) == Filter(t[..k], p) + Filter(t[k..], p)
  {
    assert t == t[..k] + t[k..];
    FilterAppend(t[..k], t[k..], p);
  }

  /** The sort is stable: the channels of any one tier keep their order. */
  lemma {:induction false} SortByTierStable(s: seq<Channel>, tier: nat)
    ensures Filter(SortByTier(s), HasTier(tier)) == Filter(s, HasTier(tier))
  {
    if s != [] {
      var x := s[0];
      var t := SortByTier(s[1..]);
      var k := InsertPoint(x, t);
      var p := HasTier(tier);
      assert SortByTier(s) == Insert(x, t);
      SortByTierStable(s[1..], tier);
      InsertFilter(x, t, p);
      var a, xs, b := Filter(t[..k], p), Filter([x], p), Filter(t[k..], p);
      assert s == [x] + s[1..];
      FilterAppend([x], s[1..], p);
      assert Filter(s, p) == xs + Filter(t, p);
      if Tier(x) == tier {
        FilterNone(t[..k], p);
      } else {
        assert xs == [];
      }
      MergeEither(a, xs, b);
    }
  }

  /** `a + xs + b` is `xs + (a + b)` when one of `a`, `xs` is empty. */
  lemma MergeEither(a: seq<Channel>, xs: seq<Channel>, b: seq<Channel>)
    requires a == [] || xs == []
    ensures a + xs + b == xs + (a + b)
  {
  }

  lemma FilterNone(s: seq<Channel>, p: Channel -> bool)
    requires forall i :: 0 <= i < |s| ==> !p(s[i])
    ensures Filter(s, p) == []
  {
  }

  lemma SortByTierMembers(s: seq<Channel>)
    ensures forall c :: c in SortByTier(s) <==> c in s
  {
    SortByTierPermutation(s);
    assert forall c :: c in SortByTier(s) <==> c in multiset(SortByTier(s));
  }

  lemma InsertDistinct(x: Channel, t: seq<Channel>)
    requires DistinctIds(t) && forall c :: c in t ==> c.id != x.id
    ensures DistinctIds(Insert(x, t))
  {
    var k := InsertPoint(x, t);
    var r := Insert(x, t);
    InsertElements(x, t);
    forall i, j | 0 <= i < j < |r| ensures IdOf(r[i]) != IdOf(r[j]) {
      if j == k {
        assert r[i] == t[i];
      } else if i == k {
        assert r[j] in t;
      }
    }
  }

  /** Sorting keeps channel ids distinct. */
  lemma {:induction false} SortByTierDistinct(s: seq<Channel>)
    requires DistinctIds(s)
    ensures DistinctIds(SortByTier(s))
  {
    if s != [] {
      assert DistinctIds(s[1..]) by {
        forall i, j | 0 <= i < j < |s[1..]| ensures IdOf(s[1..][i]) != IdOf(s[1..][j]) {
          assert s[1..][i] == s[i + 1] && s[1..][j] == s[j + 1];
        }
      }
      SortByTierDistinct(s[1..]);
      SortByTierMembers(s[1..]);
      forall c | c in SortByTier(s[1..]) ensures c.id != s[0].id {
        var j :| 0 <= j < |s[1..]| && s[1..][j] == c;
        assert s[j + 1] == c;
        assert IdOf(s[0]) != IdOf(s[j + 1]);
      }
      InsertDistinct(s[0], SortByTier(s[1..]));
    }
  }

  // ---------------------------------------------------------------------
  // Positions: `for (i ...) channels[i].setPosition(i)`
  // ---------------------------------------------------------------------

  function SameId(id: Snowflake): Channel -> bool {
    (c: Channel) => c.id == id
  }

  /** `setPosition(p)` on the channel with that id. */
  function SetPosition(cs: seq<Channel>, id: Snowflake, p: int): (r: seq<Channel>)
    ensures |r| == |cs|
    ensures forall j :: 0 <= j < |cs| ==> r[j] == cs[j].(position := r[j].position)
  {
    seq(|cs|, j requires 0 <= j < |cs| => if cs[j].id == id then cs[j].(position := p) else cs[j])
  }

  /** The guild's channels after `order[i]` has been given position `i`
      for each `i`, in turn. */
  function Reposition(cs: seq<Channel>, order: seq<Channel>): (r: seq<Channel>)
    decreases |order|
    ensures |r| == |cs|
    ensures forall j :: 0 <= j < |cs| ==> r[j] == cs[j].(position := r[j].position)
  {
    if order == [] then cs
    else
      var n := |order| - 1;
      SetPosition(Reposition(cs, order[..n]), order[n].id, n)
  }

  /** With distinct ids in `order`, a channel ends at its index in `order`
      when it is listed there, and is untouched otherwise. */
  lemma {:induction false} RepositionAt(cs: seq<Channel>, order: seq<Channel>, j: nat)
    requires DistinctIds(order) && j < |cs|
    decreases |order|
    ensures Reposition(cs, order)[j] ==
      match FirstIndex(order, SameId(cs[j].id))
      case None => cs[j]
      case Some(k) => cs[j].(position := k)
  {
    if order != [] {
      var n := |order| - 1;
      PrefixDistinct(order, n);
      RepositionAt(cs, order[..n], j);
      FirstIndexSnoc(order, cs[j].id);
    }
  }

  lemma PrefixDistinct(s: seq<Channel>, n: nat)
    requires DistinctIds(s) && n <= |s|
    ensures DistinctIds(s[..n])
  {
    forall a, b | 0 <= a < b < n ensures IdOf(s[..n][a]) != IdOf(s[..n][b]) {
      assert s[..n][a] == s[a] && s[..n][b] == s[b];
    }
  }

  /** The first channel with an id, in a list without repeated ids, is
      the last one when that one has the id. */
  lemma FirstIndexSnoc(order: seq<Channel>, id: Snowflake)
    requires DistinctIds(order) && order != []
    ensures var n := |order| - 1;
      FirstIndex(order, SameId(id))
        == if order[n].id == id then Some(n) else FirstIndex(order[..n], SameId(id))
  {
    var n := |order| - 1;
    var p := SameId(id);
    if p(order[n]) {
      forall a | 0 <= a < n ensures !p(order[a]) {
        assert IdOf(order[a]) != IdOf(order[n]);
      }
      FirstIndexOnly(order, p, n);
    } else {
      assert order == order[..n] + [order[n]];
      FirstIndexAppend(order[..n], order[n], p);
    }
  }

  /** The guild's channels after `sortTickets(category)`. */
  function SortedPositions(cs: seq<Channel>, categoryId: Snowflake): seq<Channel> {
    Reposition(cs, SortByTier(TicketChildren(cs, categoryId)))
  }

  /** Where a channel of the guild ends up in the sorted order, if at all:
      ticket children at the index they were sorted to, every other
      channel nowhere. */
  lemma PlaceOf(cs: seq<Channel>, categoryId: Snowflake, j: nat) returns (k: Option<nat>)
    requires DistinctIds(cs) && j < |cs|
    ensures var order := SortByTier(TicketChildren(cs, categoryId));
      && (k.Some? <==> IsTicketChild(cs[j], categoryId))
      && (k.Some? ==> k.value < |order| && order[k.value] == cs[j]
                      && SortedPositions(cs, categoryId)[j] == cs[j].(position := k.value))
      && (k.None? ==> SortedPositions(cs, categoryId)[j] == cs[j])
  {
    var kids := TicketChildren(cs, categoryId);
    var order := SortByTier(kids);
    FilterDistinctBy(cs, ChildOf(categoryId), IdOf);
    SortByTierDistinct(kids);
    SortByTierMembers(kids);
    RepositionAt(cs, order, j);
    k := FirstIndex(order, SameId(cs[j].id));
    if k.Some? {
      var c := order[k.value];
      assert c in kids;
      var m :| 0 <= m < |cs| && cs[m] == c;
      assert IdOf(cs[m]) == IdOf(cs[j]);
      assert m == j;
    }
    if IsTicketChild(cs[j], categoryId) {
      assert cs[j] in order;
      var m :| 0 <= m < |order| && order[m] == cs[j];
      assert SameId(cs[j].id)(order[m]);
    }
  }

  /** `sortTickets` changes nothing but positions, and the positions only
      of the category's ticket channels, which get the positions
      0 .. n-1, one each. */
  lemma SortChangesOnlyTicketPositions(cs: seq<Channel>, categoryId: Snowflake)
    requires DistinctIds(cs)
    ensures var r := SortedPositions(cs, categoryId);
      var n := |TicketChildren(cs, categoryId)|;
      && |r| == |cs|
      && (forall j :: 0 <= j < |cs| ==> r[j] == cs[j].(position := r[j].position))
      && (forall j :: 0 <= j < |cs| && !IsTicketChild(cs[j], categoryId) ==> r[j] == cs[j])
      && (forall j :: 0 <= j < |cs| && IsTicketChild(cs[j], categoryId) ==> 0 <= r[j].position < n)
      && (forall i, j :: 0 <= i < j < |cs| && IsTicketChild(cs[i], categoryId) && IsTicketChild(cs[j], categoryId)
            ==> r[i].position != r[j].position)
  {
    var r := SortedPositions(cs, categoryId);
    forall j | 0 <= j < |cs|
      ensures r[j] == cs[j].(position := r[j].position)
      ensures !IsTicketChild(cs[j], categoryId) ==> r[j] == cs[j]
      ensures IsTicketChild(cs[j], categoryId) ==> 0 <= r[j].position < |TicketChildren(cs, categoryId)|
    {
      var k := PlaceOf(cs, categoryId, j);
    }
    forall i, j | 0 <= i < j < |cs| && IsTicketChild(cs[i], categoryId) && IsTicketChild(cs[j], categoryId)
      ensures r[i].position != r[j].position
    {
      var ki := PlaceOf(cs, categoryId, i);
      var kj := PlaceOf(cs, categoryId, j);
      assert IdOf(cs[i]) != IdOf(cs[j]);
    }
  }

  /** Higher tiers come first. */
  lemma SortHigherTierFirst(cs: seq<Channel>, categoryId: Snowflake, i: nat, j: nat)
    requires DistinctIds(cs) && i < |cs| && j < |cs|
    requires IsTicketChild(cs[i], categoryId) && IsTicketChild(cs[j], categoryId)
    requires Tier(cs[i]) > Tier(cs[j])
    ensures SortedPositions(cs, categoryId)[i].position < SortedPositions(cs, categoryId)[j].position
  {
    var order := SortByTier(TicketChildren(cs, categoryId));
    var ki := PlaceOf(cs, categoryId, i);
    var kj := PlaceOf(cs, categoryId, j);
    SortByTierSorted(TicketChildren(cs, categoryId));
  }

  /** Channels of equal tier keep the order they had in the guild. */
  lemma SortKeepsTies(cs: seq<Channel>, categoryId: Snowflake, i: nat, j: nat)
    requires DistinctIds(cs) && i < j < |cs|
    requires IsTicketChild(cs[i], categoryId) && IsTicketChild(cs[j], categoryId)
    requires Tier(cs[i]) == Tier(cs[j])
    ensures SortedPositions(cs, categoryId)[i].position < SortedPositions(cs, categoryId)[j].position
  {
    var kids := TicketChildren(cs, categoryId);
    var order := SortByTier(kids);
    var same := HasTier(Tier(cs[i]));
    var ki := PlaceOf(cs, categoryId, i);
    var kj := PlaceOf(cs, categoryId, j);
    assert Before(cs, cs[i], cs[j]);
    FilterBefore(cs, ChildOf(categoryId), cs[i], cs[j]);
    FilterBefore(kids, same, cs[i], cs[j]);
    SortByTierStable(kids, Tier(cs[i]));
    FilterBefore(order, same, cs[i], cs[j]);
    FilterDistinctBy(cs, ChildOf(categoryId), IdOf);
    SortByTierDistinct(kids);
    DistinctByDistinct(order, IdOf);
    BeforeIndices(order, ki.value, kj.value);
  }
}
