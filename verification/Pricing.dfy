/** Insert-only price rows and the resolution of the current price. */
module Pricing {
  import opened Prelude

  datatype Channel = DineIn | Takeaway | Delivery | Qr | Aggregator

  datatype PriceRow = PriceRow(
    item: Id,
    variant: Option<Id>,
    outlet: Option<Id>,
    channel: Option<Channel>,
    price: nat,
    currency: string,
    effectiveAt: int,
    createdAt: int)

  datatype Target = Target(channel: Channel, outlet: Option<Id>)

  /** Not scheduled for later, and scoped to nothing else than the target. */
  predicate Eligible(r: PriceRow, target: Target, asOf: int) {
    && r.effectiveAt <= asOf
    && (r.outlet.Some? ==> r.outlet == target.outlet)
    && (r.channel.Some? ==> r.channel == Some(target.channel))
  }

  function Score(r: PriceRow): int {
    (if r.outlet.Some? then 2 else 0) + (if r.channel.Some? then 1 else 0)
  }

  predicate Newer(a: PriceRow, b: PriceRow) {
    a.effectiveAt > b.effectiveAt || (a.effectiveAt == b.effectiveAt && a.createdAt > b.createdAt)
  }

  predicate Beats(r: PriceRow, best: PriceRow) {
    Score(r) > Score(best) || (Score(r) == Score(best) && Newer(r, best))
  }

  function Pick(rows: seq<PriceRow>, target: Target, asOf: int): Option<PriceRow> {
    if |rows| == 0 then None else
      var best := Pick(rows[..|rows| - 1], target, asOf);
      var r := rows[|rows| - 1];
      if Eligible(r, target, asOf) && (best.None? || Beats(r, best.value)) then Some(r) else best
  }

  /** pickCurrentPrice: one pass keeping the best row and its score. */
  method PickCurrentPrice(rows: seq<PriceRow>, target: Target, asOf: int) returns (best: Option<PriceRow>)
    ensures best == Pick(rows, target, asOf)
  {
    best := None;
    var bestScore := -1;
    for i := 0 to |rows|
      invariant best == Pick(rows[..i], target, asOf)
      invariant bestScore == if best.Some? then Score(best.value) else -1
    {
      assert rows[..i + 1][..i] == rows[..i];
      var row := rows[i];
      if row.effectiveAt > asOf {
        continue;
      }
      if row.outlet.Some? && row.outlet != target.outlet {
        continue;
      }
      if row.channel.Some? && row.channel != Some(target.channel) {
        continue;
      }
      var score := Score(row);
      if score > bestScore || (score == bestScore && best.Some? && Newer(row, best.value)) {
        best, bestScore := Some(row), score;
      }
    }
    assert rows[..|rows|] == rows;
  }

  // ---- The winner is the most specific, then the newest ------------------------------------------

  /** a ranks no higher than b: outlet match first, then channel match, then effective time, then creation time. */
  ghost predicate RanksAtMost(a: PriceRow, b: PriceRow) {
    if a.outlet.Some? != b.outlet.Some? then b.outlet.Some?
    else if a.channel.Some? != b.channel.Some? then b.channel.Some?
    else if a.effectiveAt != b.effectiveAt then a.effectiveAt < b.effectiveAt
    else a.createdAt <= b.createdAt
  }

  lemma {:induction false} BeatsIsRank(a: PriceRow, b: PriceRow)
    ensures RanksAtMost(a, b) <==> !Beats(a, b)
  {
  }

  lemma {:induction false} RanksTransitive(a: PriceRow, b: PriceRow, c: PriceRow)
    requires RanksAtMost(a, b) && RanksAtMost(b, c)
    ensures RanksAtMost(a, c)
  {
  }

  /** The picked row is eligible and maximal; nothing is picked exactly when nothing is eligible. */
  lemma {:induction false} PickIsMaximal(rows: seq<PriceRow>, target: Target, asOf: int)
    ensures Pick(rows, target, asOf).None? <==> forall r :: r in rows ==> !Eligible(r, target, asOf)
    ensures Pick(rows, target, asOf).Some? ==>
              var best := Pick(rows, target, asOf).value;
              && best in rows && Eligible(best, target, asOf)
              && forall r :: r in rows && Eligible(r, target, asOf) ==> RanksAtMost(r, best)
  {
    if |rows| > 0 {
      var front, last := rows[..|rows| - 1], rows[|rows| - 1];
      assert rows == front + [last];
      PickIsMaximal(front, target, asOf);
      assert last in rows;
      var before, best := Pick(front, target, asOf), Pick(rows, target, asOf);
      if best.Some? {
        if before.Some? {
          BeatsIsRank(last, before.value);
          assert before.value in rows;
        }
        forall r | r in rows && Eligible(r, target, asOf)
          ensures RanksAtMost(r, best.value)
        {
          if r in front && best == Some(last) && before.Some? {
            RanksTransitive(r, before.value, last);
          }
        }
      }
    }
  }

  /** No two rows tie on every key, so the order the rows come back in does not matter. */
  ghost predicate NoTies(rows: seq<PriceRow>) {
    forall a, b :: a in rows && b in rows && a.outlet == b.outlet && a.channel == b.channel && a.effectiveAt == b.effectiveAt && a.createdAt == b.createdAt ==> a == b
  }

  lemma {:induction false} MaximalUnique(rows: seq<PriceRow>, target: Target, asOf: int, a: PriceRow, b: PriceRow)
    requires NoTies(rows) && a in rows && b in rows && Eligible(a, target, asOf) && Eligible(b, target, asOf)
    requires RanksAtMost(a, b) && RanksAtMost(b, a)
    ensures a == b
  {
  }

  // ---- Resolving, inserting, copying ---------------------------------------------------------------

  function ForItem(item: Id, variant: Option<Id>): PriceRow -> bool {
    (r: PriceRow) => r.item == item && r.variant == variant
  }

  function Resolve(table: seq<PriceRow>, item: Id, variant: Option<Id>, target: Target, asOf: int): Option<PriceRow> {
    Pick(Filter(table, ForItem(item, variant)), target, asOf)
  }

  datatype Scope = Scope(item: Id, variant: Option<Id>, outlet: Option<Id>)

  predicate InScope(r: PriceRow, scope: Scope) {
    r.item == scope.item && r.variant == scope.variant && r.outlet == scope.outlet
  }

  /** The distinct channels with a price of their own in the scope. */
  function OwnChannels(table: seq<PriceRow>, scope: Scope): seq<Option<Channel>> {
    if |table| == 0 then [] else
      var front := OwnChannels(table[..|table| - 1], scope);
      var r := table[|table| - 1];
      if InScope(r, scope) && r.channel.Some? && r.channel !in front then front + [r.channel] else front
  }

  function RowsFor(channels: seq<Option<Channel>>, row: PriceRow): seq<PriceRow> {
    seq(|channels|, i requires 0 <= i < |channels| => row.(channel := channels[i]))
  }

  /** One row for a named channel; with no channel, the default plus one row per channel that has its own price. */
  function InsertPrice(table: seq<PriceRow>, row: PriceRow): seq<PriceRow> {
    var scope := Scope(row.item, row.variant, row.outlet);
    table + RowsFor(if row.channel.Some? then [row.channel] else [None] + OwnChannels(table, scope), row)
  }

  method WritePrice(table: seq<PriceRow>, row: PriceRow) returns (table': seq<PriceRow>)
    ensures table' == InsertPrice(table, row)
  {
    var channels := [row.channel];
    if row.channel.None? {
      var own: seq<Option<Channel>> := [];
      ghost var scope := Scope(row.item, row.variant, row.outlet);
      for i := 0 to |table|
        invariant own == OwnChannels(table[..i], scope)
      {
        assert table[..i + 1][..i] == table[..i];
        var r := table[i];
        if r.item == row.item && r.variant == row.variant && r.outlet == row.outlet && r.channel.Some? && r.channel !in own {
          own := own + [r.channel];
        }
      }
      assert table[..|table|] == table;
      channels := [None] + own;
    }
    table' := table;
    for i := 0 to |channels|
      invariant table' == table + RowsFor(channels, row)[..i]
    {
      table' := table' + [row.(channel := channels[i])];
    }
  }

  lemma {:induction false} OwnChannelsCover(table: seq<PriceRow>, scope: Scope, r: PriceRow)
    requires r in table && InScope(r, scope) && r.channel.Some?
    ensures r.channel in OwnChannels(table, scope)
  {
    var front, last := table[..|table| - 1], table[|table| - 1];
    if r != last {
      assert r in front;
      OwnChannelsCover(front, scope, r);
    }
  }

  /** Every row an insert adds carries the new price under one channel. */
  lemma {:induction false} InsertedRows(table: seq<PriceRow>, row: PriceRow, r: PriceRow)
    requires r in InsertPrice(table, row) && r !in table
    ensures r == row.(channel := r.channel)
  {
    var k :| 0 <= k < |InsertPrice(table, row)| && InsertPrice(table, row)[k] == r;
  }

  /**
   * An all-channel insert that is newer than every row of its scope wins for every channel of every target
   * it applies to, from its effective time on, unless a row of the target's own outlet is more specific.
   */
  lemma {:induction false} AllChannelInsertWins(table: seq<PriceRow>, row: PriceRow, target: Target, asOf: int)
    requires row.channel.None? && row.effectiveAt <= asOf
    requires forall r :: r in table && InScope(r, Scope(row.item, row.variant, row.outlet)) ==> Newer(row, r)
    requires row.outlet.Some? ==> row.outlet == target.outlet
    requires row.outlet.None? ==> forall r :: r in table && r.item == row.item && r.variant == row.variant && Eligible(r, target, asOf) ==> r.outlet.None?
    ensures Resolve(InsertPrice(table, row), row.item, row.variant, target, asOf).Some?
    ensures var r := Resolve(InsertPrice(table, row), row.item, row.variant, target, asOf).value;
            r == row.(channel := r.channel)
  {
    var table' := InsertPrice(table, row);
    var rows := Filter(table', ForItem(row.item, row.variant));
    PickIsMaximal(rows, target, asOf);
    assert table'[|table|] == row;
    FilterMember(table', ForItem(row.item, row.variant), row);
    var w := Pick(rows, target, asOf).value;
    FilterMember(table', ForItem(row.item, row.variant), w);
    if w in table {
      var rival := OldRowBeaten(table, row, target, asOf, w);
      assert false;
    }
    InsertedRows(table, row, w);
  }

  /** An old row is beaten: by the new default, or by the new row of its own channel, which is as specific and newer. */
  lemma {:induction false} OldRowBeaten(table: seq<PriceRow>, row: PriceRow, target: Target, asOf: int, w: PriceRow) returns (rival: PriceRow)
    requires row.channel.None? && row.effectiveAt <= asOf
    requires forall r :: r in table && InScope(r, Scope(row.item, row.variant, row.outlet)) ==> Newer(row, r)
    requires row.outlet.Some? ==> row.outlet == target.outlet
    requires row.outlet.None? ==> forall r :: r in table && r.item == row.item && r.variant == row.variant && Eligible(r, target, asOf) ==> r.outlet.None?
    requires w in table && w.item == row.item && w.variant == row.variant && Eligible(w, target, asOf)
    ensures rival in Filter(InsertPrice(table, row), ForItem(row.item, row.variant))
    ensures Eligible(rival, target, asOf) && !RanksAtMost(rival, w)
  {
    var scope := Scope(row.item, row.variant, row.outlet);
    var table' := InsertPrice(table, row);
    assert table'[|table|] == row;
    rival := if InScope(w, scope) then row.(channel := w.channel) else row;
    if InScope(w, scope) && w.channel.Some? {
      OwnChannelsCover(table, scope, w);
      var k :| 0 <= k < |OwnChannels(table, scope)| && OwnChannels(table, scope)[k] == w.channel;
      assert table'[|table| + 1 + k] == rival;
    }
    FilterMember(table', ForItem(row.item, row.variant), rival);
  }

  function Copied(r: PriceRow, variant: Id): PriceRow {
    r.(variant := Some(variant))
  }

  function CopyRows(rows: seq<PriceRow>, variant: Id): seq<PriceRow> {
    seq(|rows|, i requires 0 <= i < |rows| => Copied(rows[i], variant))
  }

  /** Carries every base price row over to a new variant, times included. */
  function CopyBasePrices(table: seq<PriceRow>, item: Id, variant: Id): seq<PriceRow> {
    table + CopyRows(Filter(table, ForItem(item, None)), variant)
  }

  method WriteCopies(table: seq<PriceRow>, item: Id, variant: Id) returns (table': seq<PriceRow>)
    ensures table' == CopyBasePrices(table, item, variant)
  {
    var rows := Filter(table, ForItem(item, None));
    table' := table;
    for i := 0 to |rows|
      invariant table' == table + CopyRows(rows, variant)[..i]
    {
      var row := rows[i];
      table' := table' + [PriceRow(item, Some(variant), row.outlet, row.channel, row.price, row.currency, row.effectiveAt, row.createdAt)];
      FilterMember(table, ForItem(item, None), row);
    }
  }

  /**
   * After the copy a new variant resolves, for every channel, outlet and time, to the copy of what the base
   * portion resolved to, whatever order the store returns the variant's rows in.
   */
  lemma {:induction false} CopyKeepsResolution(table: seq<PriceRow>, item: Id, variant: Id, returned: seq<PriceRow>, target: Target, asOf: int)
    requires NoTies(Filter(table, ForItem(item, None)))
    requires forall r :: r in table ==> r.variant != Some(variant)
    requires forall r :: r in returned <==> r in CopyBasePrices(table, item, variant) && ForItem(item, Some(variant))(r)
    ensures Pick(returned, target, asOf) ==
              match Resolve(table, item, None, target, asOf) case None => None case Some(r) => Some(PriceRow(item, Some(variant), r.outlet, r.channel, r.price, r.currency, r.effectiveAt, r.createdAt))
  {
    var base := Filter(table, ForItem(item, None));
    forall r | r in base
      ensures Copied(r, variant) in returned && r.variant == None && r.item == item
    {
      FilterMember(table, ForItem(item, None), r);
      var k :| 0 <= k < |base| && base[k] == r;
      assert CopyBasePrices(table, item, variant)[|table| + k] == Copied(r, variant);
    }
    forall r | r in returned
      ensures r.(variant := None) in base && Copied(r.(variant := None), variant) == r
    {
      var all := CopyBasePrices(table, item, variant);
      var k :| 0 <= k < |all| && all[k] == r;
      assert forall j :: 0 <= j < |table| ==> table[j] in table;
      assert base[k - |table|] in base;
      FilterMember(table, ForItem(item, None), base[k - |table|]);
    }
    PickIsMaximal(base, target, asOf);
    PickIsMaximal(returned, target, asOf);
    var b, v := Pick(base, target, asOf), Pick(returned, target, asOf);
    if b.Some? {
      assert Eligible(Copied(b.value, variant), target, asOf);
      var w := v.value.(variant := None);
      assert Eligible(w, target, asOf);
      assert RanksAtMost(w, b.value);
      assert RanksAtMost(Copied(b.value, variant), v.value);
      MaximalUnique(base, target, asOf, w, b.value);
    } else if v.Some? {
      assert Eligible(v.value.(variant := None), target, asOf);
    }
  }

  // ---- Spelled out ---------------------------------------------------------------------------------

  /** In effect by then, for every outlet or this one, for every channel or this one. */
  ghost predicate Applies(r: PriceRow, target: Target, asOf: int) {
    r.effectiveAt <= asOf && (r.outlet == None || r.outlet == target.outlet) && (r.channel == None || r.channel == Some(target.channel))
  }

  /** The current price is an applying row no other applying row outranks; there is none exactly when no row applies. */
  lemma {:induction false} CurrentPriceExact(rows: seq<PriceRow>, target: Target, asOf: int)
    ensures Pick(rows, target, asOf).None? <==> forall r :: r in rows ==> !Applies(r, target, asOf)
    ensures Pick(rows, target, asOf).Some? ==>
              var best := Pick(rows, target, asOf).value;
              best in rows && Applies(best, target, asOf) && forall r :: r in rows && Applies(r, target, asOf) ==> RanksAtMost(r, best)
  {
    PickIsMaximal(rows, target, asOf);
    assert forall r :: Applies(r, target, asOf) <==> Eligible(r, target, asOf);
  }

  /**
   * A price for a named channel is exactly one new row; newer than the other prices of its scope and channel, it is the
   * current price there from its effective time on, unless a row of the target's own outlet is more specific.
   */
  lemma {:induction false} NamedChannelInsertWins(table: seq<PriceRow>, row: PriceRow, target: Target, asOf: int)
    requires row.channel == Some(target.channel) && row.effectiveAt <= asOf
    requires forall r :: r in table && InScope(r, Scope(row.item, row.variant, row.outlet)) && r.channel == row.channel ==> Newer(row, r)
    requires row.outlet.Some? ==> row.outlet == target.outlet
    requires row.outlet.None? ==> forall r :: r in table && r.item == row.item && r.variant == row.variant && Eligible(r, target, asOf) ==> r.outlet.None?
    ensures InsertPrice(table, row) == table + [row]
    ensures Resolve(InsertPrice(table, row), row.item, row.variant, target, asOf) == Some(row)
  {
    assert RowsFor([row.channel], row) == [row];
    var table' := table + [row];
    var rows := Filter(table', ForItem(row.item, row.variant));
    PickIsMaximal(rows, target, asOf);
    assert table'[|table|] == row;
    FilterMember(table', ForItem(row.item, row.variant), row);
    assert Eligible(row, target, asOf);
    var w := Pick(rows, target, asOf).value;
    FilterMember(table', ForItem(row.item, row.variant), w);
  }
}
