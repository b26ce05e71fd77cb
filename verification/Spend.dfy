/**
 * Roll-ups of the spend ledger: totals, groups by any key, and the bill of one ticket.
 * Costs are whole units; a record without cost data has none.
 */
module Spend {
  import opened Wrappers

  datatype Record = Record(
    ticket: string, project: string, model: string, stage: string, harness: string,
    turns: int, toolCalls: int, tokensIn: int, tokensOut: int,
    cost: Option<int>,
    at: Option<int>)            // None: the timestamp does not parse

  datatype Totals = Totals(
    records: nat, turns: int, toolCalls: int, tokensIn: int, tokensOut: int, cost: Option<int>, unknown: nat)

  const NOTHING := Totals(0, 0, 0, 0, 0, None, 0)

  /** What a row is grouped by: a project, a model, a stage, a harness or a ticket. */
  datatype Name = Name(text: string)

  type Key = Record -> Name

  function AddCost(a: Option<int>, b: Option<int>): Option<int> {
    if a.None? then b else if b.None? then a else Some(a.value + b.value)
  }

  function Add(a: Totals, b: Totals): Totals {
    Totals(a.records + b.records, a.turns + b.turns, a.toolCalls + b.toolCalls, a.tokensIn + b.tokensIn,
           a.tokensOut + b.tokensOut, AddCost(a.cost, b.cost), a.unknown + b.unknown)
  }

  function One(r: Record): Totals {
    Totals(1, r.turns, r.toolCalls, r.tokensIn, r.tokensOut, r.cost, if r.cost.None? then 1 else 0)
  }

  function OrZero(cost: Option<int>): int {
    if cost.Some? then cost.value else 0
  }

  // ------------------------------------------- the source's reductions

  function SumOf(rows: seq<Record>, f: Record -> int): int {
    if rows == [] then 0 else f(rows[0]) + SumOf(rows[1..], f)
  }

  predicate AnyCost(rows: seq<Record>) {
    exists r :: r in rows && r.cost.Some?
  }

  function Select(rows: seq<Record>, p: Record -> bool): seq<Record> {
    if rows == [] then []
    else if p(rows[0]) then [rows[0]] + Select(rows[1..], p)
    else Select(rows[1..], p)
  }

  /** Each field reduced on its own; the cost is null unless some record has one. */
  function Total(rows: seq<Record>): Totals {
    Totals(|rows|, SumOf(rows, (r: Record) => r.turns), SumOf(rows, (r: Record) => r.toolCalls),
           SumOf(rows, (r: Record) => r.tokensIn), SumOf(rows, (r: Record) => r.tokensOut),
           if AnyCost(rows) then Some(SumOf(rows, (r: Record) => OrZero(r.cost))) else None,
           |Select(rows, (r: Record) => r.cost.None?)|)
  }

  function Since(rows: seq<Record>, since: Option<int>): seq<Record> {
    if since.None? then rows else Select(rows, (r: Record) => r.at.Some? && r.at.value >= since.value)
  }

  /** The entry of a name in the group map. */
  function GroupOf(rows: seq<Record>, key: Key, name: Name): seq<Record> {
    if rows == [] then []
    else if key(rows[0]) == name then [rows[0]] + GroupOf(rows[1..], key, name)
    else GroupOf(rows[1..], key, name)
  }

  function Keys(rows: seq<Record>, key: Key): set<Name> {
    set r | r in rows :: key(r)
  }

  /** The roll-up of one key, in any order of its names. */
  function Rollup(rows: seq<Record>, key: Key, names: seq<Name>): seq<Totals> {
    seq(|names|, i requires 0 <= i < |names| => Total(GroupOf(rows, key, names[i])))
  }

  function AddUp(groups: seq<Totals>): Totals {
    if groups == [] then NOTHING else Add(groups[0], AddUp(groups[1..]))
  }

  /** `names` lists every key of the rows once, as the entries of the group map do. */
  ghost predicate Lists(names: seq<Name>, rows: seq<Record>, key: Key) {
    && (forall i, j :: 0 <= i < j < |names| ==> names[i] != names[j])
    && (forall n :: n in names <==> n in Keys(rows, key))
  }

  /** `spendForTicket`. */
  function TicketCost(rows: seq<Record>, ticket: string, notBefore: Option<int>): int {
    if rows == [] then 0
    else
      TicketCost(rows[1..], ticket, notBefore)
      + if rows[0].ticket != ticket then 0
        else if notBefore.Some? && (rows[0].at.None? || rows[0].at.value < notBefore.value) then 0
        else OrZero(rows[0].cost)
  }

  // ------------------------------------------------------- conservation

  /** The field-by-field reductions are one fold. */
  lemma {:induction false} TotalStep(rows: seq<Record>)
    requires rows != []
    ensures Total(rows) == Add(One(rows[0]), Total(rows[1..]))
  {
    var rest := rows[1..];
    assert rows == [rows[0]] + rest;
    assert AnyCost(rows) <==> rows[0].cost.Some? || AnyCost(rest) by {
      if rows[0].cost.Some? { assert rows[0] in rows; }
    }
    if !AnyCost(rest) { NoCost(rest); }
  }

  lemma {:induction false} NoCost(rows: seq<Record>)
    requires !AnyCost(rows)
    ensures SumOf(rows, (r: Record) => OrZero(r.cost)) == 0
  {
    if rows != [] {
      assert rows[0] in rows;
      assert forall r :: r in rows[1..] ==> r in rows;
      NoCost(rows[1..]);
    }
  }

  /** Adding up is associative and commutative, unknown costs included. */
  lemma AddLaws(a: Totals, b: Totals, c: Totals)
    ensures Add(Add(a, b), c) == Add(a, Add(b, c)) && Add(a, b) == Add(b, a) && Add(NOTHING, a) == a
  {
  }

  /** The record counts: there is no window, or its time parses and is not before it. */
  predicate InWindow(r: Record, since: Option<int>) {
    since.None? || (r.at.Some? && since.value <= r.at.value)
  }

  lemma {:induction false} SelectJoins(rows: seq<Record>, r: Record, p: Record -> bool)
    ensures Select(rows + [r], p) == Select(rows, p) + if p(r) then [r] else []
  {
    if rows == [] {
      assert rows + [r] == [r] && [r][1..] == [];
    } else {
      assert (rows + [r])[1..] == rows[1..] + [r];
      SelectJoins(rows[1..], r, p);
    }
  }

  lemma {:induction false} SumJoins(rows: seq<Record>, r: Record, f: Record -> int)
    ensures SumOf(rows + [r], f) == SumOf(rows, f) + f(r)
  {
    if rows == [] {
      assert rows + [r] == [r] && [r][1..] == [];
    } else {
      assert (rows + [r])[1..] == rows[1..] + [r];
      SumJoins(rows[1..], r, f);
    }
  }

  lemma TotalJoins(rows: seq<Record>, r: Record)
    ensures var t, t' := Total(rows), Total(rows + [r]);
            && t'.records == t.records + 1 && t'.turns == t.turns + r.turns && t'.toolCalls == t.toolCalls + r.toolCalls
            && t'.tokensIn == t.tokensIn + r.tokensIn && t'.tokensOut == t.tokensOut + r.tokensOut
            && t'.cost == (if r.cost.None? then t.cost else Some(OrZero(t.cost) + r.cost.value))
            && t'.unknown == t.unknown + if r.cost.None? then 1 else 0
  {
    SumJoins(rows, r, (r: Record) => r.turns);
    SumJoins(rows, r, (r: Record) => r.toolCalls);
    SumJoins(rows, r, (r: Record) => r.tokensIn);
    SumJoins(rows, r, (r: Record) => r.tokensOut);
    SumJoins(rows, r, (r: Record) => OrZero(r.cost));
    SelectJoins(rows, r, (r: Record) => r.cost.None?);
    assert AnyCost(rows + [r]) <==> r.cost.Some? || AnyCost(rows) by {
      if r.cost.Some? { assert r in rows + [r]; }
      if AnyCost(rows) { var x :| x in rows && x.cost.Some?; assert x in rows + [r]; }
    }
    if !AnyCost(rows) { NoCost(rows); }
  }

  /**
   * What the totals of a window mean: none of an empty ledger; and one more record adds each of its
   * fields to that field exactly if its time is not before the window, and otherwise changes nothing.
   */
  lemma OneMoreRecord(rows: seq<Record>, r: Record, since: Option<int>)
    ensures Total(Since([], since)) == Totals(0, 0, 0, 0, 0, None, 0)
    ensures var t, t' := Total(Since(rows, since)), Total(Since(rows + [r], since));
            if !InWindow(r, since) then t' == t
            else
              && t'.records == t.records + 1 && t'.turns == t.turns + r.turns && t'.toolCalls == t.toolCalls + r.toolCalls
              && t'.tokensIn == t.tokensIn + r.tokensIn && t'.tokensOut == t.tokensOut + r.tokensOut
              && t'.cost == (if r.cost.None? then t.cost else Some(OrZero(t.cost) + r.cost.value))
              && t'.unknown == t.unknown + if r.cost.None? then 1 else 0
  {
    if since.Some? { SelectJoins(rows, r, (r: Record) => r.at.Some? && r.at.value >= since.value); }
    if InWindow(r, since) { TotalJoins(Since(rows, since), r); }
    else { assert Since(rows + [r], since) == Since(rows, since); }
  }

  /** The reductions as one fold. */
  function Fold(rows: seq<Record>): Totals {
    if rows == [] then NOTHING else Add(One(rows[0]), Fold(rows[1..]))
  }

  lemma {:induction false} TotalIsFold(rows: seq<Record>)
    ensures Total(rows) == Fold(rows)
  {
    if rows != [] {
      TotalStep(rows);
      TotalIsFold(rows[1..]);
    }
  }

  lemma FoldCons(r: Record, rest: seq<Record>)
    ensures Fold([r] + rest) == Add(One(r), Fold(rest))
  {
    assert ([r] + rest)[1..] == rest;
  }

  /** The rows whose key is one of the names. */
  function Named(rows: seq<Record>, key: Key, names: set<Name>): seq<Record> {
    if rows == [] then []
    else if key(rows[0]) in names then [rows[0]] + Named(rows[1..], key, names)
    else Named(rows[1..], key, names)
  }

  function AsSet(names: seq<Name>): set<Name> {
    set n | n in names
  }

  lemma AsSetCons(name: Name, rest: seq<Name>)
    ensures AsSet([name] + rest) == {name} + AsSet(rest)
  {
  }

  /** The totals of the rows whose key is one of the names, without building the group. */
  function FoldWhere(rows: seq<Record>, key: Key, names: set<Name>): Totals {
    if rows == [] then NOTHING
    else if key(rows[0]) in names then Add(One(rows[0]), FoldWhere(rows[1..], key, names))
    else FoldWhere(rows[1..], key, names)
  }

  lemma {:induction false} FoldNamed(rows: seq<Record>, key: Key, names: set<Name>)
    ensures Fold(Named(rows, key, names)) == FoldWhere(rows, key, names)
  {
    if rows != [] {
      FoldNamed(rows[1..], key, names);
      FoldCons(rows[0], Named(rows[1..], key, names));
    }
  }

  lemma {:induction false} FoldGroup(rows: seq<Record>, key: Key, name: Name)
    ensures Fold(GroupOf(rows, key, name)) == FoldWhere(rows, key, {name})
  {
    if rows != [] {
      FoldGroup(rows[1..], key, name);
      FoldCons(rows[0], GroupOf(rows[1..], key, name));
    }
  }

  lemma {:induction false} SplitOff(rows: seq<Record>, key: Key, name: Name, rest: set<Name>, all: set<Name>)
    requires name !in rest && forall x :: x in all <==> x == name || x in rest
    ensures FoldWhere(rows, key, all) == Add(FoldWhere(rows, key, {name}), FoldWhere(rows, key, rest))
    decreases |rows|
  {
    hide Add, One;
    if rows == [] {
      AddLaws(NOTHING, NOTHING, NOTHING);
    } else {
      var b, c := FoldWhere(rows[1..], key, {name}), FoldWhere(rows[1..], key, rest);
      SplitOff(rows[1..], key, name, rest, all);
      AddLaws(One(rows[0]), b, c);
      AddLaws(b, One(rows[0]), c);
    }
  }

  lemma {:induction false} NamedNone(rows: seq<Record>, key: Key)
    ensures Named(rows, key, {}) == []
  {
    if rows != [] { NamedNone(rows[1..], key); }
  }

  lemma {:induction false} NamedAll(rows: seq<Record>, key: Key, names: set<Name>)
    requires Keys(rows, key) <= names
    ensures Named(rows, key, names) == rows
  {
    if rows != [] {
      assert key(rows[0]) in Keys(rows, key) && forall r :: r in rows[1..] ==> r in rows;
      assert Keys(rows[1..], key) <= Keys(rows, key);
      NamedAll(rows[1..], key, names);
    }
  }

  lemma {:induction false} RollupAddsUp(rows: seq<Record>, key: Key, names: seq<Name>)
    requires forall i, j :: 0 <= i < j < |names| ==> names[i] != names[j]
    ensures AddUp(Rollup(rows, key, names)) == FoldWhere(rows, key, AsSet(names))
    decreases |names|
  {
    if names == [] {
      assert AsSet(names) == {};
      NamedNone(rows, key);
      FoldNamed(rows, key, {});
    } else {
      var name, rest := names[0], names[1..];
      assert names == [name] + rest;
      AsSetCons(name, rest);
      RollupAddsUp(rows, key, rest);
      SplitOff(rows, key, name, AsSet(rest), AsSet(names));
      FoldGroup(rows, key, name);
      RollupCons(rows, key, name, rest);
    }
  }

  lemma RollupCons(rows: seq<Record>, key: Key, name: Name, rest: seq<Name>)
    ensures AddUp(Rollup(rows, key, [name] + rest)) == Add(Fold(GroupOf(rows, key, name)), AddUp(Rollup(rows, key, rest)))
  {
    TotalIsFold(GroupOf(rows, key, name));
    assert Rollup(rows, key, [name] + rest)[1..] == Rollup(rows, key, rest);
  }

  lemma {:induction false} CostOfSum(groups: seq<Totals>)
    ensures AddUp(groups).cost.None? <==> forall g :: g in groups ==> g.cost.None?
  {
    if groups != [] {
      CostOfSum(groups[1..]);
      assert groups == [groups[0]] + groups[1..];
    }
  }

  /**
   * For any key and window the groups add up to the totals, in every field; the total cost is null
   * exactly when every group's is.
   */
  lemma GroupsConserve(rows: seq<Record>, since: Option<int>, key: Key, names: seq<Name>)
    requires Lists(names, Since(rows, since), key)
    ensures var selected := Since(rows, since);
            && AddUp(Rollup(selected, key, names)) == Total(selected)
            && (Total(selected).cost.None? <==> forall g :: g in Rollup(selected, key, names) ==> g.cost.None?)
  {
    var selected := Since(rows, since);
    RollupAddsUp(selected, key, names);
    TotalIsFold(selected);
    NamedAll(selected, key, AsSet(names));
    FoldNamed(selected, key, AsSet(names));
    CostOfSum(Rollup(selected, key, names));
  }

  function Concat(groups: seq<seq<Record>>): seq<Record> {
    if groups == [] then [] else groups[0] + Concat(groups[1..])
  }

  function Groups(rows: seq<Record>, key: Key, names: seq<Name>): seq<seq<Record>> {
    seq(|names|, i requires 0 <= i < |names| => GroupOf(rows, key, names[i]))
  }

  lemma {:induction false} SplitMultiset(rows: seq<Record>, key: Key, name: Name, rest: set<Name>, all: set<Name>)
    requires name !in rest && forall x :: x in all <==> x == name || x in rest
    ensures multiset(Named(rows, key, all)) == multiset(GroupOf(rows, key, name)) + multiset(Named(rows, key, rest))
  {
    if rows != [] {
      SplitMultiset(rows[1..], key, name, rest, all);
    }
  }

  lemma {:induction false} NamedPartition(rows: seq<Record>, key: Key, names: seq<Name>)
    requires forall i, j :: 0 <= i < j < |names| ==> names[i] != names[j]
    ensures multiset(Concat(Groups(rows, key, names))) == multiset(Named(rows, key, AsSet(names)))
    decreases |names|
  {
    if names == [] {
      assert AsSet(names) == {};
      NamedNone(rows, key);
    } else {
      var name, rest := names[0], names[1..];
      assert names == [name] + rest;
      AsSetCons(name, rest);
      NamedPartition(rows, key, rest);
      SplitMultiset(rows, key, name, AsSet(rest), AsSet(names));
      assert Groups(rows, key, names)[1..] == Groups(rows, key, rest);
    }
  }

  /** The groups together hold every row exactly once. */
  lemma GroupsPartition(rows: seq<Record>, key: Key, names: seq<Name>)
    requires Lists(names, rows, key)
    ensures multiset(Concat(Groups(rows, key, names))) == multiset(rows)
  {
    NamedPartition(rows, key, names);
    NamedAll(rows, key, AsSet(names));
  }

  // ----------------------------------------------------------- one ticket

  function ByTicket(r: Record): Name {
    Name(r.ticket)
  }

  /** The bill of one ticket is its line in the per-ticket roll-up of the same window, null as zero. */
  lemma TicketCostIsRolledUp(rows: seq<Record>, ticket: string, since: Option<int>)
    ensures TicketCost(rows, ticket, since) == OrZero(Total(GroupOf(Since(rows, since), ByTicket, Name(ticket))).cost)
  {
    TicketCostIsFolded(rows, ticket, since);
    TotalIsFold(GroupOf(Since(rows, since), ByTicket, Name(ticket)));
  }

  lemma {:induction false} TicketCostIsFolded(rows: seq<Record>, ticket: string, since: Option<int>)
    ensures TicketCost(rows, ticket, since) == OrZero(Fold(GroupOf(Since(rows, since), ByTicket, Name(ticket))).cost)
  {
    if rows == [] {
      assert GroupOf(Since(rows, since), ByTicket, Name(ticket)) == [];
    } else {
      TicketCostIsFolded(rows[1..], ticket, since);
      var r, rest := rows[0], GroupOf(Since(rows[1..], since), ByTicket, Name(ticket));
      assert rows == [r] + rows[1..];
      if since.None? || (r.at.Some? && r.at.value >= since.value) {
        assert Since(rows, since) == [r] + Since(rows[1..], since);
        assert ([r] + Since(rows[1..], since))[1..] == Since(rows[1..], since);
        if r.ticket == ticket {
          assert GroupOf(Since(rows, since), ByTicket, Name(ticket)) == [r] + rest;
          FoldCons(r, rest);
        } else {
          assert GroupOf(Since(rows, since), ByTicket, Name(ticket)) == rest;
        }
      } else {
        assert Since(rows, since) == Since(rows[1..], since);
      }
    }
  }

  /** So the tickets' bills add up to the total cost. */
  lemma {:induction false} BillsAddUp(rows: seq<Record>, since: Option<int>, names: seq<Name>)
    requires Lists(names, Since(rows, since), ByTicket)
    ensures SumCosts(rows, since, names) == OrZero(Total(Since(rows, since)).cost)
  {
    GroupsConserve(rows, since, ByTicket, names);
    SumCostsIs(rows, since, names);
  }

  function SumCosts(rows: seq<Record>, since: Option<int>, names: seq<Name>): int {
    if names == [] then 0 else TicketCost(rows, names[0].text, since) + SumCosts(rows, since, names[1..])
  }

  lemma OrZeroAdds(a: Totals, b: Totals)
    ensures OrZero(Add(a, b).cost) == OrZero(a.cost) + OrZero(b.cost)
  {
  }

  lemma {:induction false} SumCostsIs(rows: seq<Record>, since: Option<int>, names: seq<Name>)
    ensures SumCosts(rows, since, names) == OrZero(AddUp(Rollup(Since(rows, since), ByTicket, names)).cost)
    decreases |names|
  {
    if names == [] {
      assert Rollup(Since(rows, since), ByTicket, names) == [];
    } else {
      SumCostsIs(rows, since, names[1..]);
      RollupCost(rows, since, names[0], names[1..]);
      assert names == [names[0]] + names[1..];
    }
  }

  lemma RollupCost(rows: seq<Record>, since: Option<int>, name: Name, rest: seq<Name>)
    ensures OrZero(AddUp(Rollup(Since(rows, since), ByTicket, [name] + rest)).cost)
            == TicketCost(rows, name.text, since) + OrZero(AddUp(Rollup(Since(rows, since), ByTicket, rest)).cost)
  {
    var selected := Since(rows, since);
    TicketCostIsFolded(rows, name.text, since);
    RollupCons(selected, ByTicket, name, rest);
    OrZeroAdds(Fold(GroupOf(selected, ByTicket, name)), AddUp(Rollup(selected, ByTicket, rest)));
  }

  // ------------------------------------------------------ the grouping loop

  /** The group map and its keys in insertion order. */
  method GroupRows(rows: seq<Record>, key: Key) returns (groups: map<Name, seq<Record>>, names: seq<Name>)
    ensures Lists(names, rows, key)
    ensures groups.Keys == Keys(rows, key)
    ensures forall n :: n in groups ==> groups[n] == GroupOf(rows, key, n)
  {
    groups, names := map[], [];
    for i := 0 to |rows|
      invariant Lists(names, rows[..i], key)
      invariant groups.Keys == Keys(rows[..i], key)
      invariant forall n :: n in groups ==> groups[n] == GroupOf(rows[..i], key, n)
    {
      var name := key(rows[i]);
      assert rows[..i + 1] == rows[..i] + [rows[i]];
      KeysAppend(rows[..i], rows[i], key);
      forall n ensures GroupOf(rows[..i + 1], key, n) == GroupOf(rows[..i], key, n) + if n == name then [rows[i]] else [] {
        GroupAppend(rows[..i], rows[i], key, n);
      }
      if name !in groups {
        NoGroup(rows[..i], key, name);
        names := names + [name];
      }
      groups := groups[name := (if name in groups then groups[name] else []) + [rows[i]]];
    }
    assert rows[..|rows|] == rows;
  }

  lemma KeysAppend(rows: seq<Record>, r: Record, key: Key)
    ensures Keys(rows + [r], key) == Keys(rows, key) + {key(r)}
  {
    assert forall x :: x in rows + [r] <==> x in rows || x == r;
  }

  lemma {:induction false} NoGroup(rows: seq<Record>, key: Key, n: Name)
    requires n !in Keys(rows, key)
    ensures GroupOf(rows, key, n) == []
  {
    if rows != [] {
      assert key(rows[0]) in Keys(rows, key);
      assert forall r :: r in rows[1..] ==> r in rows;
      assert Keys(rows[1..], key) <= Keys(rows, key);
      NoGroup(rows[1..], key, n);
    }
  }

  lemma {:induction false} GroupAppend(rows: seq<Record>, r: Record, key: Key, n: Name)
    ensures GroupOf(rows + [r], key, n) == GroupOf(rows, key, n) + if key(r) == n then [r] else []
  {
    if rows != [] {
      GroupAppend(rows[1..], r, key, n);
      assert (rows + [r])[1..] == rows[1..] + [r];
    } else {
      assert rows + [r] == [r];
      assert ([r])[1..] == [];
    }
  }
}
