/**
 Quota arithmetic (QuotaInformation in nodepool/driver/utils.py): nested dictionaries of
 amounts with a default for whatever they do not list, added and subtracted in place.

 Totals is the value of such an object.  Read as a total function from category and
 resource to an amount, it makes addition pointwise; that is what the lemmas show.
 */
module Quota {
  import opened Wrappers

  // A limit may be infinite; what is used or needed never is.
  datatype Amount = Fin(amount: int) | Inf

  type Row = map<string, Amount>
  type Table = map<string, Row>

  datatype Totals = Totals(quota: Table, default: Amount)

  function Op(add: bool, a: Amount, b: Amount): Amount
    requires b.Fin?
  {
    if a.Inf? then Inf else if add then Fin(a.amount + b.amount) else Fin(a.amount - b.amount)
  }

  function RowOf(t: Table, c: string): Row { if c in t then t[c] else map[] }

  // What the object answers for any category and resource.
  function At(t: Totals, c: string, r: string): Amount {
    var row := RowOf(t.quota, c);
    if r in row then row[r] else t.default
  }

  predicate FiniteRow(row: Row) { forall r :: r in row ==> row[r].Fin? }

  predicate Finite(t: Totals) { t.default.Fin? && forall c :: c in t.quota ==> FiniteRow(t.quota[c]) }

  lemma FiniteAt(t: Totals, c: string, r: string)
    requires Finite(t)
    ensures At(t, c, r).Fin?
  {
    if c in t.quota {
      assert FiniteRow(t.quota[c]);
    }
  }

  // ---------------------------------------------------------------- specification

  function Filled(row: Row, keys: set<string>, default: Amount): Row {
    map r | r in row.Keys + keys :: if r in row then row[r] else default
  }

  function Applied(add: bool, row: Row, other: Row, default: Amount, done: set<string>): Row
    requires default.Fin? && FiniteRow(other)
  {
    map r | r in row :: if r in done then Op(add, row[r], if r in other then other[r] else default) else row[r]
  }

  // _add_subtract: every category and resource of either operand, missing ones counted
  // with the default of the operand that misses them.
  function FilledRow(t: Totals, u: Totals, c: string): Row {
    Filled(RowOf(t.quota, c), RowOf(u.quota, c).Keys, t.default)
  }

  function AppliedRow(add: bool, row: Row, u: Totals, c: string): Row
    requires Finite(u)
  {
    Applied(add, row, RowOf(u.quota, c), u.default, row.Keys)
  }

  function FilledTable(t: Totals, u: Totals): Table {
    map c | c in t.quota.Keys + u.quota.Keys :: FilledRow(t, u, c)
  }

  function AppliedTable(add: bool, rows: Table, u: Totals): Table
    requires Finite(u)
  {
    map c | c in rows :: AppliedRow(add, rows[c], u, c)
  }

  function Combined(add: bool, t: Totals, u: Totals): Totals
    requires Finite(u)
  {
    t.(quota := AppliedTable(add, FilledTable(t, u), u))
  }

  // The first loop with the categories of done behind it.
  function PartlyFilled(t: Totals, u: Totals, done: set<string>): Table {
    map c | c in t.quota.Keys + done :: if c in done then FilledRow(t, u, c) else t.quota[c]
  }

  lemma PartlyFilledGrows(t: Totals, u: Totals, done: set<string>, c: string)
    requires c !in done
    ensures var rows := PartlyFilled(t, u, done);
            PartlyFilled(t, u, done + {c}) == rows[c := Filled(RowOf(rows, c), RowOf(u.quota, c).Keys, t.default)]
  {
  }

  lemma PartlyFilledEnds(t: Totals, u: Totals)
    ensures PartlyFilled(t, u, {}) == t.quota
    ensures PartlyFilled(t, u, u.quota.Keys) == FilledTable(t, u)
  {
    forall c | c in t.quota && c !in u.quota ensures FilledRow(t, u, c) == t.quota[c] {
    }
  }

  predicate NonNegativeRow(row: Row) { forall r :: r in row && row[r].Fin? ==> row[r].amount >= 0 }

  predicate NonNegative(t: Totals) { forall c :: c in t.quota ==> NonNegativeRow(t.quota[c]) }

  // ---------------------------------------------------------------- implementation

  // One of the inner dictionaries.
  class Category {
    var amounts: Row

    constructor (amounts: Row)
      ensures this.amounts == amounts
    {
      this.amounts := amounts;
    }

    method SetDefaults(keys: set<string>, default: Amount)
      modifies this
      ensures amounts == Filled(old(amounts), keys, default)
    {
      var left := keys;
      while left != {}
        invariant left <= keys
        invariant amounts == Filled(old(amounts), keys - left, default)
        decreases left
      {
        var r :| r in left;
        left := left - {r};
        if r !in amounts {
          amounts := amounts[r := default];
        }
      }
    }

    method AddSubtract(other: Row, default: Amount, add: bool)
      requires default.Fin? && FiniteRow(other)
      modifies this
      ensures amounts == Applied(add, old(amounts), other, default, old(amounts).Keys)
    {
      var left := amounts.Keys;
      while left != {}
        invariant left <= amounts.Keys
        invariant amounts == Applied(add, old(amounts), other, default, amounts.Keys - left)
        decreases left
      {
        var r :| r in left;
        left := left - {r};
        var second := if r in other then other[r] else default;
        amounts := amounts[r := Op(add, amounts[r], second)];
      }
    }

    method IsNonNegative() returns (ok: bool)
      ensures ok == NonNegativeRow(amounts)
    {
      var left := amounts.Keys;
      while left != {}
        invariant left <= amounts.Keys
        invariant forall r :: r in amounts && r !in left && amounts[r].Fin? ==> amounts[r].amount >= 0
        decreases left
      {
        var r :| r in left;
        if amounts[r].Fin? && amounts[r].amount < 0 {
          return false;
        }
        left := left - {r};
      }
      return true;
    }
  }

  class QuotaInformation {
    var quota: map<string, Category>
    var default: Amount

    ghost function Repr(): set<object>
      reads this
    {
      {this} + (set c | c in quota :: quota[c])
    }

    ghost predicate Valid()
      reads this
    {
      forall c, d :: c in quota && d in quota && c != d ==> quota[c] != quota[d]
    }

    ghost function Contents(): Totals
      reads Repr()
    {
      Totals(map c | c in quota :: quota[c].amounts, default)
    }

    constructor (cores: Option<Amount>, instances: Option<Amount>, ram: Option<Amount>, default: Amount, kw: Row)
      ensures Valid() && fresh(Repr())
      ensures Contents() == Totals(map["compute" := map["cores" := if cores.Some? then cores.value else default,
                                                        "instances" := if instances.Some? then instances.value else default,
                                                        "ram" := if ram.Some? then ram.value else default] + kw], default)
    {
      var compute := new Category(map["cores" := if cores.Some? then cores.value else default,
                                      "instances" := if instances.Some? then instances.value else default,
                                      "ram" := if ram.Some? then ram.value else default] + kw);
      quota := map["compute" := compute];
      this.default := default;
    }

    // copy.deepcopy's starting point: an object without categories.
    constructor Bare(default: Amount)
      ensures Valid() && fresh(Repr()) && Contents() == Totals(map[], default) && quota == map[]
    {
      quota := map[];
      this.default := default;
    }

    // The first loop's body: category c exists and lists every key.
    method SetDefaults(c: string, keys: set<string>)
      requires Valid()
      modifies Repr()
      ensures Valid() && fresh(Repr() - old(Repr())) && default == old(default)
      ensures Contents().quota == old(Contents().quota)[c := Filled(RowOf(old(Contents().quota), c), keys, default)]
    {
      if c !in quota {
        var empty := new Category(map[]);
        quota := quota[c := empty];
      }
      quota[c].SetDefaults(keys, default);
    }

    // One category of the other operand; the categories of done are behind us.
    method FillCategory(other: QuotaInformation, c: string, ghost t: Totals, ghost u: Totals, ghost done: set<string>)
      requires Valid() && other.Valid() && Repr() !! other.Repr() && other.Contents() == u
      requires c in other.quota && c !in done && default == t.default && Contents().quota == PartlyFilled(t, u, done)
      modifies Repr()
      ensures Valid() && fresh(Repr() - old(Repr())) && default == old(default)
      ensures Contents().quota == PartlyFilled(t, u, done + {c})
      ensures other.Valid() && Repr() !! other.Repr() && other.Contents() == u && other.quota == old(other.quota)
    {
      PartlyFilledGrows(t, u, done, c);
      assert RowOf(u.quota, c) == other.quota[c].amounts;
      hide PartlyFilled;
      hide Filled;
      SetDefaults(c, other.quota[c].amounts.Keys);
    }

    // The first loop.
    method SetAllDefaults(other: QuotaInformation)
      requires Valid() && other.Valid() && Repr() !! other.Repr()
      modifies Repr()
      ensures Valid() && fresh(Repr() - old(Repr())) && default == old(default)
      ensures Contents().quota == FilledTable(old(Contents()), other.Contents())
    {
      ghost var t := Contents();
      ghost var u := other.Contents();
      hide PartlyFilled;
      hide FilledTable;
      hide Filled;
      hide FilledRow;
      PartlyFilledEnds(t, u);
      var done := {};
      while done != other.quota.Keys
        invariant done <= other.quota.Keys && other.Contents() == u && other.Valid() && Repr() !! other.Repr()
        invariant Valid() && fresh(Repr() - old(Repr())) && default == old(default)
        invariant Contents().quota == PartlyFilled(t, u, done)
        decreases other.quota.Keys - done
      {
        var c :| c in other.quota && c !in done;
        FillCategory(other, c, t, u, done);
        done := done + {c};
      }
    }

    // The second loop.
    method ApplyAll(other: QuotaInformation, add: bool)
      requires Valid() && other.Valid() && Repr() !! other.Repr() && Finite(other.Contents())
      modifies Repr() - {this}
      ensures quota == old(quota) && default == old(default)
      ensures Contents().quota == AppliedTable(add, old(Contents().quota), other.Contents())
    {
      ghost var rows := Contents().quota;
      ghost var u := other.Contents();
      var left := quota.Keys;
      while left != {}
        invariant left <= quota.Keys
        invariant other.Contents() == u
        invariant forall c :: c in quota ==>
                    quota[c].amounts == if c in left then rows[c] else AppliedRow(add, rows[c], u, c)
        decreases left
      {
        var c :| c in left;
        left := left - {c};
        var row := if c in other.quota then other.quota[c].amounts else map[];
        assert row == RowOf(u.quota, c) && FiniteRow(RowOf(u.quota, c));
        quota[c].AddSubtract(row, other.default, add);
      }
    }

    method AddSubtract(other: QuotaInformation, add: bool)
      requires Valid() && other.Valid() && Repr() !! other.Repr() && Finite(other.Contents())
      modifies Repr()
      ensures Valid() && fresh(Repr() - old(Repr()))
      ensures Contents() == Combined(add, old(Contents()), other.Contents())
    {
      hide FilledTable;
      hide AppliedTable;
      ghost var u := other.Contents();
      SetAllDefaults(other);
      assert other.Contents() == u;
      ApplyAll(other, add);
    }

    method Subtract(other: QuotaInformation)
      requires Valid() && other.Valid() && Repr() !! other.Repr() && Finite(other.Contents())
      modifies Repr()
      ensures Valid() && fresh(Repr() - old(Repr()))
      ensures Contents() == Combined(false, old(Contents()), other.Contents())
    {
      AddSubtract(other, false);
    }

    method Add(other: QuotaInformation)
      requires Valid() && other.Valid() && Repr() !! other.Repr() && Finite(other.Contents())
      modifies Repr()
      ensures Valid() && fresh(Repr() - old(Repr()))
      ensures Contents() == Combined(true, old(Contents()), other.Contents())
    {
      AddSubtract(other, true);
    }

    method IsNonNegative() returns (ok: bool)
      requires Valid()
      ensures ok == NonNegative(Contents())
    {
      var left := quota.Keys;
      while left != {}
        invariant left <= quota.Keys
        invariant forall c :: c in quota && c !in left ==> NonNegativeRow(quota[c].amounts)
        decreases left
      {
        var c :| c in left;
        var row := quota[c].IsNonNegative();
        if !row {
          assert c in Contents().quota && !NonNegativeRow(Contents().quota[c]);
          return false;
        }
        left := left - {c};
      }
      return true;
    }

    // copy.deepcopy: inner dictionaries of its own.
    method DeepCopy() returns (q: QuotaInformation)
      requires Valid()
      ensures q.Valid() && fresh(q.Repr()) && q.Contents() == Contents()
    {
      q := new QuotaInformation.Bare(default);
      var left := quota.Keys;
      while left != {}
        invariant left <= quota.Keys
        invariant q.Valid() && fresh(q.Repr()) && q.default == default
        invariant q.quota.Keys == quota.Keys - left
        invariant forall c :: c in q.quota ==> q.quota[c].amounts == quota[c].amounts
        decreases left
      {
        var c :| c in left;
        left := left - {c};
        var row := new Category(quota[c].amounts);
        q.quota := q.quota[c := row];
      }
    }
  }
}
