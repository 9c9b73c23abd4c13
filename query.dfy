/**
 * What `JsonApiClient::buildQuery` produces, as functions of the builder's
 * state, and what that result promises. The JSON:API groups are `page`,
 * `filter`, `fields` and `include`; every other key comes from the free-form
 * query untouched.
 *
 * Each loop of the source is a fold that recurses on its LAST item, so that
 * "the first i items are done" reads `q == Fold(q0, xs[..i])`.
 */
module Query {
  import opened Options
  import opened Php

  /** The `page` group: only the truthy members of the window, `limit` first. */
  function PageGroup(limit: Value, offset: Value): (g: Assoc)
    ensures Lookup(g, "limit") == (if Truthy(limit) then Some(limit) else None)
    ensures Lookup(g, "offset") == (if Truthy(offset) then Some(offset) else None)
    ensures g != [] <==> Truthy(limit) || Truthy(offset)
    ensures |g| == (if Truthy(limit) then 1 else 0) + (if Truthy(offset) then 1 else 0)
  {
    (if Truthy(limit) then [("limit", limit)] else [])
    + (if Truthy(offset) then [("offset", offset)] else [])
  }

  /** Pagination step: a truthy limit or offset replaces any `page` entry. */
  function AddPage(q: Assoc, limit: Value, offset: Value): Assoc {
    if Truthy(limit) || Truthy(offset) then Put(q, "page", Arr(PageGroup(limit, offset))) else q
  }

  /** The stored form of one operand value: a list is comma-joined. */
  function FilterCell(v: Value): Value {
    if v.Arr? then Str(Implode(v.entries)) else v
  }

  /** Writes `filter[r][c][o]` for each `(o, v)` of one column's operands. */
  function AddOperands(q: Assoc, r: string, c: string, ops: Assoc): (res: Assoc)
    ensures KeepsOrder(q, res)
    decreases |ops|
  {
    if ops == [] then q
    else
      var (o, v) := ops[|ops| - 1];
      PutPath(AddOperands(q, r, c, ops[..|ops| - 1]), ["filter", r, c, o], FilterCell(v))
  }

  /** Walks one resource's columns; a column whose operands are not an array writes nothing. */
  function AddColumns(q: Assoc, r: string, cols: Assoc): (res: Assoc)
    ensures KeepsOrder(q, res)
    decreases |cols|
  {
    if cols == [] then q
    else
      var q' := AddColumns(q, r, cols[..|cols| - 1]);
      var (c, operands) := cols[|cols| - 1];
      if operands.Arr? then AddOperands(q', r, c, operands.entries) else q'
  }

  /** One filter entry: an array of columns is walked, anything else is stored as `filter[r]`. */
  function AddFilter(q: Assoc, r: string, columns: Value): (res: Assoc)
    ensures KeepsOrder(q, res)
  {
    if columns.Arr? then AddColumns(q, r, columns.entries) else PutPath(q, ["filter", r], columns)
  }

  /** Filtering step: every filter entry in order. */
  function AddFilters(q: Assoc, filters: Assoc): (res: Assoc)
    ensures KeepsOrder(q, res)
    decreases |filters|
  {
    if filters == [] then q
    else
      var (r, columns) := filters[|filters| - 1];
      AddFilter(AddFilters(q, filters[..|filters| - 1]), r, columns)
  }

  /** Sparse-fieldset step: `fields[r]` is the comma-join of r's field list. */
  function AddFields(q: Assoc, fields: seq<(string, Assoc)>): (res: Assoc)
    ensures KeepsOrder(q, res)
    decreases |fields|
  {
    if fields == [] then q
    else
      var (r, fieldList) := fields[|fields| - 1];
      PutPath(AddFields(q, fields[..|fields| - 1]), ["fields", r], Str(Implode(fieldList)))
  }

  /** Inclusion step: a non-empty include list becomes one comma-joined `include`. */
  function AddInclude(q: Assoc, includes: Assoc): Assoc {
    if includes != [] then Put(q, "include", Str(Implode(includes))) else q
  }

  /**
   * The query array, built from the free-form query with the JSON:API groups
   * laid over it in the source's order: page, filter, fields, include.
   */
  function Build(free: Assoc, limit: Value, offset: Value, filters: Assoc,
                 fields: seq<(string, Assoc)>, includes: Assoc): (q: Assoc)
    ensures KeepsOrder(free, q)
  {
    AddInclude(AddFields(AddFilters(AddPage(free, limit, offset), filters), fields), includes)
  }

  /** The exact `fields` group for fields with unique resource names. */
  function FieldsGroup(fields: seq<(string, Assoc)>): Assoc {
    seq(|fields|, i requires 0 <= i < |fields| => (fields[i].0, Str(Implode(fields[i].1))))
  }

  // ---------------------------------------------------------------------------
  // Each step leaves alone the paths it does not write.

  lemma {:induction false} AddOperandsElsewhere(q: Assoc, r: string, c: string, ops: Assoc, p: seq<string>)
    requires Diverge(p, ["filter", r, c])
    ensures LookupPath(AddOperands(q, r, c, ops), p) == LookupPath(q, p)
    decreases |ops|
  {
    if ops != [] {
      var (o, v) := ops[|ops| - 1];
      AddOperandsElsewhere(q, r, c, ops[..|ops| - 1], p);
      DivergeExtend(p, ["filter", r, c], [], [o]);
      assert p + [] == p && ["filter", r, c] + [o] == ["filter", r, c, o];
      PutPathElsewhere(AddOperands(q, r, c, ops[..|ops| - 1]), ["filter", r, c, o], FilterCell(v), p);
    }
  }

  lemma {:induction false} AddColumnsElsewhere(q: Assoc, r: string, cols: Assoc, p: seq<string>)
    requires Diverge(p, ["filter", r])
    ensures LookupPath(AddColumns(q, r, cols), p) == LookupPath(q, p)
    decreases |cols|
  {
    if cols != [] {
      var (c, operands) := cols[|cols| - 1];
      AddColumnsElsewhere(q, r, cols[..|cols| - 1], p);
      if operands.Arr? {
        DivergeExtend(p, ["filter", r], [], [c]);
        assert p + [] == p && ["filter", r] + [c] == ["filter", r, c];
        AddOperandsElsewhere(AddColumns(q, r, cols[..|cols| - 1]), r, c, operands.entries, p);
      }
    }
  }

  lemma AddFilterElsewhere(q: Assoc, r: string, columns: Value, p: seq<string>)
    requires Diverge(p, ["filter", r])
    ensures LookupPath(AddFilter(q, r, columns), p) == LookupPath(q, p)
  {
    if columns.Arr? {
      AddColumnsElsewhere(q, r, columns.entries, p);
    } else {
      PutPathElsewhere(q, ["filter", r], columns, p);
    }
  }

  lemma {:induction false} AddFiltersElsewhere(q: Assoc, filters: Assoc, p: seq<string>)
    requires Diverge(p, ["filter"])
    ensures LookupPath(AddFilters(q, filters), p) == LookupPath(q, p)
    decreases |filters|
  {
    if filters != [] {
      var (r, columns) := filters[|filters| - 1];
      AddFiltersElsewhere(q, filters[..|filters| - 1], p);
      DivergeExtend(p, ["filter"], [], [r]);
      assert p + [] == p && ["filter"] + [r] == ["filter", r];
      AddFilterElsewhere(AddFilters(q, filters[..|filters| - 1]), r, columns, p);
    }
  }

  lemma {:induction false} AddFieldsElsewhere(q: Assoc, fields: seq<(string, Assoc)>, p: seq<string>)
    requires Diverge(p, ["fields"])
    ensures LookupPath(AddFields(q, fields), p) == LookupPath(q, p)
    decreases |fields|
  {
    if fields != [] {
      var (r, fieldList) := fields[|fields| - 1];
      AddFieldsElsewhere(q, fields[..|fields| - 1], p);
      DivergeExtend(p, ["fields"], [], [r]);
      assert p + [] == p && ["fields"] + [r] == ["fields", r];
      PutPathElsewhere(AddFields(q, fields[..|fields| - 1]), ["fields", r], Str(Implode(fieldList)), p);
    }
  }

  /** The whole build leaves alone any path outside the four JSON:API groups. */
  lemma BuildElsewhere(free: Assoc, limit: Value, offset: Value, filters: Assoc,
                       fields: seq<(string, Assoc)>, includes: Assoc, p: seq<string>)
    requires p != [] && p[0] !in {"page", "filter", "fields", "include"}
    ensures LookupPath(Build(free, limit, offset, filters, fields, includes), p) == LookupPath(free, p)
  {
    var q1 := AddPage(free, limit, offset);
    if Truthy(limit) || Truthy(offset) {
      PutPathElsewhere(free, ["page"], Arr(PageGroup(limit, offset)), p);
    }
    AddFiltersElsewhere(q1, filters, p);
    var q2 := AddFilters(q1, filters);
    AddFieldsElsewhere(q2, fields, p);
    var q3 := AddFields(q2, fields);
    if includes != [] {
      PutPathElsewhere(q3, ["include"], Str(Implode(includes)), p);
    }
  }

  // ---------------------------------------------------------------------------
  // Each step writes what it promises.

  lemma {:induction false} AddOperandsWrites(q: Assoc, r: string, c: string, ops: Assoc, k: nat)
    requires UniqueKeys(ops) && k < |ops|
    ensures LookupPath(AddOperands(q, r, c, ops), ["filter", r, c, ops[k].0]) == Some(FilterCell(ops[k].1))
    decreases |ops|
  {
    var n := |ops| - 1;
    if k < n {
      var init := ops[..n];
      assert init[k] == ops[k];
      AddOperandsWrites(q, r, c, init, k);
      DivergeLast(["filter", r, c], ops[k].0, ops[n].0);
      assert ["filter", r, c] + [ops[k].0] == ["filter", r, c, ops[k].0];
      assert ["filter", r, c] + [ops[n].0] == ["filter", r, c, ops[n].0];
      PutPathElsewhere(AddOperands(q, r, c, init), ["filter", r, c, ops[n].0], FilterCell(ops[n].1),
                       ["filter", r, c, ops[k].0]);
    }
  }

  lemma {:induction false} AddColumnsWrites(q: Assoc, r: string, cols: Assoc, j: nat, k: nat)
    requires UniqueKeys(cols) && j < |cols| && cols[j].1.Arr?
    requires UniqueKeys(cols[j].1.entries) && k < |cols[j].1.entries|
    ensures var (o, v) := cols[j].1.entries[k];
            LookupPath(AddColumns(q, r, cols), ["filter", r, cols[j].0, o]) == Some(FilterCell(v))
    decreases |cols|
  {
    var n := |cols| - 1;
    var init := cols[..n];
    var target := ["filter", r, cols[j].0, cols[j].1.entries[k].0];
    if j == n {
      AddOperandsWrites(AddColumns(q, r, init), r, cols[j].0, cols[j].1.entries, k);
    } else {
      assert init[j] == cols[j];
      AddColumnsWrites(q, r, init, j, k);
      if cols[n].1.Arr? {
        DivergeLast(["filter", r], cols[j].0, cols[n].0);
        DivergeExtend(["filter", r] + [cols[j].0], ["filter", r] + [cols[n].0], [cols[j].1.entries[k].0], []);
        assert ["filter", r] + [cols[j].0] + [cols[j].1.entries[k].0] == target;
        assert ["filter", r] + [cols[n].0] + [] == ["filter", r, cols[n].0];
        AddOperandsElsewhere(AddColumns(q, r, init), r, cols[n].0, cols[n].1.entries, target);
      }
    }
  }

  /** Later filter entries for other resources leave a resource's paths alone. */
  lemma OtherResource(q: Assoc, r: string, r': string, columns: Value, rest: seq<string>)
    requires r != r'
    ensures LookupPath(AddFilter(q, r', columns), ["filter", r] + rest)
            == LookupPath(q, ["filter", r] + rest)
  {
    DivergeLast(["filter"], r, r');
    DivergeExtend(["filter"] + [r], ["filter"] + [r'], rest, []);
    assert ["filter"] + [r] == ["filter", r] && ["filter"] + [r'] + [] == ["filter", r'];
    AddFilterElsewhere(q, r', columns, ["filter", r] + rest);
  }

  lemma {:induction false} AddFiltersWritesOperand(q: Assoc, filters: Assoc, i: nat, j: nat, k: nat)
    requires UniqueKeys(filters) && i < |filters| && filters[i].1.Arr?
    requires var cols := filters[i].1.entries;
             UniqueKeys(cols) && j < |cols| && cols[j].1.Arr? &&
             UniqueKeys(cols[j].1.entries) && k < |cols[j].1.entries|
    ensures var (c, operands) := filters[i].1.entries[j];
            var (o, v) := operands.entries[k];
            LookupPath(AddFilters(q, filters), ["filter", filters[i].0, c, o]) == Some(FilterCell(v))
    decreases |filters|
  {
    var n := |filters| - 1;
    var init := filters[..n];
    var (c, operands) := filters[i].1.entries[j];
    var o := operands.entries[k].0;
    if i == n {
      AddColumnsWrites(AddFilters(q, init), filters[i].0, filters[i].1.entries, j, k);
    } else {
      assert init[i] == filters[i];
      AddFiltersWritesOperand(q, init, i, j, k);
      OtherResource(AddFilters(q, init), filters[i].0, filters[n].0, filters[n].1, [c, o]);
      assert ["filter", filters[i].0] + [c, o] == ["filter", filters[i].0, c, o];
    }
  }

  lemma {:induction false} AddFiltersWritesShorthand(q: Assoc, filters: Assoc, i: nat)
    requires UniqueKeys(filters) && i < |filters| && !filters[i].1.Arr?
    ensures LookupPath(AddFilters(q, filters), ["filter", filters[i].0]) == Some(filters[i].1)
    decreases |filters|
  {
    var n := |filters| - 1;
    var init := filters[..n];
    if i < n {
      assert init[i] == filters[i];
      AddFiltersWritesShorthand(q, init, i);
      OtherResource(AddFilters(q, init), filters[i].0, filters[n].0, filters[n].1, []);
      assert ["filter", filters[i].0] + [] == ["filter", filters[i].0];
    }
  }

  lemma {:induction false} AddFieldsWrites(q: Assoc, fields: seq<(string, Assoc)>, i: nat)
    requires UniqueKeys(fields) && i < |fields|
    ensures LookupPath(AddFields(q, fields), ["fields", fields[i].0]) == Some(Str(Implode(fields[i].1)))
    decreases |fields|
  {
    var n := |fields| - 1;
    var init := fields[..n];
    if i < n {
      assert init[i] == fields[i];
      AddFieldsWrites(q, init, i);
      DivergeLast(["fields"], fields[i].0, fields[n].0);
      assert ["fields"] + [fields[i].0] == ["fields", fields[i].0];
      assert ["fields"] + [fields[n].0] == ["fields", fields[n].0];
      PutPathElsewhere(AddFields(q, init), ["fields", fields[n].0], Str(Implode(fields[n].1)),
                       ["fields", fields[i].0]);
    }
  }

  /** Without a free-form `fields` entry, the group holds exactly one entry per resource, in order. */
  lemma {:induction false} AddFieldsGroup(q: Assoc, fields: seq<(string, Assoc)>)
    requires Lookup(q, "fields") == None && UniqueKeys(fields)
    ensures Lookup(AddFields(q, fields), "fields")
            == if fields == [] then None else Some(Arr(FieldsGroup(fields)))
    decreases |fields|
  {
    if fields != [] {
      var n := |fields| - 1;
      var init := fields[..n];
      var (r, fieldList) := fields[n];
      var before := if init == [] then [] else FieldsGroup(init);
      AddFieldsGroup(q, init);
      assert fields[..n] == init;
      forall t | 0 <= t < |before| ensures before[t].0 != r {
        assert init[t] == fields[t];
      }
      FieldsStep(AddFields(q, init), before, r, Str(Implode(fieldList)));
      FieldsGroupSnoc(fields);
    }
  }

  /** Writing `fields[r]` for a new resource r appends it to the existing `fields` group. */
  lemma FieldsStep(m: Assoc, before: Assoc, r: string, cell: Value)
    requires Lookup(m, "fields") == (if before == [] then None else Some(Arr(before)))
    requires forall t :: 0 <= t < |before| ==> before[t].0 != r
    ensures Lookup(PutPath(m, ["fields", r], cell), "fields") == Some(Arr(before + [(r, cell)]))
  {
    PutPathTwo(m, "fields", r, cell);
    assert Child(m, "fields") == before;
  }

  lemma FieldsGroupSnoc(fields: seq<(string, Assoc)>)
    requires fields != []
    ensures var n := |fields| - 1;
            FieldsGroup(fields) == (if n == 0 then [] else FieldsGroup(fields[..n])) + [(fields[n].0, Str(Implode(fields[n].1)))]
  {
    var n := |fields| - 1;
    var g := FieldsGroup(fields);
    var h := (if n == 0 then [] else FieldsGroup(fields[..n])) + [(fields[n].0, Str(Implode(fields[n].1)))];
    assert |g| == |h|;
    forall t | 0 <= t < |g| ensures g[t] == h[t] {
      if t < n {
        assert fields[..n][t] == fields[t];
      }
    }
  }

  // ---------------------------------------------------------------------------
  // Properties of the whole query.

  /** Lookup of a one-key path is plain lookup. */
  lemma LookupPathOne(m: Assoc, k: string)
    ensures LookupPath(m, [k]) == Lookup(m, k)
  {
  }

  /** Free-form keys other than page, filter, fields and include come through unchanged. */
  lemma BuildKeepsOtherKeys(free: Assoc, limit: Value, offset: Value, filters: Assoc,
                            fields: seq<(string, Assoc)>, includes: Assoc, k: string)
    requires k !in {"page", "filter", "fields", "include"}
    ensures Lookup(Build(free, limit, offset, filters, fields, includes), k) == Lookup(free, k)
  {
    BuildElsewhere(free, limit, offset, filters, fields, includes, [k]);
    LookupPathOne(free, k);
    LookupPathOne(Build(free, limit, offset, filters, fields, includes), k);
  }

  /** `page` is present iff the limit or offset is truthy, holding just the truthy ones. */
  lemma BuildPage(free: Assoc, limit: Value, offset: Value, filters: Assoc,
                  fields: seq<(string, Assoc)>, includes: Assoc)
    ensures Lookup(Build(free, limit, offset, filters, fields, includes), "page")
            == if Truthy(limit) || Truthy(offset) then Some(Arr(PageGroup(limit, offset)))
               else Lookup(free, "page")
  {
    var q1 := AddPage(free, limit, offset);
    AddFiltersElsewhere(q1, filters, ["page"]);
    AddFieldsElsewhere(AddFilters(q1, filters), fields, ["page"]);
    LookupPathOne(q1, "page");
    LookupPathOne(AddFilters(q1, filters), "page");
    LookupPathOne(AddFields(AddFilters(q1, filters), fields), "page");
  }

  /** Everything after the filter step leaves `filter` paths alone. */
  lemma AfterFilters(q: Assoc, fields: seq<(string, Assoc)>, includes: Assoc, p: seq<string>)
    requires p != [] && p[0] == "filter"
    ensures LookupPath(AddInclude(AddFields(q, fields), includes), p) == LookupPath(q, p)
  {
    AddFieldsElsewhere(q, fields, p);
    if includes != [] {
      PutPathElsewhere(AddFields(q, fields), ["include"], Str(Implode(includes)), p);
    }
  }

  /** A column→operand→value filter yields `filter[r][c][o]`, a list value comma-joined. */
  lemma BuildFilterOperand(free: Assoc, limit: Value, offset: Value, filters: Assoc,
                           fields: seq<(string, Assoc)>, includes: Assoc,
                           i: nat, j: nat, k: nat)
    requires UniqueKeys(filters) && i < |filters| && filters[i].1.Arr?
    requires var cols := filters[i].1.entries;
             UniqueKeys(cols) && j < |cols| && cols[j].1.Arr? &&
             UniqueKeys(cols[j].1.entries) && k < |cols[j].1.entries|
    ensures var (c, operands) := filters[i].1.entries[j];
            var (o, v) := operands.entries[k];
            LookupPath(Build(free, limit, offset, filters, fields, includes), ["filter", filters[i].0, c, o])
            == Some(if v.Arr? then Str(Implode(v.entries)) else v)
  {
    var (c, operands) := filters[i].1.entries[j];
    var q2 := AddFilters(AddPage(free, limit, offset), filters);
    AddFiltersWritesOperand(AddPage(free, limit, offset), filters, i, j, k);
    AfterFilters(q2, fields, includes, ["filter", filters[i].0, c, operands.entries[k].0]);
  }

  /** A filter whose value is not an array is stored as `filter[r]` as it is. */
  lemma BuildFilterShorthand(free: Assoc, limit: Value, offset: Value, filters: Assoc,
                             fields: seq<(string, Assoc)>, includes: Assoc, i: nat)
    requires UniqueKeys(filters) && i < |filters| && !filters[i].1.Arr?
    ensures LookupPath(Build(free, limit, offset, filters, fields, includes), ["filter", filters[i].0])
            == Some(filters[i].1)
  {
    var q2 := AddFilters(AddPage(free, limit, offset), filters);
    AddFiltersWritesShorthand(AddPage(free, limit, offset), filters, i);
    AfterFilters(q2, fields, includes, ["filter", filters[i].0]);
  }

  /** Without filters the `filter` entry is whatever the free-form query had (usually none). */
  lemma BuildNoFilters(free: Assoc, limit: Value, offset: Value,
                       fields: seq<(string, Assoc)>, includes: Assoc)
    ensures Lookup(Build(free, limit, offset, [], fields, includes), "filter") == Lookup(free, "filter")
  {
    var q1 := AddPage(free, limit, offset);
    AfterFilters(q1, fields, includes, ["filter"]);
    LookupPathOne(q1, "filter");
    LookupPathOne(Build(free, limit, offset, [], fields, includes), "filter");
  }

  /** `fields[r]` is the comma-join of r's list; with no free-form `fields`, the group is exactly that. */
  lemma BuildFields(free: Assoc, limit: Value, offset: Value, filters: Assoc,
                    fields: seq<(string, Assoc)>, includes: Assoc)
    requires UniqueKeys(fields)
    ensures var q := Build(free, limit, offset, filters, fields, includes);
            forall i :: 0 <= i < |fields| ==> LookupPath(q, ["fields", fields[i].0]) == Some(Str(Implode(fields[i].1)))
    ensures Lookup(free, "fields") == None ==>
              Lookup(Build(free, limit, offset, filters, fields, includes), "fields")
              == if fields == [] then None else Some(Arr(FieldsGroup(fields)))
  {
    var q2 := AddFilters(AddPage(free, limit, offset), filters);
    forall i | 0 <= i < |fields|
      ensures LookupPath(Build(free, limit, offset, filters, fields, includes), ["fields", fields[i].0])
              == Some(Str(Implode(fields[i].1)))
    {
      AddFieldsWrites(q2, fields, i);
      AfterFields(q2, fields, includes, ["fields", fields[i].0]);
    }
    if Lookup(free, "fields") == None {
      var q1 := AddPage(free, limit, offset);
      AddFiltersElsewhere(q1, filters, ["fields"]);
      LookupPathOne(q1, "fields");
      LookupPathOne(q2, "fields");
      AddFieldsGroup(q2, fields);
      AfterFields(q2, fields, includes, ["fields"]);
      LookupPathOne(AddFields(q2, fields), "fields");
      LookupPathOne(Build(free, limit, offset, filters, fields, includes), "fields");
    }
  }

  /** The inclusion step leaves every path under `fields` alone. */
  lemma AfterFields(q: Assoc, fields: seq<(string, Assoc)>, includes: Assoc, p: seq<string>)
    requires p != [] && p[0] == "fields"
    ensures LookupPath(AddInclude(AddFields(q, fields), includes), p) == LookupPath(AddFields(q, fields), p)
  {
    if includes != [] {
      PutPathElsewhere(AddFields(q, fields), ["include"], Str(Implode(includes)), p);
    }
  }


  /** `include` is the comma-join of a non-empty include list; otherwise the free-form entry stays. */
  lemma BuildInclude(free: Assoc, limit: Value, offset: Value, filters: Assoc,
                     fields: seq<(string, Assoc)>, includes: Assoc)
    ensures Lookup(Build(free, limit, offset, filters, fields, includes), "include")
            == if includes != [] then Some(Str(Implode(includes))) else Lookup(free, "include")
  {
    var q1 := AddPage(free, limit, offset);
    AddFiltersElsewhere(q1, filters, ["include"]);
    AddFieldsElsewhere(AddFilters(q1, filters), fields, ["include"]);
    LookupPathOne(q1, "include");
    LookupPathOne(AddFilters(q1, filters), "include");
    LookupPathOne(AddFields(AddFilters(q1, filters), fields), "include");
  }

  /** The source's page writes, one key at a time, build `page` from an empty array. */
  lemma PageLimitStep(q: Assoc, limit: Value)
    ensures PutPath(Put(q, "page", Arr([])), ["page", "limit"], limit) == Put(q, "page", Arr([("limit", limit)]))
  {
    PutInto(q, "page", [], "limit", limit);
  }

  lemma PageOffsetStep(q: Assoc, g: Assoc, offset: Value)
    requires g == [] || g == [("limit", g[0].1)]
    ensures PutPath(Put(q, "page", Arr(g)), ["page", "offset"], offset) == Put(q, "page", Arr(g + [("offset", offset)]))
  {
    PutInto(q, "page", g, "offset", offset);
    assert "limit" != "offset";
  }

  /** After `limit(n)` the offset is the default 0, so `page` holds only the limit. */
  lemma LimitAloneEmitsOnlyLimit(free: Assoc, n: int, filters: Assoc,
                                 fields: seq<(string, Assoc)>, includes: Assoc)
    requires n != 0
    ensures Lookup(Build(free, Int(n), Int(0), filters, fields, includes), "page")
            == Some(Arr([("limit", Int(n))]))
  {
    BuildPage(free, Int(n), Int(0), filters, fields, includes);
    assert PageGroup(Int(n), Int(0)) == [("limit", Int(n))];
  }
}
