/**
  Selectors: composable functions from a query builder to a query builder. A selector
  is kept as a value that says what it does, and `Run` carries it out on a query;
  `Nil` is the nil selector that `Apply` skips and that `ApplyIf(false, ...)` returns.
*/
module Selectors {
  import opened Builder
  import Filter

  datatype Selector =
    | Nil                                             // the nil selector
    | All(parts: seq<Selector>)                       // `Apply(parts...)`
    | Grouped(sep: string, parts: seq<Selector>)   // a `WhereGroup` over `Apply(parts...)`
    | Condition(template: Template, args: seq<Arg>)   // a single `Where` call
    | DistinctOnCol(col: string)                      // `WhereDistinctOn(col)`
    | Filters(d: Filter.Descriptor)                   // `UseWhere(d)`, holding its own copy

  // ---------------------------------------------------------------------------
  // Carrying a selector out

  /**
    Calls the selector on `q`. Calling the nil selector is a nil-function call, hence
    the precondition. A group runs its parts on the query with its WHERE list emptied,
    then puts the saved list back with one group holding what the parts added; the
    parts' other calls stay on the query, as with the builder's `WhereGroup`.
  */
  function Run(s: Selector, q: Query): Query
    requires !s.Nil?
    decreases s, 1
  {
    match s
    case All(parts) => RunAll(parts, q)
    case Grouped(sep, parts) =>
      var sub := RunAll(parts, Query([], q.mods));
      Query(q.wheres + [Group(sep, sub.wheres)], sub.mods)
    case Condition(template, args) => q.Where(template, args)
    case DistinctOnCol(col) => q.With(DistinctOn(col)).With(OrderExpr(col + ", id"))
    case Filters(d) => Filter.Filtered(d, q)
  }

  /** The closure of `Apply`: each non-nil selector in turn, the nil ones skipped. */
  function RunAll(parts: seq<Selector>, q: Query): Query
    decreases parts, 0
  {
    if parts == [] then q
    else RunAll(parts[1..], if parts[0].Nil? then q else Run(parts[0], q))
  }

  /**
    What a selector adds to any query, defined independently of `Run`: a condition adds
    itself, a group adds one group record, `Apply` adds what its parts add, last part last.
  */
  function Added(s: Selector): Query
    decreases s, 1
  {
    match s
    case Nil => Empty
    case All(parts) => AddedAll(parts)
    case Grouped(sep, parts) =>
      var inner := AddedAll(parts);
      Query([Group(sep, inner.wheres)], inner.mods)
    case Condition(template, args) => Query([Expr(template, args)], [])
    case DistinctOnCol(col) => Query([], [DistinctOn(col), OrderExpr(col + ", id")])
    case Filters(d) => Query(Filter.Conditions(d), Filter.SoftDelete(d))
  }

  function AddedAll(parts: seq<Selector>): Query
    decreases parts, 0
  {
    if parts == [] then Empty
    else AddedAll(parts[..|parts| - 1]).Append(Added(parts[|parts| - 1]))
  }

  lemma {:induction false} AddedAllConcat(a: seq<Selector>, b: seq<Selector>)
    ensures AddedAll(a + b) == AddedAll(a).Append(AddedAll(b))
    decreases |b|
  {
    if b == [] {
      assert a + b == a;
      AppendEmpty(AddedAll(a));
    } else {
      var init, last := b[..|b| - 1], b[|b| - 1];
      assert (a + b)[..|a + b| - 1] == a + init;
      assert (a + b)[|a + b| - 1] == last;
      AddedAllConcat(a, init);
      AppendAssociative(AddedAll(a), AddedAll(init), Added(last));
    }
  }

  lemma AddedAllCons(s: Selector, rest: seq<Selector>)
    ensures AddedAll([s] + rest) == Added(s).Append(AddedAll(rest))
  {
    AddedAllConcat([s], rest);
    assert [s][..0] == [];
    AppendEmpty(Added(s));
  }

  /** Running a selector appends exactly what it adds, whatever the query already holds. */
  lemma {:induction false} RunAppendsAdded(s: Selector, q: Query)
    requires !s.Nil?
    ensures Run(s, q) == q.Append(Added(s))
    decreases s, 1
  {
    match s
    case All(parts) =>
      RunAllAppendsAdded(parts, q);
    case Grouped(sep, parts) =>
      RunAllAppendsAdded(parts, Query([], q.mods));
      assert [] + AddedAll(parts).wheres == AddedAll(parts).wheres;
    case Condition(_, _) =>
    case DistinctOnCol(_) =>
    case Filters(_) =>
  }

  lemma {:induction false} RunAllAppendsAdded(parts: seq<Selector>, q: Query)
    ensures RunAll(parts, q) == q.Append(AddedAll(parts))
    decreases parts, 0
  {
    if parts == [] {
      AppendEmpty(q);
    } else {
      var s, rest := parts[0], parts[1..];
      assert parts == [s] + rest;
      var next := if s.Nil? then q else Run(s, q);
      if s.Nil? {
        AppendEmpty(q);
      } else {
        RunAppendsAdded(s, q);
      }
      assert next == q.Append(Added(s));
      RunAllAppendsAdded(rest, next);
      AddedAllCons(s, rest);
      AppendAssociative(q, Added(s), AddedAll(rest));
    }
  }

  /**
    The closure of `Apply`, as the loop that reassigns the query: every non-nil selector
    runs once, in argument order, and nil ones are skipped.
  */
  method RunApply(selectors: seq<Selector>, q: Query) returns (r: Query)
    ensures r == q.Append(AddedAll(selectors))
  {
    r := q;
    AppendEmpty(q);
    for i := 0 to |selectors|
      invariant r == q.Append(AddedAll(selectors[..i]))
    {
      var selector := selectors[i];
      ghost var before := r;
      if !selector.Nil? {
        RunAppendsAdded(selector, r);
        r := Run(selector, r);
      } else {
        AppendEmpty(r);
      }
      assert r == before.Append(Added(selector));
      assert selectors[..i + 1][..i] == selectors[..i];
      AppendAssociative(q, AddedAll(selectors[..i]), Added(selector));
    }
    assert selectors[..|selectors|] == selectors;
  }

  // ---------------------------------------------------------------------------
  // The combinators

  /** `Apply(selectors...)`: on any query, appends what the selectors add, in argument order. */
  function Apply(selectors: seq<Selector>): (r: Selector)
    ensures !r.Nil?
    ensures forall q {:trigger Run(r, q)} :: Run(r, q) == q.Append(AddedAll(selectors))
  {
    assert forall q {:trigger Run(All(selectors), q)} :: Run(All(selectors), q) == q.Append(AddedAll(selectors)) by {
      forall q
        ensures Run(All(selectors), q) == q.Append(AddedAll(selectors))
      {
        RunAllAppendsAdded(selectors, q);
      }
    }
    All(selectors)
  }

  /** `ApplyIf(cond, selectors...)`: the nil selector unless `cond`, else `Apply(selectors...)`. */
  function ApplyIf(cond: bool, selectors: seq<Selector>): (r: Selector)
    ensures r.Nil? <==> !cond
    ensures cond ==> forall q {:trigger Run(r, q)} :: Run(r, q) == q.Append(AddedAll(selectors))
  {
    if !cond then Nil else Apply(selectors)
  }

  const OrSep: string := " OR "
  const AndSep: string := " AND "

  /**
    A group runs its selectors on an empty WHERE list: it appends one group holding the
    conditions they add, and their other calls land on the query itself.
  */
  lemma GroupRuns(sep: string, selectors: seq<Selector>, q: Query)
    ensures Run(Grouped(sep, selectors), q)
         == Query(q.wheres + [Group(sep, AddedAll(selectors).wheres)], q.mods + AddedAll(selectors).mods)
  {
    RunAllAppendsAdded(selectors, Query([], q.mods));
    assert [] + AddedAll(selectors).wheres == AddedAll(selectors).wheres;
  }

  /** `OrGroup(selectors...)`: one group, prefixed by " OR ", holding what the selectors add. */
  function OrGroup(selectors: seq<Selector>): (r: Selector)
    ensures !r.Nil?
    ensures forall q {:trigger Run(r, q)} ::
      Run(r, q) == Query(q.wheres + [Group(" OR ", AddedAll(selectors).wheres)], q.mods + AddedAll(selectors).mods)
  {
    assert forall q {:trigger Run(Grouped(OrSep, selectors), q)} ::
      Run(Grouped(OrSep, selectors), q) == Query(q.wheres + [Group(OrSep, AddedAll(selectors).wheres)], q.mods + AddedAll(selectors).mods) by {
      forall q {
        GroupRuns(OrSep, selectors, q);
      }
    }
    Grouped(OrSep, selectors)
  }

  /** `AndGroup(selectors...)`: one group, prefixed by " AND ", holding what the selectors add. */
  function AndGroup(selectors: seq<Selector>): (r: Selector)
    ensures !r.Nil?
    ensures forall q {:trigger Run(r, q)} ::
      Run(r, q) == Query(q.wheres + [Group(" AND ", AddedAll(selectors).wheres)], q.mods + AddedAll(selectors).mods)
  {
    assert forall q {:trigger Run(Grouped(AndSep, selectors), q)} ::
      Run(Grouped(AndSep, selectors), q) == Query(q.wheres + [Group(AndSep, AddedAll(selectors).wheres)], q.mods + AddedAll(selectors).mods) by {
      forall q {
        GroupRuns(AndSep, selectors, q);
      }
    }
    Grouped(AndSep, selectors)
  }

  /**
    `Or(selectors...)`: one AND group holding one OR group per selector, in order, the
    i-th holding only what the i-th selector adds.
  */
  function Or(selectors: seq<Selector>): (r: Selector)
    ensures !r.Nil?
    ensures forall q {:trigger Run(r, q)} ::
      Run(r, q) == Query(q.wheres + [Group(" AND ", OrMembers(selectors))], q.mods + AddedAll(selectors).mods)
  {
    OrAdds(selectors);
    AndGroup(OrGroups(selectors))
  }

  /** Each selector wrapped in an OR group of its own, in order. */
  function OrGroups(selectors: seq<Selector>): (r: seq<Selector>)
    ensures |r| == |selectors|
    ensures forall i :: 0 <= i < |selectors| ==> r[i] == OrGroup([selectors[i]])
  {
    seq(|selectors|, i requires 0 <= i < |selectors| => OrGroup([selectors[i]]))
  }

  /**
    `UseWhere` takes the descriptor by value: the selector holds a copy and appends the
    conditions and the visibility call `Where` makes for it.
  */
  function UseWhere(where: Filter.Descriptor): (r: Selector)
    ensures !r.Nil?
    ensures forall q {:trigger Run(r, q)} :: Run(r, q) == q.Append(Query(Filter.Conditions(where), Filter.SoftDelete(where)))
  {
    Filters(where)
  }

  // ---------------------------------------------------------------------------
  // Properties of the combinators

  /**
    `Apply` appends what each non-nil selector adds, in argument order: applying `a + b`
    is applying `a` then `b`, a single selector behaves as itself, and a list of nil
    selectors (or no selector) leaves the query unchanged.
  */
  lemma ApplyInOrder(a: seq<Selector>, b: seq<Selector>, s: Selector, q: Query)
    ensures Run(Apply(a + b), q) == Run(Apply(b), Run(Apply(a), q))
    ensures !s.Nil? ==> Run(Apply([s]), q) == Run(s, q)
    ensures s.Nil? ==> Run(Apply([s]), q) == q
    ensures Run(Apply([]), q) == q
  {
    RunAllAppendsAdded([s], q);
    AddedAllCons(s, []);
    assert [s] + [] == [s];
    AppendEmpty(Added(s));
    AppendEmpty(q);
    RunAllAppendsAdded(a + b, q);
    RunAllAppendsAdded(a, q);
    RunAllAppendsAdded(b, Run(Apply(a), q));
    AddedAllConcat(a, b);
    AppendAssociative(q, AddedAll(a), AddedAll(b));
  }

  /** A list whose selectors are all nil adds nothing. */
  lemma {:induction false} AllNilAddsNothing(selectors: seq<Selector>)
    requires forall i :: 0 <= i < |selectors| ==> selectors[i].Nil?
    ensures AddedAll(selectors) == Empty
  {
    if selectors != [] {
      AllNilAddsNothing(selectors[..|selectors| - 1]);
      AppendEmpty(Empty);
    }
  }

  lemma ApplyOfNilsIsIdentity(selectors: seq<Selector>, q: Query)
    requires forall i :: 0 <= i < |selectors| ==> selectors[i].Nil?
    ensures Run(Apply(selectors), q) == q
  {
    RunAllAppendsAdded(selectors, q);
    AllNilAddsNothing(selectors);
    AppendEmpty(q);
  }

  /** `ApplyIf(false, ...)` is the nil selector; `ApplyIf(true, s...)` runs as `Apply(s...)`. */
  lemma ApplyIfBehaviour(selectors: seq<Selector>, q: Query)
    ensures ApplyIf(false, selectors).Nil?
    ensures !ApplyIf(true, selectors).Nil? && Run(ApplyIf(true, selectors), q) == Run(Apply(selectors), q)
  {
  }

  /**
    `OrGroup` and `AndGroup` append exactly one group, prefixed by " OR " or " AND ",
    holding the conditions `Apply` of the same selectors adds to an empty query; the
    selectors' other calls land on the query itself.
  */
  lemma GroupAppendsOneGroup(selectors: seq<Selector>, q: Query)
    ensures var inner := Run(Apply(selectors), Empty);
      Run(OrGroup(selectors), q) == Query(q.wheres + [Group(" OR ", inner.wheres)], q.mods + inner.mods)
    ensures var inner := Run(Apply(selectors), Empty);
      Run(AndGroup(selectors), q) == Query(q.wheres + [Group(" AND ", inner.wheres)], q.mods + inner.mods)
  {
    var added := AddedAll(selectors);
    assert Run(Apply(selectors), Empty) == Empty.Append(added);
    AppendEmpty(added);
    assert Run(OrGroup(selectors), q) == Query(q.wheres + [Group(" OR ", added.wheres)], q.mods + added.mods);
    assert Run(AndGroup(selectors), q) == Query(q.wheres + [Group(" AND ", added.wheres)], q.mods + added.mods);
  }

  /** The i-th OR group of `Or`, as its conditions. */
  function OrMembers(selectors: seq<Selector>): (r: seq<Cond>)
    ensures |r| == |selectors|
    ensures forall i :: 0 <= i < |selectors| ==> r[i] == Group(OrSep, Added(selectors[i]).wheres)
  {
    seq(|selectors|, i requires 0 <= i < |selectors| => Group(OrSep, Added(selectors[i]).wheres))
  }

  lemma {:induction false} OrAdds(selectors: seq<Selector>)
    ensures AddedAll(OrGroups(selectors)) == Query(OrMembers(selectors), AddedAll(selectors).mods)
  {
    var wrapped := OrGroups(selectors);
    if selectors != [] {
      var n := |selectors| - 1;
      var init, last := selectors[..n], selectors[n];
      OrAdds(init);
      assert wrapped[..n] == OrGroups(init);
      AddedAllCons(last, []);
      assert [last] + [] == [last];
      AppendEmpty(Added(last));
      var g := Group(OrSep, Added(last).wheres);
      assert Added(wrapped[n]) == Query([g], Added(last).mods);
      assert AddedAll(wrapped) == AddedAll(OrGroups(init)).Append(Query([g], Added(last).mods));
      assert AddedAll(selectors).mods == AddedAll(init).mods + Added(last).mods;
      assert OrMembers(selectors) == OrMembers(init) + [g];
    }
  }

  /**
    `Or(s1, ..., sn)` appends one AND group holding n OR groups, the i-th holding only
    what si adds, in order; the selectors' other calls land on the query itself.
  */
  lemma OrShape(selectors: seq<Selector>, q: Query)
    ensures Run(Or(selectors), q).wheres == q.wheres + [Group(AndSep, OrMembers(selectors))]
    ensures Run(Or(selectors), q).mods == q.mods + AddedAll(selectors).mods
  {
    var wrapped := OrGroups(selectors);
    RunAllAppendsAdded(wrapped, Query([], q.mods));
    OrAdds(selectors);
    assert [] + OrMembers(selectors) == OrMembers(selectors);
  }

  /** Running `UseWhere(*w)` leaves `w` alone (no `modifies`): the selector works on a copy. */
  method RunUseWhere(w: Filter.Where, q: Query) returns (r: Query)
    ensures r == Run(UseWhere(w.Value()), q)
    ensures r == q.Append(Query(Filter.Conditions(w.Value()), Filter.SoftDelete(w.Value())))
  {
    var copy := new Filter.Where(w.Value());
    r := Filter.ApplyWhere(copy, q);
  }

  // ---------------------------------------------------------------------------
  // The elementary factories

  const ContainsObject: string := " @> jsonb_build_array(jsonb_build_object(?::text, ?::text))"

  /** `WhereEqual`: one equality condition on the column. */
  function WhereEqual(col: string, value: Arg): (r: Selector)
    ensures !r.Nil?
    ensures forall q {:trigger Run(r, q)} :: Run(r, q) == q.Where(Equal, [Ident(col), value])
  {
    Condition(Equal, [Ident(col), value])
  }

  /** `WhereNotEqual`: one inequality condition on the column. */
  function WhereNotEqual(col: string, value: Arg): (r: Selector)
    ensures !r.Nil?
    ensures forall q {:trigger Run(r, q)} :: Run(r, q) == q.Where(NotEqual, [Ident(col), value])
  {
    Condition(NotEqual, [Ident(col), value])
  }

  /** `WhereNull`: one `is null` condition on the column. */
  function WhereNull(col: string): (r: Selector)
    ensures !r.Nil?
    ensures forall q {:trigger Run(r, q)} :: Run(r, q) == q.Where(IsNull, [Ident(col)])
  {
    Condition(IsNull, [Ident(col)])
  }

  /** `WhereNotNull`: one `is not null` condition on the column. */
  function WhereNotNull(col: string): (r: Selector)
    ensures !r.Nil?
    ensures forall q {:trigger Run(r, q)} :: Run(r, q) == q.Where(IsNotNull, [Ident(col)])
  {
    Condition(IsNotNull, [Ident(col)])
  }

  /** `WhereIn`: one `IN` condition on the column, over the expanded list. */
  function WhereIn(col: string, values: seq<Arg>): (r: Selector)
    ensures !r.Nil?
    ensures forall q {:trigger Run(r, q)} :: Run(r, q) == q.Where(InList, [Ident(col), In(values)])
  {
    Condition(InList, [Ident(col), In(values)])
  }

  /** `WhereNotIn`: one `NOT IN` condition; its bare `q.Table()` call adds nothing and is not modelled. */
  function WhereNotIn(col: string, values: seq<Arg>): (r: Selector)
    ensures !r.Nil?
    ensures forall q {:trigger Run(r, q)} :: Run(r, q) == q.Where(NotInList, [Ident(col), In(values)])
  {
    Condition(NotInList, [Ident(col), In(values)])
  }

  /** `WhereContains`: one ILIKE condition with the substring wildcarded on both sides. */
  function WhereContains(col: string, substr: string): (r: Selector)
    ensures !r.Nil?
    ensures forall q {:trigger Run(r, q)} :: Run(r, q) == q.Where(ILike, [Ident(col), Text("%" + substr + "%")])
  {
    Condition(ILike, [Ident(col), Text("%" + substr + "%")])
  }

  /** `WhereBegins`: one ILIKE condition with a wildcard after the prefix. */
  function WhereBegins(col: string, substr: string): (r: Selector)
    ensures !r.Nil?
    ensures forall q {:trigger Run(r, q)} :: Run(r, q) == q.Where(ILike, [Ident(col), Text(substr + "%")])
  {
    Condition(ILike, [Ident(col), Text(substr + "%")])
  }

  /** `WhereEnds`: one ILIKE condition with a wildcard before the suffix. */
  function WhereEnds(col: string, substr: string): (r: Selector)
    ensures !r.Nil?
    ensures forall q {:trigger Run(r, q)} :: Run(r, q) == q.Where(ILike, [Ident(col), Text("%" + substr)])
  {
    Condition(ILike, [Ident(col), Text("%" + substr)])
  }

  /** `WhereBefore`: one inclusive upper bound (`<=`) on the column. */
  function WhereBefore(col: string, t: int): (r: Selector)
    ensures !r.Nil?
    ensures forall q {:trigger Run(r, q)} :: Run(r, q) == q.Where(AtMost, [Ident(col), Time(t)])
  {
    Condition(AtMost, [Ident(col), Time(t)])
  }

  /** `WhereAfter`: one inclusive lower bound (`>=`) on the column. */
  function WhereAfter(col: string, t: int): (r: Selector)
    ensures !r.Nil?
    ensures forall q {:trigger Run(r, q)} :: Run(r, q) == q.Where(AtLeast, [Ident(col), Time(t)])
  {
    Condition(AtLeast, [Ident(col), Time(t)])
  }

  /** `WhereDistinctOn(c)`: no condition; distinct-on `c`, then the order expression "c, id". */
  function WhereDistinctOn(col: string): (r: Selector)
    ensures !r.Nil?
    ensures forall q {:trigger Run(r, q)} :: Run(r, q) == Query(q.wheres, q.mods + [DistinctOn(col), OrderExpr(col + ", id")])
  {
    DistinctOnCol(col)
  }

  /** `WhereJsonbEqual`: one condition comparing the text of a top-level field. */
  function WhereJsonbEqual(col: string, field: string, value: Arg): (r: Selector)
    ensures !r.Nil?
    ensures forall q {:trigger Run(r, q)} :: Run(r, q) == q.Where(JsonbFieldEqual, [Ident(col), Text(field), value])
  {
    Condition(JsonbFieldEqual, [Ident(col), Text(field), value])
  }

  /** `WhereJsonbPathEqual`: one condition whose template is the text path expression. */
  function WhereJsonbPathEqual(col: string, path: seq<string>, value: Arg): (r: Selector)
    ensures !r.Nil?
    ensures forall q {:trigger Run(r, q)} :: Run(r, q) == q.Where(Raw(JsonbPath(path, true) + " = ?"), [Ident(col), value])
  {
    Condition(Raw(JsonbPath(path, true) + " = ?"), [Ident(col), value])
  }

  /** `WhereJsonbObjectsArrayKeyValueEqual`: one containment condition on the array under `key`. */
  function WhereJsonbObjectsArrayKeyValueEqual(col: string, key: string, field: string, value: Arg): (r: Selector)
    ensures !r.Nil?
    ensures forall q {:trigger Run(r, q)} :: Run(r, q) == q.Where(JsonbArrayContains, [Ident(col), Text(key), Text(field), value])
  {
    Condition(JsonbArrayContains, [Ident(col), Text(key), Text(field), value])
  }

  /** `WhereJsonbPathObjectsArrayKeyValueEqual`: one containment condition on the array at the path. */
  function WhereJsonbPathObjectsArrayKeyValueEqual(col: string, path: seq<string>, field: string, value: Arg): (r: Selector)
    ensures !r.Nil?
    ensures forall q {:trigger Run(r, q)} :: Run(r, q) == q.Where(Raw(JsonbPath(path, false) + ContainsObject), [Ident(col), Text(field), value])
  {
    Condition(Raw(JsonbPath(path, false) + ContainsObject), [Ident(col), Text(field), value])
  }

  /** The fixed templates the factories bind, spelled out. */
  lemma FactoryTemplates()
    ensures Equal.Text() == "?TableAlias.? = ?" && NotEqual.Text() == "?TableAlias.? != ?"
    ensures IsNull.Text() == "?TableAlias.? is null" && IsNotNull.Text() == "?TableAlias.? is not null"
    ensures InList.Text() == "?TableAlias.? IN (?)" && NotInList.Text() == "?TableAlias.? NOT IN (?)"
    ensures AtMost.Text() == "?TableAlias.? <= ?" && AtLeast.Text() == "?TableAlias.? >= ?"
    ensures ILike.Text() == "?TableAlias.? ILIKE ?"
    ensures JsonbFieldEqual.Text() == "?TableAlias.?->>? = ?"
  {
  }

  // ---------------------------------------------------------------------------
  // JSONB path expressions

  /** `escapeJsonPathSegment`: every single quote doubled, every other character kept. */
  function Escape(segment: string): (r: string)
    ensures |r| == |segment| + Quotes(segment)
  {
    if segment == [] then []
    else (if segment[0] == '\'' then "''" else [segment[0]]) + Escape(segment[1..])
  }

  /** The number of single quotes in `s`. */
  function Quotes(s: string): nat
  {
    if s == [] then 0 else (if s[0] == '\'' then 1 else 0) + Quotes(s[1..])
  }

  /** Reads an escaped segment back: each doubled quote becomes one quote. */
  function Unescape(s: string): string
  {
    if s == [] then []
    else if |s| >= 2 && s[0] == '\'' && s[1] == '\'' then "'" + Unescape(s[2..])
    else [s[0]] + Unescape(s[1..])
  }

  /** Escaping loses nothing: the original segment can be read back. */
  lemma {:induction false} EscapeRoundTrip(segment: string)
    ensures Unescape(Escape(segment)) == segment
  {
    if segment != [] {
      EscapeRoundTrip(segment[1..]);
      var rest := Escape(segment[1..]);
      if segment[0] == '\'' {
        assert Escape(segment) == "''" + rest;
        assert ("''" + rest)[2..] == rest;
      } else {
        assert Escape(segment) == [segment[0]] + rest;
        assert ([segment[0]] + rest)[1..] == rest;
      }
    }
  }

  /** Quote-free segments are unchanged, and escaping doubles the number of quotes. */
  lemma {:induction false} EscapeQuotes(segment: string)
    ensures Quotes(segment) == 0 ==> Escape(segment) == segment
    ensures |Escape(segment)| == |segment| + Quotes(segment)
    ensures Quotes(Escape(segment)) == 2 * Quotes(segment)
  {
    if segment != [] {
      EscapeQuotes(segment[1..]);
      var rest := Escape(segment[1..]);
      QuotesConcat(if segment[0] == '\'' then "''" else [segment[0]], rest);
    }
  }

  lemma {:induction false} QuotesConcat(a: string, b: string)
    ensures Quotes(a + b) == Quotes(a) + Quotes(b)
  {
    if a == [] {
      assert a + b == b;
    } else {
      assert (a + b)[0] == a[0];
      assert (a + b)[1..] == a[1..] + b;
      QuotesConcat(a[1..], b);
    }
  }

  /** Escaping is not idempotent: a segment with a quote changes again on a second pass. */
  lemma EscapeNotIdempotent(segment: string)
    requires Quotes(segment) > 0
    ensures Escape(Escape(segment)) != Escape(segment)
  {
    EscapeQuotes(segment);
    EscapeQuotes(Escape(segment));
  }

  /** Escaping works character by character, so it distributes over concatenation. */
  lemma {:induction false} EscapeConcat(a: string, b: string)
    ensures Escape(a + b) == Escape(a) + Escape(b)
  {
    if a == [] {
      assert a + b == b;
    } else {
      assert (a + b)[0] == a[0];
      assert (a + b)[1..] == a[1..] + b;
      EscapeConcat(a[1..], b);
      var head := if a[0] == '\'' then "''" else [a[0]];
      assert head + (Escape(a[1..]) + Escape(b)) == head + Escape(a[1..]) + Escape(b);
    }
  }

  /** A segment with no quote character is kept as it is. */
  lemma {:induction false} QuoteFreeUnchanged(segment: string)
    requires forall i :: 0 <= i < |segment| ==> segment[i] != '\''
    ensures Escape(segment) == segment
  {
    if segment != [] {
      QuoteFreeUnchanged(segment[1..]);
      assert [segment[0]] + segment[1..] == segment;
    }
  }

  /** The escaping cases of bunutils' tests. */
  lemma EscapeExamples()
    ensures Escape("user") == "user"
    ensures Escape("user's") == "user''s"
  {
    UserUnescaped();
    OneQuoteExample();
  }

  lemma OneQuoteExample()
    ensures Escape("user's") == "user''s"
  {
    EscapeConcat("user", "'s");
    assert "user" + "'s" == "user's";
    UserUnescaped();
    QuoteSuffixEscaped();
    assert "user" + "''s" == "user''s";
  }

  lemma QuoteSuffixEscaped()
    ensures Escape("'s") == "''s"
  {
  }

  lemma ItUnescaped()
    ensures Escape("it") == "it"
  {
  }

  lemma SpaceUserUnescaped()
    ensures Escape(" user") == " user"
  {
  }

  lemma ItsEscaped()
    ensures Escape("it's") == "it''s"
  {
    ItUnescaped();
    QuoteSuffixEscaped();
    EscapeConcat("it", "'s");
    assert "it" + "'s" == "it's";
    assert "it" + "''s" == "it''s";
  }

  lemma UsersEscaped()
    ensures Escape(" user's") == " user''s"
  {
    SpaceUserUnescaped();
    QuoteSuffixEscaped();
    EscapeConcat(" user", "'s");
    assert " user" + "'s" == " user's";
    assert " user" + "''s" == " user''s";
  }

  lemma EscapeTwoQuotesExample()
    ensures Escape("it's user's") == "it''s user''s"
  {
    ItsEscaped();
    UsersEscaped();
    EscapeConcat("it's", " user's");
    assert "it's" + " user's" == "it's user's";
    assert "it''s" + " user''s" == "it''s user''s";
  }

  const PathRoot: string := "?TableAlias.?"

  /** The two JSONB field operators: `->` yields JSON, `->>` yields text. */
  datatype Arrow = GetJson | GetText
  {
    function Symbol(): string
    {
      match this
      case GetJson => "->"
      case GetText => "->>"
    }
  }

  /** One step of a path expression: an operator and the (unescaped) segment it selects. */
  datatype Piece = Piece(op: Arrow, segment: string)

  /** The operator for the segment at `idx`: text extraction only at the last index. */
  function Operator(path: seq<string>, text: bool, idx: nat): Arrow
  {
    if text && idx == |path| - 1 then GetText else GetJson
  }

  /** The steps the first `n` segments contribute, in path order; empty segments contribute none. */
  function Pieces(path: seq<string>, text: bool, n: nat): seq<Piece>
    requires n <= |path|
  {
    if n == 0 then []
    else Pieces(path, text, n - 1) + (if path[n - 1] == "" then [] else [Piece(Operator(path, text, n - 1), path[n - 1])])
  }

  /** The text of one step: the operator, then the escaped segment in single quotes. */
  function Format(operator: Arrow, escaped: string): string
  {
    " " + operator.Symbol() + " '" + escaped + "'"
  }

  /** The text of a sequence of steps. */
  function Render(pieces: seq<Piece>): string
  {
    if pieces == [] then ""
    else
      var last := pieces[|pieces| - 1];
      Render(pieces[..|pieces| - 1]) + Format(last.op, Escape(last.segment))
  }

  lemma RenderSnoc(pieces: seq<Piece>, p: Piece)
    ensures Render(pieces + [p]) == Render(pieces) + Format(p.op, Escape(p.segment))
  {
    assert (pieces + [p])[..|pieces|] == pieces;
  }

  /** `jsonbPathExpression(path, text)`: the root, then the text of each step. */
  function JsonbPath(path: seq<string>, text: bool): (r: string)
    ensures |PathRoot| <= |r| && r[..|PathRoot|] == PathRoot
  {
    PathRoot + Render(Pieces(path, text, |path|))
  }

  /** `jsonbPathExpression`, as the loop that accumulates the expression. */
  method JsonbPathExpression(path: seq<string>, text: bool) returns (expr: string)
    ensures expr == JsonbPath(path, text)
  {
    expr := "?TableAlias.?";
    for idx := 0 to |path|
      invariant expr == PathRoot + Render(Pieces(path, text, idx))
    {
      var segment := path[idx];
      PrefixGrows(path, text, idx);
      if segment == "" {
        continue;
      }
      var operator := GetJson;
      if text && idx == |path| - 1 {
        operator := GetText;
      }
      expr := expr + Format(operator, Escape(segment));
    }
  }

  /** One more segment extends the expression by its step, or by nothing when it is empty. */
  lemma PrefixGrows(path: seq<string>, text: bool, idx: nat)
    requires idx < |path|
    ensures path[idx] == "" ==> Render(Pieces(path, text, idx + 1)) == Render(Pieces(path, text, idx))
    ensures path[idx] != "" ==>
      PathRoot + Render(Pieces(path, text, idx + 1))
        == PathRoot + Render(Pieces(path, text, idx)) + Format(Operator(path, text, idx), Escape(path[idx]))
  {
    var done := Pieces(path, text, idx);
    if path[idx] == "" {
      assert Pieces(path, text, idx + 1) == done + [] == done;
    } else {
      var p := Piece(Operator(path, text, idx), path[idx]);
      assert Pieces(path, text, idx + 1) == done + [p];
      RenderSnoc(done, p);
      SeqAssoc(PathRoot, Render(done), Format(p.op, Escape(p.segment)));
    }
  }

  /** Before the last index the text flag changes nothing. */
  lemma {:induction false} PiecesIgnoreTextBeforeLast(path: seq<string>, n: nat)
    requires n < |path|
    ensures Pieces(path, true, n) == Pieces(path, false, n)
  {
    if n > 0 {
      PiecesIgnoreTextBeforeLast(path, n - 1);
      assert Operator(path, true, n - 1) == Operator(path, false, n - 1);
    }
  }

  /** Segments after the first `n` do not change what the first `n` contribute (no text). */
  lemma {:induction false} PiecesExtend(path: seq<string>, more: seq<string>, n: nat)
    requires n <= |path|
    ensures Pieces(path + more, false, n) == Pieces(path, false, n)
  {
    if n > 0 {
      PiecesExtend(path, more, n - 1);
      assert (path + more)[n - 1] == path[n - 1];
    }
  }

  /**
    Appending a segment to a path without text extraction appends " -> 'seg'" with the
    segment escaped, or nothing at all for an empty segment.
  */
  lemma AppendSegment(path: seq<string>, segment: string)
    ensures JsonbPath(path + [segment], false)
         == JsonbPath(path, false) + (if segment == "" then "" else Format(GetJson, Escape(segment)))
  {
    var p := path + [segment];
    var n := |path|;
    assert p[n] == segment;
    PiecesExtend(path, [segment], n);
    var done := Pieces(path, false, n);
    if segment == "" {
      assert Pieces(p, false, n + 1) == done + [] == done;
    } else {
      assert Pieces(p, false, n + 1) == done + [Piece(GetJson, segment)];
      RenderSnoc(done, Piece(GetJson, segment));
      SeqAssoc(PathRoot, Render(done), Format(GetJson, Escape(segment)));
    }
  }

  /**
    With text extraction, a non-empty last segment gets "->>" and every earlier one "->";
    an empty last segment means there is no "->>" at all, even when earlier segments are
    non-empty.
  */
  lemma TextSelectsLastIndex(path: seq<string>, last: string)
    ensures last != "" ==> JsonbPath(path + [last], true) == JsonbPath(path, false) + Format(GetText, Escape(last))
    ensures last == "" ==> JsonbPath(path + [last], true) == JsonbPath(path, false)
  {
    var p := path + [last];
    var n := |path|;
    assert p[n] == last;
    PiecesIgnoreTextBeforeLast(p, n);
    PiecesExtend(path, [last], n);
    var done := Pieces(path, false, n);
    assert Operator(p, true, n) == GetText;
    if last == "" {
      assert Pieces(p, true, n + 1) == done + [] == done;
    } else {
      assert Pieces(p, true, n + 1) == done + [Piece(GetText, last)];
      RenderSnoc(done, Piece(GetText, last));
      SeqAssoc(PathRoot, Render(done), Format(GetText, Escape(last)));
    }
  }

  /** The expression starts with the table column; an all-empty path yields nothing more. */
  lemma {:induction false} AllEmptyPathIsRoot(path: seq<string>, text: bool, n: nat)
    requires n <= |path|
    requires forall i :: 0 <= i < |path| ==> path[i] == ""
    ensures Pieces(path, text, n) == []
    ensures n == |path| ==> JsonbPath(path, text) == PathRoot
  {
    if n > 0 {
      AllEmptyPathIsRoot(path, text, n - 1);
    }
  }

  /** The steps of the test paths' shapes. */
  lemma PiecesOfShapes(a: string, b: string, c: string)
    requires a != "" && b != "" && c != ""
    ensures Pieces([a], true, 1) == [Piece(GetText, a)]
    ensures Pieces([a, b], false, 2) == [Piece(GetJson, a), Piece(GetJson, b)]
    ensures Pieces([a, b, c], true, 3) == [Piece(GetJson, a), Piece(GetJson, b), Piece(GetText, c)]
    ensures Pieces([a, "", c], true, 3) == [Piece(GetJson, a), Piece(GetText, c)]
  {
    assert Pieces([a], true, 1) == [] + [Piece(GetText, a)];
    assert Pieces([a, b], false, 1) == [] + [Piece(GetJson, a)];
    assert Pieces([a, b, c], true, 1) == [] + [Piece(GetJson, a)];
    assert Pieces([a, b, c], true, 2) == [Piece(GetJson, a)] + [Piece(GetJson, b)];
    assert Pieces([a, "", c], true, 1) == [] + [Piece(GetJson, a)] == [Piece(GetJson, a)];
    assert Pieces([a, "", c], true, 2) == [Piece(GetJson, a)] + [] == [Piece(GetJson, a)];
  }

  /** The text of one, two and three steps. */
  lemma RenderShapes(x: Piece, y: Piece, z: Piece)
    ensures Render([x]) == Format(x.op, Escape(x.segment))
    ensures Render([x, y]) == Format(x.op, Escape(x.segment)) + Format(y.op, Escape(y.segment))
    ensures Render([x, y, z])
         == Format(x.op, Escape(x.segment)) + Format(y.op, Escape(y.segment)) + Format(z.op, Escape(z.segment))
  {
    RenderSnoc([], x);
    assert [] + [x] == [x];
    RenderSnoc([x], y);
    assert [x] + [y] == [x, y];
    RenderSnoc([x, y], z);
    assert [x, y] + [z] == [x, y, z];
  }

  /** The segments of bunutils' path tests contain no quote, so escaping keeps them. */
  lemma UserUnescaped()
    ensures Escape("user") == "user"
  {
  }

  lemma ProfileUnescaped()
    ensures Escape("profile") == "profile"
  {
  }

  lemma NameUnescaped()
    ensures Escape("name") == "name"
  {
  }

  /** The expected strings of bunutils' path tests, assembled from their pieces. */
  lemma JsonbPathSpelledShort()
    ensures PathRoot + Format(GetText, "user") == "?TableAlias.? ->> 'user'"
    ensures PathRoot + (Format(GetJson, "user") + Format(GetJson, "profile")) == "?TableAlias.? -> 'user' -> 'profile'"
  {
  }

  lemma JsonbPathSpelledLong()
    ensures PathRoot + (Format(GetJson, "user") + Format(GetJson, "profile") + Format(GetText, "name"))
         == "?TableAlias.? -> 'user' -> 'profile' ->> 'name'"
  {
  }

  lemma JsonbPathSpelledSkip()
    ensures PathRoot + (Format(GetJson, "user") + Format(GetText, "name")) == "?TableAlias.? -> 'user' ->> 'name'"
  {
  }

  /** The path-expression cases of bunutils' tests, as the exact strings expected. */
  lemma JsonbPathExamples()
    ensures JsonbPath(["user"], true) == "?TableAlias.? ->> 'user'"
    ensures JsonbPath(["user", "profile"], false) == "?TableAlias.? -> 'user' -> 'profile'"
    ensures JsonbPath(["user", "profile", "name"], true) == "?TableAlias.? -> 'user' -> 'profile' ->> 'name'"
    ensures JsonbPath(["user", "", "name"], true) == "?TableAlias.? -> 'user' ->> 'name'"
  {
    UserUnescaped();
    ProfileUnescaped();
    NameUnescaped();
    PiecesOfShapes("user", "profile", "name");
    var u, p, n := Piece(GetJson, "user"), Piece(GetJson, "profile"), Piece(GetText, "name");
    RenderShapes(Piece(GetText, "user"), u, u);
    RenderShapes(u, p, n);
    RenderShapes(u, n, n);
    JsonbPathSpelledShort();
    JsonbPathSpelledLong();
    JsonbPathSpelledSkip();
  }

  /**
    For a one-key path, the path variant of array containment renders as the column, the
    key escaped and quoted after `->`, then the containment test: the fixed template's
    shape, with the key written in where the fixed one binds it.
  */
  lemma SingleKeyPathInlinesKey(key: string)
    requires key != ""
    ensures JsonbPath([key], false) + ContainsObject == PathRoot + Format(GetJson, Escape(key)) + ContainsObject
  {
    AppendSegment([], key);
    AllEmptyPathIsRoot([], false, 0);
    assert [] + [key] == [key];
  }
}
