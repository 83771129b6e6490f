/**
  The filter descriptor: a record of common filter, projection, pagination and sort
  settings that turns itself into builder calls in a fixed order.
*/
module Filter {
  import opened Wrappers
  import opened Builder

  const DefaultIDCol: string := "id"
  const DefaultFlagsCol: string := "flags"
  const DefaultCreatedAtCol: string := "created_at"
  const DefaultUpdatedAtCol: string := "updated_at"

  /**
    The descriptor as a value (what a copy of it holds). Optional pointers are `Option`s,
    a nil `Order` map is the empty map, timestamps are milliseconds since the Unix epoch.
  */
  datatype Descriptor = Descriptor(
    id: string, ids: seq<string>, notInIds: seq<string>,
    hasFlags: seq<int>, hasNotFlags: seq<int>,
    onlyDeleted: bool, withDeleted: bool,
    limit: Option<int>, offset: Option<int>,
    flagsCol: string, createdAtCol: string, updatedAtCol: string,
    createdAfter: Option<int>, createdBefore: Option<int>,
    updatedAfter: Option<int>, updatedBefore: Option<int>,
    selectColumns: seq<string>, excludeColumns: seq<string>,
    sortBy: int, sortDesc: bool,
    order: map<int, string>)

  /** The descriptor as the object that `Where` updates in place. */
  class Where {
    var id: string
    var ids: seq<string>
    var notInIds: seq<string>
    var hasFlags: seq<int>
    var hasNotFlags: seq<int>
    var onlyDeleted: bool
    var withDeleted: bool
    var limit: Option<int>
    var offset: Option<int>
    var flagsCol: string
    var createdAtCol: string
    var updatedAtCol: string
    var createdAfter: Option<int>
    var createdBefore: Option<int>
    var updatedAfter: Option<int>
    var updatedBefore: Option<int>
    var selectColumns: seq<string>
    var excludeColumns: seq<string>
    var sortBy: int
    var sortDesc: bool
    var order: map<int, string>

    /** The current field values, as a copy would hold them. */
    function Value(): Descriptor
      reads this
    {
      Descriptor(id, ids, notInIds, hasFlags, hasNotFlags, onlyDeleted, withDeleted,
        limit, offset, flagsCol, createdAtCol, updatedAtCol,
        createdAfter, createdBefore, updatedAfter, updatedBefore,
        selectColumns, excludeColumns, sortBy, sortDesc, order)
    }

    constructor (d: Descriptor)
      ensures Value() == d
    {
      id, ids, notInIds := d.id, d.ids, d.notInIds;
      hasFlags, hasNotFlags := d.hasFlags, d.hasNotFlags;
      onlyDeleted, withDeleted := d.onlyDeleted, d.withDeleted;
      limit, offset := d.limit, d.offset;
      flagsCol, createdAtCol, updatedAtCol := d.flagsCol, d.createdAtCol, d.updatedAtCol;
      createdAfter, createdBefore := d.createdAfter, d.createdBefore;
      updatedAfter, updatedBefore := d.updatedAfter, d.updatedBefore;
      selectColumns, excludeColumns := d.selectColumns, d.excludeColumns;
      sortBy, sortDesc, order := d.sortBy, d.sortDesc, d.order;
    }

    /** Gives the blank column-name fields their defaults, in place. */
    method FillDefaults()
      modifies this
      ensures Value() == WithDefaults(old(Value()))
    {
      if flagsCol == "" {
        flagsCol := DefaultFlagsCol;
      }
      if createdAtCol == "" {
        createdAtCol := DefaultCreatedAtCol;
      }
      if updatedAtCol == "" {
        updatedAtCol := DefaultUpdatedAtCol;
      }
    }
  }

  // ---------------------------------------------------------------------------
  // Specification of `Where`: the defaults it writes and the calls it makes

  /** The descriptor after its blank column-name fields got their defaults. */
  function WithDefaults(d: Descriptor): Descriptor
  {
    d.(flagsCol := if d.flagsCol == "" then DefaultFlagsCol else d.flagsCol,
       createdAtCol := if d.createdAtCol == "" then DefaultCreatedAtCol else d.createdAtCol,
       updatedAtCol := if d.updatedAtCol == "" then DefaultUpdatedAtCol else d.updatedAtCol)
  }

  /** A one-element list when `b` holds, else nothing. */
  function When(b: bool, c: Cond): seq<Cond>
  {
    if b then [c] else []
  }

  /** The strings of an id list, as the arguments of an `In` list. */
  function Texts(ss: seq<string>): (r: seq<Arg>)
    ensures |r| == |ss| && forall i :: 0 <= i < |ss| ==> r[i] == Text(ss[i])
  {
    seq(|ss|, i requires 0 <= i < |ss| => Text(ss[i]))
  }

  function HasFlag(f: int): Cond
  {
    Expr(FlagSet, [Ident(DefaultFlagsCol), Num(f), Num(f)])
  }

  function HasNotFlag(f: int): Cond
  {
    Expr(FlagClear, [Ident(DefaultFlagsCol), Num(f)])
  }

  /** One `flags & f = f` condition per flag, in list order. */
  function HasFlagConds(flags: seq<int>): (r: seq<Cond>)
    ensures |r| == |flags|
    ensures forall i :: 0 <= i < |flags| ==> r[i] == HasFlag(flags[i])
  {
    if flags == [] then [] else HasFlagConds(flags[..|flags| - 1]) + [HasFlag(flags[|flags| - 1])]
  }

  /** One `flags & f = 0` condition per flag, in list order. */
  function HasNotFlagConds(flags: seq<int>): (r: seq<Cond>)
    ensures |r| == |flags|
    ensures forall i :: 0 <= i < |flags| ==> r[i] == HasNotFlag(flags[i])
  {
    if flags == [] then [] else HasNotFlagConds(flags[..|flags| - 1]) + [HasNotFlag(flags[|flags| - 1])]
  }

  function IdConds(d: Descriptor): seq<Cond>
  {
    When(d.id != "", Expr(Equal, [Ident(DefaultIDCol), Text(d.id)]))
    + When(|d.ids| > 0, Expr(InList, [Ident(DefaultIDCol), In(Texts(d.ids))]))
    + When(|d.notInIds| > 0, Expr(NotInList, [Ident(DefaultIDCol), In(Texts(d.notInIds))]))
  }

  /** A bound on a timestamp column, when the bound is set. */
  function Bound(template: Template, col: string, t: Option<int>): seq<Cond>
  {
    if t.Some? then [Expr(template, [Ident(col), Time(t.value)])] else []
  }

  function TimeConds(d: Descriptor): seq<Cond>
  {
    Bound(AtLeast, DefaultCreatedAtCol, d.createdAfter)
    + Bound(AtMost, DefaultCreatedAtCol, d.createdBefore)
    + Bound(AtLeast, DefaultUpdatedAtCol, d.updatedAfter)
    + Bound(AtMost, DefaultUpdatedAtCol, d.updatedBefore)
  }

  /** Every WHERE condition `Where` appends, in the order it appends them. */
  function Conditions(d: Descriptor): seq<Cond>
  {
    IdConds(d) + HasFlagConds(d.hasFlags) + HasNotFlagConds(d.hasNotFlags) + TimeConds(d)
  }

  /** The soft-delete visibility call `Where` makes, if any. */
  function SoftDelete(d: Descriptor): seq<Modifier>
  {
    if d.onlyDeleted then [WhereDeleted]
    else if d.withDeleted then [WhereAllWithDeleted]
    else []
  }

  /** The query `Where` returns for a descriptor holding `d`. */
  function Filtered(d: Descriptor, q: Query): Query
  {
    q.Append(Query(Conditions(d), SoftDelete(d)))
  }

  /**
    `(*Where).Where`: a nil descriptor leaves the query alone; otherwise the blank
    column-name fields are defaulted in place and the conditions are appended. The
    conditions name the default columns, whatever the column-name fields hold.
  */
  method ApplyWhere(w: Where?, q: Query) returns (r: Query)
    modifies w
    ensures w == null ==> r == q
    ensures w != null ==> w.Value() == WithDefaults(old(w.Value()))
    ensures w != null ==> r == Filtered(old(w.Value()), q)
  {
    if w == null {
      return q;
    }
    ghost var d := w.Value();
    w.FillDefaults();
    assert Conditions(w.Value()) == Conditions(d) && SoftDelete(w.Value()) == SoftDelete(d);

    r := AppendIdConds(w, q);
    ghost var byId := r;
    r := AppendFlagConds(w, r);
    ghost var byFlags := r;
    if w.onlyDeleted {
      r := r.With(WhereDeleted);
    } else if w.withDeleted {
      r := r.With(WhereAllWithDeleted);
    }
    ghost var bySoftDelete := r;
    r := AppendTimeConds(w, r);

    ghost var e := w.Value();
    assert bySoftDelete == Query(byFlags.wheres, q.mods + SoftDelete(e));
    SeqAssoc(q.wheres, IdConds(e), HasFlagConds(e.hasFlags) + HasNotFlagConds(e.hasNotFlags));
    SeqAssoc(q.wheres, IdConds(e) + (HasFlagConds(e.hasFlags) + HasNotFlagConds(e.hasNotFlags)), TimeConds(e));
    SeqAssoc(IdConds(e), HasFlagConds(e.hasFlags), HasNotFlagConds(e.hasNotFlags));
  }

  /** The id conditions of `Where`: equality, inclusion, exclusion, each when set. */
  method AppendIdConds(w: Where, q: Query) returns (r: Query)
    ensures r == Query(q.wheres + IdConds(w.Value()), q.mods)
  {
    r := q;
    if w.id != "" {
      r := r.Where(Equal, [Ident(DefaultIDCol), Text(w.id)]);
    }
    if |w.ids| > 0 {
      r := r.Where(InList, [Ident(DefaultIDCol), In(Texts(w.ids))]);
    }
    if |w.notInIds| > 0 {
      r := r.Where(NotInList, [Ident(DefaultIDCol), In(Texts(w.notInIds))]);
    }
  }

  /** The flag conditions of `Where`: the required flags, then the excluded ones. */
  method AppendFlagConds(w: Where, q: Query) returns (r: Query)
    ensures r == Query(q.wheres + (HasFlagConds(w.hasFlags) + HasNotFlagConds(w.hasNotFlags)), q.mods)
  {
    r := q;
    for i := 0 to |w.hasFlags|
      invariant r == Query(q.wheres + HasFlagConds(w.hasFlags[..i]), q.mods)
    {
      var flag := w.hasFlags[i];
      r := r.Where(FlagSet, [Ident(DefaultFlagsCol), Num(flag), Num(flag)]);
      assert w.hasFlags[..i + 1][..i] == w.hasFlags[..i];
    }
    assert w.hasFlags[..|w.hasFlags|] == w.hasFlags;
    ghost var byFlags := r;
    for i := 0 to |w.hasNotFlags|
      invariant r == Query(byFlags.wheres + HasNotFlagConds(w.hasNotFlags[..i]), q.mods)
    {
      var flag := w.hasNotFlags[i];
      r := r.Where(FlagClear, [Ident(DefaultFlagsCol), Num(flag)]);
      assert w.hasNotFlags[..i + 1][..i] == w.hasNotFlags[..i];
    }
    assert w.hasNotFlags[..|w.hasNotFlags|] == w.hasNotFlags;
    SeqAssoc(q.wheres, HasFlagConds(w.hasFlags), HasNotFlagConds(w.hasNotFlags));
  }

  /** The time-range conditions of `Where`: inclusive bounds, each when set. */
  method AppendTimeConds(w: Where, q: Query) returns (r: Query)
    ensures r == Query(q.wheres + TimeConds(w.Value()), q.mods)
  {
    r := q;
    if w.createdAfter.Some? {
      r := r.Where(AtLeast, [Ident(DefaultCreatedAtCol), Time(w.createdAfter.value)]);
    }
    ghost var byCreatedAfter := r;
    if w.createdBefore.Some? {
      r := r.Where(AtMost, [Ident(DefaultCreatedAtCol), Time(w.createdBefore.value)]);
    }
    ghost var byCreatedBefore := r;
    if w.updatedAfter.Some? {
      r := r.Where(AtLeast, [Ident(DefaultUpdatedAtCol), Time(w.updatedAfter.value)]);
    }
    ghost var byUpdatedAfter := r;
    if w.updatedBefore.Some? {
      r := r.Where(AtMost, [Ident(DefaultUpdatedAtCol), Time(w.updatedBefore.value)]);
    }
    ghost var d := w.Value();
    assert byCreatedAfter.wheres == q.wheres + Bound(AtLeast, DefaultCreatedAtCol, d.createdAfter);
    assert byCreatedBefore.wheres == byCreatedAfter.wheres + Bound(AtMost, DefaultCreatedAtCol, d.createdBefore);
    assert byUpdatedAfter.wheres == byCreatedBefore.wheres + Bound(AtLeast, DefaultUpdatedAtCol, d.updatedAfter);
    assert r.wheres == byUpdatedAfter.wheres + Bound(AtMost, DefaultUpdatedAtCol, d.updatedBefore);
    SeqAssoc3(q.wheres, Bound(AtLeast, DefaultCreatedAtCol, d.createdAfter),
      Bound(AtMost, DefaultCreatedAtCol, d.createdBefore), Bound(AtLeast, DefaultUpdatedAtCol, d.updatedAfter));
    SeqAssoc(q.wheres, Bound(AtLeast, DefaultCreatedAtCol, d.createdAfter)
      + Bound(AtMost, DefaultCreatedAtCol, d.createdBefore) + Bound(AtLeast, DefaultUpdatedAtCol, d.updatedAfter),
      Bound(AtMost, DefaultUpdatedAtCol, d.updatedBefore));
  }

  // ---------------------------------------------------------------------------
  // Specification of `Select`: projection, pagination and ordering

  /** `OrderAsc(col)`: the column, then the ascending keyword; the column can be read back. */
  function OrderAsc(col: string): (r: string)
    ensures |r| == |col| + 4 && r[..|col|] == col && r[|col|..] == " asc"
  {
    col + " asc"
  }

  /** `OrderDesc(col)`: the column, then the descending keyword; the column can be read back. */
  function OrderDesc(col: string): (r: string)
    ensures |r| == |col| + 5 && r[..|col|] == col && r[|col|..] == " desc"
  {
    col + " desc"
  }

  /** The ordering call `Select` makes: only for a sort key present in the map. */
  function OrderMods(d: Descriptor): seq<Modifier>
  {
    if d.sortBy in d.order then
      [Order(if d.sortDesc then OrderDesc(d.order[d.sortBy]) else OrderAsc(d.order[d.sortBy]))]
    else []
  }

  /** The projection calls `Select` makes: only for non-empty lists. */
  function ProjectionMods(d: Descriptor): seq<Modifier>
  {
    (if |d.selectColumns| > 0 then [Column(d.selectColumns)] else [])
    + (if |d.excludeColumns| > 0 then [ExcludeColumn(d.excludeColumns)] else [])
  }

  /** The pagination calls `Select` makes: only for set limit and offset. */
  function PaginationMods(d: Descriptor): seq<Modifier>
  {
    (if d.limit.Some? then [Limit(d.limit.value)] else [])
    + (if d.offset.Some? then [Offset(d.offset.value)] else [])
  }

  /** Every call `Select` makes on the query, in order. */
  function SelectMods(d: Descriptor): seq<Modifier>
  {
    ProjectionMods(d) + PaginationMods(d) + OrderMods(d)
  }

  /**
    `(*Where).Select`: a nil descriptor leaves the query alone; otherwise projection,
    pagination and ordering are appended. It changes neither the descriptor (no
    `modifies`) nor the WHERE conditions.
  */
  method ApplySelect(w: Where?, q: Query) returns (r: Query)
    ensures w == null ==> r == q
    ensures w != null ==> r.wheres == q.wheres && r.mods == q.mods + SelectMods(w.Value())
  {
    if w == null {
      return q;
    }
    ghost var d := w.Value();
    r := q;
    if |w.selectColumns| > 0 {
      r := r.With(Column(w.selectColumns));
    }
    if |w.excludeColumns| > 0 {
      r := r.With(ExcludeColumn(w.excludeColumns));
    }
    ghost var projected := r;
    assert projected.mods == q.mods + ProjectionMods(d);
    if w.limit.Some? {
      r := r.With(Limit(w.limit.value));
    }
    if w.offset.Some? {
      r := r.With(Offset(w.offset.value));
    }
    ghost var paged := r;
    assert paged.mods == projected.mods + PaginationMods(d);
    if w.sortBy in w.order {
      var col := w.order[w.sortBy];
      if w.sortDesc {
        r := r.With(Order(OrderDesc(col)));
      } else {
        r := r.With(Order(OrderAsc(col)));
      }
    }
    assert r.mods == paged.mods + OrderMods(d);
    SeqAssoc3(q.mods, ProjectionMods(d), PaginationMods(d), OrderMods(d));
  }

  // ---------------------------------------------------------------------------
  // Properties of `Where`

  /**
    Filling in defaults writes a default into each blank column-name field, keeps every
    non-blank one and every other field, and a second pass changes nothing further.
  */
  lemma DefaultsFillOnlyBlankColumns(d: Descriptor)
    ensures WithDefaults(d).flagsCol != "" && WithDefaults(d).createdAtCol != "" && WithDefaults(d).updatedAtCol != ""
    ensures d.flagsCol != "" ==> WithDefaults(d).flagsCol == d.flagsCol
    ensures d.createdAtCol != "" ==> WithDefaults(d).createdAtCol == d.createdAtCol
    ensures d.updatedAtCol != "" ==> WithDefaults(d).updatedAtCol == d.updatedAtCol
    ensures d.flagsCol == "" ==> WithDefaults(d).flagsCol == DefaultFlagsCol
    ensures d.createdAtCol == "" ==> WithDefaults(d).createdAtCol == DefaultCreatedAtCol
    ensures d.updatedAtCol == "" ==> WithDefaults(d).updatedAtCol == DefaultUpdatedAtCol
    ensures WithDefaults(d).(flagsCol := d.flagsCol, createdAtCol := d.createdAtCol, updatedAtCol := d.updatedAtCol) == d
    ensures WithDefaults(WithDefaults(d)) == WithDefaults(d)
  {
  }

  /**
    The column-name fields never reach the query: two descriptors that differ only in
    those fields give the same query, so a second `Where` call on the same descriptor
    gives what the first gave.
  */
  lemma ColumnFieldsIgnored(d: Descriptor, flagsCol: string, createdAtCol: string, updatedAtCol: string, q: Query)
    ensures Filtered(d.(flagsCol := flagsCol, createdAtCol := createdAtCol, updatedAtCol := updatedAtCol), q)
         == Filtered(d, q)
    ensures Filtered(WithDefaults(d), q) == Filtered(d, q)
  {
  }

  /**
    The position of a condition in the fixed order of `Where`, recognised by its template
    and the column it names: id equality, id inclusion, id exclusion, required flag,
    excluded flag, created-at lower and upper bound, updated-at lower and upper bound.
    Any other condition ranks 9.
  */
  function Rank(c: Cond): (k: nat)
    ensures k <= 9
  {
    if !c.Expr? || |c.args| == 0 || !c.args[0].Ident? then 9 else Slot(c.template, c.args[0].name)
  }

  /** The rank of a condition with template `t` whose first argument is the column `col`. */
  function Slot(t: Template, col: string): (k: nat)
    ensures k <= 9
  {
    match t
    case Equal => if col == DefaultIDCol then 0 else 9
    case InList => if col == DefaultIDCol then 1 else 9
    case NotInList => if col == DefaultIDCol then 2 else 9
    case FlagSet => if col == DefaultFlagsCol then 3 else 9
    case FlagClear => if col == DefaultFlagsCol then 4 else 9
    case AtLeast => if col == DefaultCreatedAtCol then 5 else if col == DefaultUpdatedAtCol then 7 else 9
    case AtMost => if col == DefaultCreatedAtCol then 6 else if col == DefaultUpdatedAtCol then 8 else 9
    case _ => 9
  }

  /** Every condition of `cs` has a rank in `lo..hi`, and the ranks never go down. */
  predicate RankedWithin(cs: seq<Cond>, lo: nat, hi: nat)
  {
    (forall i :: 0 <= i < |cs| ==> lo <= Rank(cs[i]) <= hi)
    && (forall i, j :: 0 <= i < j < |cs| ==> Rank(cs[i]) <= Rank(cs[j]))
  }

  /** How many conditions of `cs` have rank `k`. */
  function CountRank(cs: seq<Cond>, k: nat): (n: nat)
    ensures n <= |cs|
  {
    if cs == [] then 0
    else CountRank(cs[..|cs| - 1], k) + (if Rank(cs[|cs| - 1]) == k then 1 else 0)
  }

  lemma {:induction false} CountRankConcat(a: seq<Cond>, b: seq<Cond>, k: nat)
    ensures CountRank(a + b, k) == CountRank(a, k) + CountRank(b, k)
  {
    if b == [] {
      assert a + b == a;
    } else {
      assert (a + b)[..|a + b| - 1] == a + b[..|b| - 1];
      CountRankConcat(a, b[..|b| - 1], k);
    }
  }

  /** Two ranked runs, the first ranking no higher than the second, make one ranked run. */
  lemma RankedConcat(a: seq<Cond>, b: seq<Cond>, lo: nat, m1: nat, m2: nat, hi: nat)
    requires lo <= m1 <= m2 <= hi
    requires RankedWithin(a, lo, m1) && RankedWithin(b, m2, hi)
    ensures RankedWithin(a + b, lo, hi)
  {
    var ab := a + b;
    forall i | 0 <= i < |ab| ensures ab[i] == (if i < |a| then a[i] else b[i - |a|]) {
    }
    forall i, j | 0 <= i < j < |ab| ensures Rank(ab[i]) <= Rank(ab[j]) {
    }
  }

  lemma RankedConcat3(a: seq<Cond>, b: seq<Cond>, c: seq<Cond>, ka: nat, kb: nat, lc: nat, hc: nat)
    requires ka <= kb <= lc <= hc
    requires RankedWithin(a, ka, ka) && RankedWithin(b, kb, kb) && RankedWithin(c, lc, hc)
    ensures RankedWithin(a + b + c, ka, hc)
  {
    RankedConcat(a, b, ka, ka, kb, kb);
    RankedConcat(a + b, c, ka, kb, lc, hc);
  }

  lemma RankedConcat4(a: seq<Cond>, b: seq<Cond>, c: seq<Cond>, e: seq<Cond>, ka: nat, kb: nat, kc: nat, le: nat, he: nat)
    requires ka <= kb <= kc <= le <= he
    requires RankedWithin(a, ka, ka) && RankedWithin(b, kb, kb) && RankedWithin(c, kc, kc) && RankedWithin(e, le, he)
    ensures RankedWithin(a + b + c + e, ka, he)
  {
    RankedConcat3(a, b, c, ka, kb, kc, kc);
    RankedConcat(a + b + c, e, ka, kc, le, he);
  }

  /** A run of conditions that all have rank `k` has `k`-count equal to its length and no other. */
  lemma {:induction false} CountRankUniform(cs: seq<Cond>, k: nat, other: nat)
    requires forall i :: 0 <= i < |cs| ==> Rank(cs[i]) == k
    ensures CountRank(cs, k) == |cs|
    ensures other != k ==> CountRank(cs, other) == 0
  {
    if cs != [] {
      CountRankUniform(cs[..|cs| - 1], k, other);
    }
  }

  /** An optional single condition is ranked by that condition. */
  lemma WhenRanked(b: bool, c: Cond)
    ensures RankedWithin(When(b, c), Rank(c), Rank(c))
  {
  }

  /** An optional single condition is counted once under its rank when present. */
  lemma WhenCount(b: bool, c: Cond, k: nat)
    ensures CountRank(When(b, c), k) == (if b && Rank(c) == k then 1 else 0)
  {
    if b {
      assert When(b, c)[..0] == [];
    }
  }

  /** An optional time bound is ranked by its slot. */
  lemma BoundRanked(template: Template, col: string, t: Option<int>)
    ensures RankedWithin(Bound(template, col, t), Slot(template, col), Slot(template, col))
  {
  }

  /** An optional time bound is counted once under its slot when present. */
  lemma BoundCount(template: Template, col: string, t: Option<int>, k: nat)
    ensures CountRank(Bound(template, col, t), k) == (if t.Some? && Slot(template, col) == k then 1 else 0)
  {
    if t.Some? {
      assert Bound(template, col, t)[..0] == [];
    }
  }

  /** The id conditions, in order, and the time bounds, in order. */
  function IdPieces(d: Descriptor): (r: seq<seq<Cond>>)
    ensures |r| == 3 && IdConds(d) == r[0] + r[1] + r[2]
  {
    [When(d.id != "", Expr(Equal, [Ident(DefaultIDCol), Text(d.id)])),
     When(|d.ids| > 0, Expr(InList, [Ident(DefaultIDCol), In(Texts(d.ids))])),
     When(|d.notInIds| > 0, Expr(NotInList, [Ident(DefaultIDCol), In(Texts(d.notInIds))]))]
  }

  function TimePieces(d: Descriptor): (r: seq<seq<Cond>>)
    ensures |r| == 4 && TimeConds(d) == r[0] + r[1] + r[2] + r[3]
  {
    [Bound(AtLeast, DefaultCreatedAtCol, d.createdAfter),
     Bound(AtMost, DefaultCreatedAtCol, d.createdBefore),
     Bound(AtLeast, DefaultUpdatedAtCol, d.updatedAfter),
     Bound(AtMost, DefaultUpdatedAtCol, d.updatedBefore)]
  }

  /** The id conditions rank 0, 1, 2, in that order. */
  lemma IdConditionsRanked(d: Descriptor)
    ensures RankedWithin(IdConds(d), 0, 2)
  {
    var p := IdPieces(d);
    var c0 := Expr(Equal, [Ident(DefaultIDCol), Text(d.id)]);
    var c1 := Expr(InList, [Ident(DefaultIDCol), In(Texts(d.ids))]);
    var c2 := Expr(NotInList, [Ident(DefaultIDCol), In(Texts(d.notInIds))]);
    assert Rank(c0) == 0 && Rank(c1) == 1 && Rank(c2) == 2;
    WhenRanked(d.id != "", c0);
    WhenRanked(|d.ids| > 0, c1);
    WhenRanked(|d.notInIds| > 0, c2);
    RankedConcat3(p[0], p[1], p[2], 0, 1, 2, 2);
  }

  /** Each id condition is present exactly when its field is set. */
  lemma IdConditionsCount(d: Descriptor, k: nat)
    ensures CountRank(IdConds(d), k)
         == (if k == 0 && d.id != "" then 1
             else if k == 1 && |d.ids| > 0 then 1
             else if k == 2 && |d.notInIds| > 0 then 1
             else 0)
  {
    var p := IdPieces(d);
    WhenCount(d.id != "", Expr(Equal, [Ident(DefaultIDCol), Text(d.id)]), k);
    WhenCount(|d.ids| > 0, Expr(InList, [Ident(DefaultIDCol), In(Texts(d.ids))]), k);
    WhenCount(|d.notInIds| > 0, Expr(NotInList, [Ident(DefaultIDCol), In(Texts(d.notInIds))]), k);
    CountRankConcat(p[0], p[1], k);
    CountRankConcat(p[0] + p[1], p[2], k);
    assert CountRank(IdConds(d), k) == CountRank(p[0], k) + CountRank(p[1], k) + CountRank(p[2], k);
  }

  /** The time bounds rank 5 to 8, in that order. */
  lemma TimeConditionsRanked(d: Descriptor)
    ensures RankedWithin(TimeConds(d), 5, 8)
  {
    var p := TimePieces(d);
    BoundRanked(AtLeast, DefaultCreatedAtCol, d.createdAfter);
    BoundRanked(AtMost, DefaultCreatedAtCol, d.createdBefore);
    BoundRanked(AtLeast, DefaultUpdatedAtCol, d.updatedAfter);
    BoundRanked(AtMost, DefaultUpdatedAtCol, d.updatedBefore);
    RankedConcat4(p[0], p[1], p[2], p[3], 5, 6, 7, 8, 8);
  }

  /** Each time bound is present exactly when its field is set. */
  lemma TimeConditionsCount(d: Descriptor, k: nat)
    ensures CountRank(TimeConds(d), k)
         == (if k == 5 && d.createdAfter.Some? then 1
             else if k == 6 && d.createdBefore.Some? then 1
             else if k == 7 && d.updatedAfter.Some? then 1
             else if k == 8 && d.updatedBefore.Some? then 1
             else 0)
  {
    var p := TimePieces(d);
    BoundCount(AtLeast, DefaultCreatedAtCol, d.createdAfter, k);
    BoundCount(AtMost, DefaultCreatedAtCol, d.createdBefore, k);
    BoundCount(AtLeast, DefaultUpdatedAtCol, d.updatedAfter, k);
    BoundCount(AtMost, DefaultUpdatedAtCol, d.updatedBefore, k);
    CountRankConcat(p[0], p[1], k);
    CountRankConcat(p[0] + p[1], p[2], k);
    CountRankConcat(p[0] + p[1] + p[2], p[3], k);
    assert CountRank(TimeConds(d), k) == CountRank(p[0], k) + CountRank(p[1], k) + CountRank(p[2], k) + CountRank(p[3], k);
  }

  /** The flag conditions rank 3 (required) and 4 (excluded). */
  lemma FlagConditionsRanked(d: Descriptor)
    ensures forall i :: 0 <= i < |d.hasFlags| ==> Rank(HasFlagConds(d.hasFlags)[i]) == 3
    ensures forall i :: 0 <= i < |d.hasNotFlags| ==> Rank(HasNotFlagConds(d.hasNotFlags)[i]) == 4
  {
  }

  /**
    The conditions of `Where` come in the fixed order id, ids, not-in-ids, required flags,
    excluded flags, created-after, created-before, updated-after, updated-before, and every
    one names its default column (none ranks 9).
  */
  lemma ConditionsRanked(d: Descriptor)
    ensures RankedWithin(Conditions(d), 0, 8)
  {
    var ids, has, hasNot, times := IdConds(d), HasFlagConds(d.hasFlags), HasNotFlagConds(d.hasNotFlags), TimeConds(d);
    IdConditionsRanked(d);
    TimeConditionsRanked(d);
    FlagConditionsRanked(d);
    RankedConcat(ids, has, 0, 2, 3, 3);
    RankedConcat(ids + has, hasNot, 0, 3, 4, 4);
    RankedConcat(ids + has + hasNot, times, 0, 4, 5, 8);
  }

  /** How many conditions of rank `k` `Where` appends. */
  lemma ConditionsCountRank(d: Descriptor, k: nat)
    ensures CountRank(Conditions(d), k)
         == (if k == 0 && d.id != "" then 1
             else if k == 1 && |d.ids| > 0 then 1
             else if k == 2 && |d.notInIds| > 0 then 1
             else if k == 3 then |d.hasFlags|
             else if k == 4 then |d.hasNotFlags|
             else if k == 5 && d.createdAfter.Some? then 1
             else if k == 6 && d.createdBefore.Some? then 1
             else if k == 7 && d.updatedAfter.Some? then 1
             else if k == 8 && d.updatedBefore.Some? then 1
             else 0)
  {
    var ids, has, hasNot, times := IdConds(d), HasFlagConds(d.hasFlags), HasNotFlagConds(d.hasNotFlags), TimeConds(d);
    IdConditionsCount(d, k);
    TimeConditionsCount(d, k);
    FlagConditionsRanked(d);
    CountRankUniform(has, 3, k);
    CountRankUniform(hasNot, 4, k);
    CountRankConcat(ids, has, k);
    CountRankConcat(ids + has, hasNot, k);
    CountRankConcat(ids + has + hasNot, times, k);
    assert CountRank(Conditions(d), k)
        == CountRank(ids, k) + CountRank(has, k) + CountRank(hasNot, k) + CountRank(times, k);
  }

  /**
    The conditions of `Where` come in the fixed order id, ids, not-in-ids, required flags,
    excluded flags, created-after, created-before, updated-after, updated-before; every one
    names its default column (no condition ranks 9); each single condition is present
    exactly when its field is set, and there is one flag condition per list entry.
  */
  lemma ConditionsInFixedOrder(d: Descriptor)
    ensures RankedWithin(Conditions(d), 0, 8)
    ensures CountRank(Conditions(d), 0) == (if d.id != "" then 1 else 0)
    ensures CountRank(Conditions(d), 1) == (if |d.ids| > 0 then 1 else 0)
    ensures CountRank(Conditions(d), 2) == (if |d.notInIds| > 0 then 1 else 0)
    ensures CountRank(Conditions(d), 3) == |d.hasFlags|
    ensures CountRank(Conditions(d), 4) == |d.hasNotFlags|
    ensures CountRank(Conditions(d), 5) == (if d.createdAfter.Some? then 1 else 0)
    ensures CountRank(Conditions(d), 6) == (if d.createdBefore.Some? then 1 else 0)
    ensures CountRank(Conditions(d), 7) == (if d.updatedAfter.Some? then 1 else 0)
    ensures CountRank(Conditions(d), 8) == (if d.updatedBefore.Some? then 1 else 0)
  {
    ConditionsRanked(d);
    ConditionsCountRank(d, 0);
    ConditionsCountRank(d, 1);
    ConditionsCountRank(d, 2);
    ConditionsCountRank(d, 3);
    ConditionsCountRank(d, 4);
    ConditionsCountRank(d, 5);
    ConditionsCountRank(d, 6);
    ConditionsCountRank(d, 7);
    ConditionsCountRank(d, 8);
  }

  /** `Where` appends one WHERE condition per flag-list entry and per set single field. */
  lemma ConditionCount(d: Descriptor, q: Query)
    ensures |Filtered(d, q).wheres| == |q.wheres| + |d.hasFlags| + |d.hasNotFlags|
      + (if d.id != "" then 1 else 0) + (if |d.ids| > 0 then 1 else 0) + (if |d.notInIds| > 0 then 1 else 0)
      + (if d.createdAfter.Some? then 1 else 0) + (if d.createdBefore.Some? then 1 else 0)
      + (if d.updatedAfter.Some? then 1 else 0) + (if d.updatedBefore.Some? then 1 else 0)
  {
    IdConditionsLength(d);
    TimeConditionsLength(d);
    assert |Conditions(d)|
        == |IdConds(d)| + |HasFlagConds(d.hasFlags)| + |HasNotFlagConds(d.hasNotFlags)| + |TimeConds(d)|;
  }

  lemma IdConditionsLength(d: Descriptor)
    ensures |IdConds(d)| == (if d.id != "" then 1 else 0) + (if |d.ids| > 0 then 1 else 0) + (if |d.notInIds| > 0 then 1 else 0)
  {
    var p := IdPieces(d);
    assert |IdConds(d)| == |p[0]| + |p[1]| + |p[2]|;
  }

  lemma TimeConditionsLength(d: Descriptor)
    ensures |TimeConds(d)| == (if d.createdAfter.Some? then 1 else 0) + (if d.createdBefore.Some? then 1 else 0)
      + (if d.updatedAfter.Some? then 1 else 0) + (if d.updatedBefore.Some? then 1 else 0)
  {
    var p := TimePieces(d);
    assert |TimeConds(d)| == |p[0]| + |p[1]| + |p[2]| + |p[3]|;
  }

  /**
    Soft-delete precedence: "only deleted" wins whatever "with deleted" says; "with
    deleted" alone selects all rows; neither leaves the visibility alone. At most one
    visibility call is made.
  */
  lemma OnlyDeletedWins(d: Descriptor, q: Query)
    ensures d.onlyDeleted ==> Filtered(d, q).mods == q.mods + [WhereDeleted]
    ensures d.onlyDeleted ==> Filtered(d.(withDeleted := true), q) == Filtered(d.(withDeleted := false), q)
    ensures !d.onlyDeleted && d.withDeleted ==> Filtered(d, q).mods == q.mods + [WhereAllWithDeleted]
    ensures !d.onlyDeleted && !d.withDeleted ==> Filtered(d, q).mods == q.mods
    ensures |Filtered(d, q).mods| <= |q.mods| + 1
  {
  }

  /** The ids of `IDs: ["1", "2", "3"]` become one `IN` condition on the default id column. */
  lemma IdsExample(q: Query)
    ensures var d := Descriptor("", ["1", "2", "3"], [], [], [], false, false, None, None, "", "", "",
                                None, None, None, None, [], [], 0, false, map[]);
      Filtered(d, q) == q.Where(InList, [Ident("id"), In([Text("1"), Text("2"), Text("3")])])
  {
    var d := Descriptor("", ["1", "2", "3"], [], [], [], false, false, None, None, "", "", "",
                        None, None, None, None, [], [], 0, false, map[]);
    assert Texts(d.ids) == [Text("1"), Text("2"), Text("3")];
    assert Conditions(d) == [Expr(InList, [Ident("id"), In([Text("1"), Text("2"), Text("3")])])];
  }

  // ---------------------------------------------------------------------------
  // Properties of `Select`

  /** The sort direction and the column can be read back from an ordering expression. */
  lemma OrderDirectionRecoverable(a: string, b: string)
    ensures OrderAsc(a) == OrderAsc(b) ==> a == b
    ensures OrderDesc(a) == OrderDesc(b) ==> a == b
    ensures OrderAsc(a) != OrderDesc(b)
  {
    if OrderAsc(a) == OrderAsc(b) {
      assert a == OrderAsc(a)[..|a|] && b == OrderAsc(b)[..|b|];
    }
    if OrderDesc(a) == OrderDesc(b) {
      assert a == OrderDesc(a)[..|a|] && b == OrderDesc(b)[..|b|];
    }
    var asc, desc := OrderAsc(a), OrderDesc(b);
    assert asc[|asc| - 4] == ' ' && desc[|desc| - 4] == 'd';
  }

  /**
    `Select` makes an ordering call exactly when the sort key is in the map, and every
    ordering call it makes names that key's column and the requested direction.
  */
  lemma SelectOrdering(d: Descriptor)
    ensures (exists m :: m in SelectMods(d) && m.Order?) <==> d.sortBy in d.order
    ensures d.sortBy in d.order && !d.sortDesc ==> Order(OrderAsc(d.order[d.sortBy])) in SelectMods(d)
    ensures d.sortBy in d.order && d.sortDesc ==> Order(OrderDesc(d.order[d.sortBy])) in SelectMods(d)
    ensures forall m :: m in SelectMods(d) && m.Order? ==>
      d.sortBy in d.order && m == Order(if d.sortDesc then OrderDesc(d.order[d.sortBy]) else OrderAsc(d.order[d.sortBy]))
  {
    var pre := ProjectionMods(d) + PaginationMods(d);
    assert forall m :: m in pre ==> !m.Order?;
    assert SelectMods(d) == pre + OrderMods(d);
    if d.sortBy in d.order {
      assert SelectMods(d)[|pre|] == OrderMods(d)[0];
    } else {
      assert SelectMods(d) == pre + [];
    }
  }

  /** Projection calls are made exactly for non-empty column lists, and each names its whole list. */
  lemma SelectProjection(d: Descriptor)
    ensures Column(d.selectColumns) in SelectMods(d) <==> |d.selectColumns| > 0
    ensures ExcludeColumn(d.excludeColumns) in SelectMods(d) <==> |d.excludeColumns| > 0
    ensures forall m :: m in SelectMods(d) && m.Column? ==> m == Column(d.selectColumns) && |d.selectColumns| > 0
    ensures forall m :: m in SelectMods(d) && m.ExcludeColumn? ==> m == ExcludeColumn(d.excludeColumns) && |d.excludeColumns| > 0
  {
    var rest := PaginationMods(d) + OrderMods(d);
    assert forall m :: m in rest ==> !m.Column? && !m.ExcludeColumn?;
    assert SelectMods(d) == ProjectionMods(d) + rest;
  }

  /** Pagination calls are made exactly for a set limit and a set offset, and each carries its value. */
  lemma SelectPagination(d: Descriptor)
    ensures (forall m :: m in SelectMods(d) ==> !m.Limit?) <==> d.limit.None?
    ensures (forall m :: m in SelectMods(d) ==> !m.Offset?) <==> d.offset.None?
    ensures d.limit.Some? ==> Limit(d.limit.value) in SelectMods(d)
    ensures d.offset.Some? ==> Offset(d.offset.value) in SelectMods(d)
    ensures forall m :: m in SelectMods(d) && m.Limit? ==> d.limit == Some(m.n)
    ensures forall m :: m in SelectMods(d) && m.Offset? ==> d.offset == Some(m.n)
  {
    var proj, page, ord := ProjectionMods(d), PaginationMods(d), OrderMods(d);
    assert forall m :: m in proj ==> !m.Limit? && !m.Offset?;
    assert forall m :: m in ord ==> !m.Limit? && !m.Offset?;
    assert SelectMods(d) == proj + page + ord;
    assert forall m :: m in SelectMods(d) <==> m in proj || m in page || m in ord;
    if d.limit.Some? {
      assert Limit(d.limit.value) in page;
    }
    if d.offset.Some? {
      assert Offset(d.offset.value) in page;
    }
  }
}
