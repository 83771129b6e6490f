/** Optional values: Go's nil pointers and missing map entries. */
module Wrappers {
  datatype Option<+T> = None | Some(value: T)
}

/**
  The query builder that selectors act on, kept abstract: instead of rendering SQL, a query
  records, in call order, the WHERE conditions it was given and every other builder call
  (distinct-on, ordering, projection, pagination, soft-delete visibility).
  Selectors and the filter descriptor only ever append to these two logs.
*/
module Builder {

  /** An argument bound to a `?` placeholder of a condition template. */
  datatype Arg =
    | Ident(name: string)     // an identifier, quoted by the builder
    | Text(s: string)         // a string value
    | Num(n: int)             // an integer value
    | Time(ms: int)           // a timestamp, as milliseconds since the Unix epoch
    | In(items: seq<Arg>)     // a list expanded into `(?, ?, ...)`

  /**
    A condition template. The library's fixed templates are named; `Text` gives the
    exact template string each one stands for. Templates assembled at run time (the
    JSONB path expressions) are `Raw`.
  */
  datatype Template =
    | Equal | NotEqual | IsNull | IsNotNull | InList | NotInList
    | FlagSet | FlagClear | AtLeast | AtMost | ILike
    | JsonbFieldEqual | JsonbArrayContains
    | Raw(text: string)
  {
    function Text(): string
    {
      match this
      case Equal => "?TableAlias.? = ?"
      case NotEqual => "?TableAlias.? != ?"
      case IsNull => "?TableAlias.? is null"
      case IsNotNull => "?TableAlias.? is not null"
      case InList => "?TableAlias.? IN (?)"
      case NotInList => "?TableAlias.? NOT IN (?)"
      case FlagSet => "?TableAlias.? & ? = ?"
      case FlagClear => "?TableAlias.? & ? = 0"
      case AtLeast => "?TableAlias.? >= ?"
      case AtMost => "?TableAlias.? <= ?"
      case ILike => "?TableAlias.? ILIKE ?"
      case JsonbFieldEqual => "?TableAlias.?->>? = ?"
      case JsonbArrayContains => "?TableAlias.? -> ? @> jsonb_build_array(jsonb_build_object(?::text, ?::text))"
      case Raw(text) => text
    }
  }

  /** One entry of the WHERE list. */
  datatype Cond =
    | Expr(template: Template, args: seq<Arg>) // a template with bound arguments
    | Group(sep: string, conds: seq<Cond>)  // a parenthesised group, linked to the conditions before it by `sep`

  /** A builder call other than a WHERE condition. */
  datatype Modifier =
    | DistinctOn(col: string)
    | OrderExpr(expr: string)
    | Order(expr: string)
    | Column(cols: seq<string>)
    | ExcludeColumn(cols: seq<string>)
    | Limit(n: int)
    | Offset(n: int)
    | WhereDeleted            // only soft-deleted rows
    | WhereAllWithDeleted     // live and soft-deleted rows

  datatype Query = Query(wheres: seq<Cond>, mods: seq<Modifier>) {

    /** The builder's `Where(template, args...)`: appends one condition. */
    function Where(template: Template, args: seq<Arg>): (r: Query)
      ensures r.wheres == wheres + [Expr(template, args)] && r.mods == mods
    {
      Query(wheres + [Expr(template, args)], mods)
    }

    /** Any other builder call: appends one modifier. */
    function With(m: Modifier): (r: Query)
      ensures r.wheres == wheres && r.mods == mods + [m]
    {
      Query(wheres, mods + [m])
    }

    /** This query followed by everything `more` records. */
    function Append(more: Query): (r: Query)
      ensures r.wheres == wheres + more.wheres && r.mods == mods + more.mods
    {
      Query(wheres + more.wheres, mods + more.mods)
    }
  }

  /** A query with nothing recorded yet. */
  const Empty: Query := Query([], [])

  lemma AppendAssociative(a: Query, b: Query, c: Query)
    ensures a.Append(b).Append(c) == a.Append(b.Append(c))
  {
    assert a.wheres + b.wheres + c.wheres == a.wheres + (b.wheres + c.wheres);
    assert a.mods + b.mods + c.mods == a.mods + (b.mods + c.mods);
  }

  lemma AppendEmpty(a: Query)
    ensures a.Append(Empty) == a && Empty.Append(a) == a
  {
    assert a.wheres + [] == a.wheres && a.mods + [] == a.mods;
  }

  /** Regrouping a concatenation (the solver does not always do this step unaided). */
  lemma SeqAssoc<T>(a: seq<T>, b: seq<T>, c: seq<T>)
    ensures a + b + c == a + (b + c)
  {
  }

  lemma SeqAssoc3<T>(a: seq<T>, b: seq<T>, c: seq<T>, e: seq<T>)
    ensures a + b + c + e == a + (b + c + e)
  {
  }
}
