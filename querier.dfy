/**
  Statement factories that run inside the ambient transaction: each builds its statement
  on the context's transaction when the context carries one, and on the stored database
  otherwise.
*/
module Querying {
  import opened Wrappers
  import opened Transactions

  /** The four statement builders. */
  datatype Kind = Select | Insert | Update | Delete

  /** What a statement is built on: a transaction handle, or the database client. */
  datatype Source = OnTx(tx: TxPtr) | OnDB(db: nat)

  /** A freshly built, still empty statement. */
  datatype Statement = Statement(kind: Kind, source: Source)

  /** The source every statement built under `ctx` uses: the context's transaction, else `db`. */
  function SourceFor(ctx: Context, db: nat): (s: Source)
    ensures s.OnTx? <==> TxFromContext(ctx) != NilTx
    ensures s.OnTx? ==> s.tx == TxFromContext(ctx)
    ensures s.OnDB? ==> s.db == db
  {
    var tx := TxFromContext(ctx);
    if tx != NilTx then OnTx(tx) else OnDB(db)
  }

  /** The querier: the database client, stored once and never changed. */
  datatype Querier = Querier(db: nat)
  {
    function NewSelectQuery(ctx: Context): (s: Statement)
      ensures s.kind == Select && s.source == SourceFor(ctx, db)
    {
      Statement(Select, SourceFor(ctx, db))
    }

    function NewInsertQuery(ctx: Context): (s: Statement)
      ensures s.kind == Insert && s.source == SourceFor(ctx, db)
    {
      Statement(Insert, SourceFor(ctx, db))
    }

    function NewUpdateQuery(ctx: Context): (s: Statement)
      ensures s.kind == Update && s.source == SourceFor(ctx, db)
    {
      Statement(Update, SourceFor(ctx, db))
    }

    function NewDeleteQuery(ctx: Context): (s: Statement)
      ensures s.kind == Delete && s.source == SourceFor(ctx, db)
    {
      Statement(Delete, SourceFor(ctx, db))
    }

    /** The statement builder for `kind`. */
    function Build(kind: Kind, ctx: Context): Statement
    {
      match kind
      case Select => NewSelectQuery(ctx)
      case Insert => NewInsertQuery(ctx)
      case Update => NewUpdateQuery(ctx)
      case Delete => NewDeleteQuery(ctx)
    }
  }

  function NewQuerier(db: nat): (q: Querier)
    ensures q.db == db
  {
    Querier(db)
  }

  /**
    All four builders agree on the source, and it is the transaction a context derived by
    `TxToContext` carries, or the database for the background context, for a nil handle
    and for a slot holding a value of another type.
  */
  lemma BuildersChooseTxElseDB(db: nat, ctx: Option<Context>, id: nat, n: int)
    ensures forall kind, c :: NewQuerier(db).Build(kind, c).kind == kind
    ensures forall kind, c :: NewQuerier(db).Build(kind, c).source == NewQuerier(db).NewSelectQuery(c).source
    ensures NewQuerier(db).NewSelectQuery(TxToContext(ctx, Ptr(id))).source == OnTx(Ptr(id))
    ensures NewQuerier(db).NewSelectQuery(TxToContext(ctx, NilTx)).source == OnDB(db)
    ensures NewQuerier(db).NewSelectQuery(Background).source == OnDB(db)
    ensures NewQuerier(db).NewSelectQuery(WithValue(Background, TxKey, OtherValue(n))).source == OnDB(db)
  {
    forall kind, c ensures NewQuerier(db).Build(kind, c).kind == kind
      && NewQuerier(db).Build(kind, c).source == NewQuerier(db).NewSelectQuery(c).source
    {
    }
  }

  /**
    Inside `InTx`, whether in the root frame or a nested one, every statement `fn` builds
    from the context it receives is built on the one transaction of the whole call.
  */
  lemma StatementsInsideInTxUseItsTransaction(q: Querier, ctx: Context, next: nat, kind: Kind)
    ensures var tx := if TxFromContext(ctx) != NilTx then TxFromContext(ctx) else Ptr(next);
      q.Build(kind, TxToContext(Some(ctx), tx)).source == OnTx(tx)
    ensures TxFromContext(ctx) != NilTx ==> q.Build(kind, ctx).source == OnTx(TxFromContext(ctx))
  {
    assert q.Build(kind, ctx).source == SourceFor(ctx, q.db);
    var tx := if TxFromContext(ctx) != NilTx then TxFromContext(ctx) else Ptr(next);
    assert q.Build(kind, TxToContext(Some(ctx), tx)).source == SourceFor(TxToContext(Some(ctx), tx), q.db);
  }
}
