/** delete.go: the DELETE builder. Its setters replace or extend its lists;
    Build writes the clauses, each under its condition, and compiles the text
    with the builder's own registry. */
module Delete {
  import opened Text
  import opened Args
  import opened ArgsLemmas
  import opened Clauses

  /** The fields of a DeleteBuilder other than its registry. No method sets
      `returning`, so it keeps the empty list newDeleteBuilder leaves. */
  datatype DeleteFields = DeleteFields(
    table: string,
    order: string,
    returning: seq<string>,
    whereExprs: seq<string>,
    orderByCols: seq<string>,
    limit: int)

  /** The fields newDeleteBuilder sets: no LIMIT (-1), everything else empty. */
  const Fresh := DeleteFields("", "", [], [], [], -1)

  /** The text Build writes before compiling. */
  function Template(f: DeleteFields): string
  {
    "DELETE FROM " + f.table
    + ListClause(" WHERE ", f.whereExprs, " AND ")
    + OrderClause(f.orderByCols, f.order)
    + NumberClause(" LIMIT ", f.limit)
    + ListClause(" RETURNING ", f.returning, ", ")
  }

  /** DeleteBuilder; `args` is the registry its placeholders are staged in. */
  class DeleteBuilder {
    const args: Args
    var table: string
    var order: string
    var returning: seq<string>
    var whereExprs: seq<string>
    var orderByCols: seq<string>
    var limit: int

    function Fields(): DeleteFields
      reads this
    {
      DeleteFields(table, order, returning, whereExprs, orderByCols, limit)
    }

    /** The builder as a Builder value, as the Builder interface sees it:
        its rendered text together with its registry. */
    function AsBuilder(): Builder
      reads this, args
    {
      Compiled(Template(Fields()), args.Snapshot())
    }

    /** newDeleteBuilder: a fresh registry and no LIMIT. */
    constructor ()
      ensures Fields() == Fresh
      ensures fresh(args) && args.Snapshot() == Registry([], map[], map[], false)
    {
      args := new Args();
      table, order := "", "";
      returning, whereExprs, orderByCols := [], [], [];
      limit := -1;
    }

    method DeleteFrom(t: string)
      modifies this
      ensures Fields() == old(Fields()).(table := t)
    {
      table := t;
    }

    /** Where appends to the WHERE expressions. */
    method Where(andExpr: seq<string>)
      modifies this
      ensures Fields() == old(Fields()).(whereExprs := old(whereExprs) + andExpr)
    {
      whereExprs := whereExprs + andExpr;
    }

    /** OrderBy replaces the ORDER BY columns. */
    method OrderBy(col: seq<string>)
      modifies this
      ensures Fields() == old(Fields()).(orderByCols := col)
    {
      orderByCols := col;
    }

    method Asc()
      modifies this
      ensures Fields() == old(Fields()).(order := "ASC")
    {
      order := "ASC";
    }

    method Desc()
      modifies this
      ensures Fields() == old(Fields()).(order := "DESC")
    {
      order := "DESC";
    }

    method Limit(n: int)
      modifies this
      ensures Fields() == old(Fields()).(limit := n)
    {
      limit := n;
    }

    /** String: the text of Build with no initial values. */
    method String() returns (s: string)
      ensures s == CompileOut(args.Snapshot(), Template(Fields()), []).sql
    {
      var values;
      s, values := Build([]);
    }

    /** The writing part of Build. */
    method Render() returns (buf: string)
      ensures buf == Template(Fields())
    {
      buf := "DELETE FROM ";
      buf := buf + table;
      buf := WriteList(buf, " WHERE ", whereExprs, " AND ");
      buf := WriteOrder(buf, orderByCols, order);
      buf := WriteNumber(buf, " LIMIT ", limit);
      buf := WriteList(buf, " RETURNING ", returning, ", ");
    }

    /** Build: the rendered text compiled with the builder's registry, after
        the initial values. */
    method Build(initial: seq<Arg>) returns (sql: string, values: seq<Arg>)
      ensures Output(sql, values) == CompileOut(args.Snapshot(), Template(Fields()), initial)
      ensures Output(sql, values) == BuildOut(AsBuilder(), initial)
    {
      var buf := Render();
      sql, values := args.Compile(buf, initial);
    }
  }

  /** The order is written only after ORDER BY columns. */
  lemma OrderNeedsColumns(f: DeleteFields, order: string)
    requires f.orderByCols == []
    ensures Template(f.(order := order)) == Template(f)
  {
    assert OrderClause(f.orderByCols, order) == "" == OrderClause(f.orderByCols, f.order);
  }

  /** The text holds a `$` only when one of the fields does. */
  lemma TemplateNoSigil(f: DeleteFields)
    requires '$' !in f.table && '$' !in f.order
    requires NoSigils(f.returning) && NoSigils(f.whereExprs) && NoSigils(f.orderByCols)
    ensures '$' !in Template(f)
  {
    ListClauseNoSigil(" WHERE ", f.whereExprs, " AND ");
    OrderClauseNoSigil(f.orderByCols, f.order);
    NumberClauseNoSigil(" LIMIT ", f.limit);
    ListClauseNoSigil(" RETURNING ", f.returning, ", ");
  }

  /** DeleteFrom(table).Where(conds).Limit(n): WHERE with the conditions
      joined by AND, then LIMIT n. */
  lemma FilteredTemplate(table: string, conds: seq<string>, n: nat)
    requires conds != []
    ensures Template(Fresh.(table := table, whereExprs := conds, limit := n))
         == "DELETE FROM " + table + " WHERE " + Join(conds, " AND ") + " LIMIT " + Decimal(n)
  {
    FilteredParts("DELETE FROM " + table, " WHERE " + Join(conds, " AND "), " LIMIT " + Decimal(n));
  }

  lemma FilteredParts(head: string, where: string, limit: string)
    ensures head + where + "" + limit + "" == head + where + limit
  {
  }

  /** The same builder run through its setters and Build: with no `$` in the
      arguments, the text is written as it is and there are no values. */
  method Filtered(table: string, conds: seq<string>, n: nat) returns (sql: string, values: seq<Arg>)
    requires conds != [] && '$' !in table && NoSigils(conds)
    ensures sql == "DELETE FROM " + table + " WHERE " + Join(conds, " AND ") + " LIMIT " + Decimal(n)
    ensures values == []
  {
    var db := new DeleteBuilder();
    db.DeleteFrom(table);
    db.Where(conds);
    db.Limit(n);
    var f := db.Fields();
    assert f == Fresh.(table := table, whereExprs := conds, limit := n);
    FilteredTemplate(table, conds, n);
    TemplateNoSigil(f);
    CompileNoSigil(db.args.Snapshot(), Template(f), []);
    sql, values := db.Build([]);
  }
}
