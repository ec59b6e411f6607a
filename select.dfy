/** select.go: the SELECT builder. Its setters replace or extend its lists;
    Build writes the clauses, each under its condition, and compiles the text
    with the builder's own registry. */
module Select {
  import opened Text
  import opened Args
  import opened ArgsLemmas
  import opened Clauses

  /** The fields of a SelectBuilder other than its registry. */
  datatype SelectFields = SelectFields(
    forWhat: string,
    order: string,
    havingExprs: seq<string>,
    joinTables: seq<string>,
    joinExprs: seq<seq<string>>,
    whereExprs: seq<string>,
    joinOptions: seq<string>,
    groupByCols: seq<string>,
    orderByCols: seq<string>,
    selectCols: seq<string>,
    tables: seq<string>,
    limit: int,
    offset: int,
    distinct: bool)
  {
    /** One option and one expression list per joined table. */
    predicate Valid()
    {
      |joinOptions| == |joinTables| == |joinExprs|
    }
  }

  /** The fields newSelectBuilder sets: LIMIT and OFFSET unset (-1), all lists empty. */
  const Fresh := SelectFields("", "", [], [], [], [], [], [], [], [], [], -1, -1, false)

  /** One JOIN: the option only when one is given, the table, and ON with the
      expressions joined by AND only when there are expressions. */
  function JoinClause(option: string, table: string, exprs: seq<string>): (s: string)
    ensures option == "" && exprs == [] ==> s == " JOIN " + table
    ensures option != "" ==> |s| > |option| && s[..|option| + 1] == " " + option
  {
    (if option != "" then " " + option else "") + " JOIN " + table + ListClause(" ON ", exprs, " AND ")
  }

  /** The first n JOIN clauses, in the order they were added. */
  function Joins(options: seq<string>, tables: seq<string>, exprs: seq<seq<string>>, n: nat): string
    requires |options| == |tables| == |exprs| && n <= |tables|
  {
    if n == 0 then ""
    else Joins(options, tables, exprs, n - 1) + JoinClause(options[n - 1], tables[n - 1], exprs[n - 1])
  }

  /** Appending one more join after buf. */
  lemma JoinsSnoc(b: string, buf: string, options: seq<string>, tables: seq<string>, exprs: seq<seq<string>>,
                  i: nat, join: string)
    requires |options| == |tables| == |exprs| && i < |tables|
    requires b == buf + Joins(options, tables, exprs, i)
    requires join == JoinClause(options[i], tables[i], exprs[i])
    ensures b + join == buf + Joins(options, tables, exprs, i + 1)
  {
  }

  /** The text of one join, as the loop of Build writes it. */
  method WriteJoin(option: string, table: string, exprs: seq<string>) returns (s: string)
    ensures s == JoinClause(option, table, exprs)
  {
    s := "";
    if option != "" {
      s := " " + option;
    }
    s := s + " JOIN " + table;
    s := WriteList(s, " ON ", exprs, " AND ");
  }

  /** One turn of the loop over joins: join i after the first i. */
  method AppendJoin(b: string, ghost buf: string, options: seq<string>, tables: seq<string>, exprs: seq<seq<string>>,
                    i: nat) returns (b1: string)
    requires |options| == |tables| == |exprs| && i < |tables|
    requires b == buf + Joins(options, tables, exprs, i)
    ensures b1 == buf + Joins(options, tables, exprs, i + 1)
  {
    var join := WriteJoin(options[i], tables[i], exprs[i]);
    JoinsSnoc(b, buf, options, tables, exprs, i, join);
    b1 := b + join;
  }

  /** The text Build writes before compiling. */
  function Template(f: SelectFields): string
    requires f.Valid()
  {
    "SELECT " + (if f.distinct then "DISTINCT " else "") + Join(f.selectCols, ", ")
    + " FROM " + Join(f.tables, ", ")
    + Joins(f.joinOptions, f.joinTables, f.joinExprs, |f.joinTables|)
    + ListClause(" WHERE ", f.whereExprs, " AND ")
    + GroupClause(f.groupByCols, f.havingExprs)
    + OrderClause(f.orderByCols, f.order)
    + NumberClause(" LIMIT ", f.limit)
    + NumberClause(" OFFSET ", f.offset)
    + TextClause(" FOR ", f.forWhat)
  }

  /** SelectBuilder; `args` is the registry its placeholders are staged in. */
  class SelectBuilder {
    const args: Args
    var forWhat: string
    var order: string
    var havingExprs: seq<string>
    var joinTables: seq<string>
    var joinExprs: seq<seq<string>>
    var whereExprs: seq<string>
    var joinOptions: seq<string>
    var groupByCols: seq<string>
    var orderByCols: seq<string>
    var selectCols: seq<string>
    var tables: seq<string>
    var limit: int
    var offset: int
    var distinct: bool

    function Fields(): SelectFields
      reads this
    {
      SelectFields(forWhat, order, havingExprs, joinTables, joinExprs, whereExprs, joinOptions,
        groupByCols, orderByCols, selectCols, tables, limit, offset, distinct)
    }

    /** The builder as a Builder value, as the Builder interface sees it:
        its rendered text together with its registry. */
    function AsBuilder(): Builder
      requires Fields().Valid()
      reads this, args
    {
      Compiled(Template(Fields()), args.Snapshot())
    }

    /** newSelectBuilder: a fresh registry, no LIMIT and no OFFSET. */
    constructor ()
      ensures Fields() == Fresh
      ensures fresh(args) && args.Snapshot() == Registry([], map[], map[], false)
    {
      args := new Args();
      forWhat, order := "", "";
      havingExprs, joinTables, joinExprs, whereExprs := [], [], [], [];
      joinOptions, groupByCols, orderByCols, selectCols, tables := [], [], [], [], [];
      limit, offset, distinct := -1, -1, false;
    }

    /** Select replaces the selected columns. */
    method Select(col: seq<string>)
      modifies this
      ensures Fields() == old(Fields()).(selectCols := col)
    {
      selectCols := col;
    }

    /** From replaces the tables. */
    method From(table: seq<string>)
      modifies this
      ensures Fields() == old(Fields()).(tables := table)
    {
      tables := table;
    }

    /** Where appends to the WHERE expressions. */
    method Where(andExpr: seq<string>)
      modifies this
      ensures Fields() == old(Fields()).(whereExprs := old(whereExprs) + andExpr)
    {
      whereExprs := whereExprs + andExpr;
    }

    method Limit(n: int)
      modifies this
      ensures Fields() == old(Fields()).(limit := n)
    {
      limit := n;
    }

    method Offset(n: int)
      modifies this
      ensures Fields() == old(Fields()).(offset := n)
    {
      offset := n;
    }

    /** Having appends to the HAVING expressions. */
    method Having(andExpr: seq<string>)
      modifies this
      ensures Fields() == old(Fields()).(havingExprs := old(havingExprs) + andExpr)
    {
      havingExprs := havingExprs + andExpr;
    }

    /** GroupBy appends to the GROUP BY columns. */
    method GroupBy(col: seq<string>)
      modifies this
      ensures Fields() == old(Fields()).(groupByCols := old(groupByCols) + col)
    {
      groupByCols := groupByCols + col;
    }

    /** OrderBy sets the order and appends to the ORDER BY columns. */
    method OrderBy(ord: string, col: seq<string>)
      modifies this
      ensures Fields() == old(Fields()).(order := ord, orderByCols := old(orderByCols) + col)
    {
      order := ord;
      orderByCols := orderByCols + col;
    }

    method OrderByAsc(col: seq<string>)
      modifies this
      ensures Fields() == old(Fields()).(order := "ASC", orderByCols := old(orderByCols) + col)
    {
      order := "ASC";
      orderByCols := orderByCols + col;
    }

    method OrderByDesc(col: seq<string>)
      modifies this
      ensures Fields() == old(Fields()).(order := "DESC", orderByCols := old(orderByCols) + col)
    {
      order := "DESC";
      orderByCols := orderByCols + col;
    }

    /** JoinWithOption adds one entry to each of the three join lists. */
    method JoinWithOption(option: string, table: string, onExpr: seq<string>)
      modifies this
      ensures Fields() == old(Fields()).(joinOptions := old(joinOptions) + [option],
        joinTables := old(joinTables) + [table], joinExprs := old(joinExprs) + [onExpr])
      ensures old(Fields()).Valid() ==> Fields().Valid()
    {
      joinOptions := joinOptions + [option];
      joinTables := joinTables + [table];
      joinExprs := joinExprs + [onExpr];
    }

    /** Join is JoinWithOption with no option. */
    method Join(table: string, onExpr: seq<string>)
      modifies this
      ensures Fields() == old(Fields()).(joinOptions := old(joinOptions) + [""],
        joinTables := old(joinTables) + [table], joinExprs := old(joinExprs) + [onExpr])
    {
      JoinWithOption("", table, onExpr);
    }

    /** LeftJoin is JoinWithOption with the LEFT option. */
    method LeftJoin(table: string, onExpr: seq<string>)
      modifies this
      ensures Fields() == old(Fields()).(joinOptions := old(joinOptions) + ["LEFT"],
        joinTables := old(joinTables) + [table], joinExprs := old(joinExprs) + [onExpr])
    {
      JoinWithOption("LEFT", table, onExpr);
    }

    /** The writing part of Build: each clause under its condition, the joins
        in a loop. */
    method Render() returns (buf: string)
      requires Fields().Valid()
      ensures buf == Template(Fields())
    {
      buf := "SELECT ";
      if distinct {
        buf := buf + "DISTINCT ";
      } else {
        assert buf == "SELECT " + "";
      }
      buf := buf + Text.Join(selectCols, ", ");
      buf := buf + " FROM ";
      buf := buf + Text.Join(tables, ", ");
      buf := WriteJoins(buf);
      buf := WriteList(buf, " WHERE ", whereExprs, " AND ");
      buf := WriteGroup(buf, groupByCols, havingExprs);
      buf := WriteOrder(buf, orderByCols, order);
      buf := WriteNumber(buf, " LIMIT ", limit);
      buf := WriteNumber(buf, " OFFSET ", offset);
      buf := WriteText(buf, " FOR ", forWhat);
    }

    /** Writes the joins after buf, one per joined table, in the order they
        were added. */
    method WriteJoins(buf: string) returns (b: string)
      requires Fields().Valid()
      ensures b == buf + Joins(joinOptions, joinTables, joinExprs, |joinTables|)
    {
      var options, tables, exprs := joinOptions, joinTables, joinExprs;
      b := buf;
      var i := 0;
      while i < |tables|
        invariant 0 <= i <= |tables|
        invariant b == buf + Joins(options, tables, exprs, i)
      {
        b := AppendJoin(b, buf, options, tables, exprs, i);
        i := i + 1;
      }
    }

    /** Build: the rendered text compiled with the builder's registry, after
        the initial values. */
    method Build(initial: seq<Arg>) returns (sql: string, values: seq<Arg>)
      requires Fields().Valid()
      ensures Output(sql, values) == CompileOut(args.Snapshot(), Template(Fields()), initial)
      ensures Output(sql, values) == BuildOut(AsBuilder(), initial)
    {
      var buf := Render();
      sql, values := args.Compile(buf, initial);
    }
  }

  /** A fresh builder given only columns and tables selects them with no
      LIMIT and no OFFSET. */
  lemma FreshTemplate(cols: seq<string>, tables: seq<string>)
    ensures Template(Fresh.(selectCols := cols, tables := tables))
         == "SELECT " + Join(cols, ", ") + " FROM " + Join(tables, ", ")
  {
    var f := Fresh.(selectCols := cols, tables := tables);
    var head := "SELECT " + Join(cols, ", ") + " FROM " + Join(tables, ", ");
    assert ("SELECT " + "") + Join(cols, ", ") == "SELECT " + Join(cols, ", ");
    assert Joins(f.joinOptions, f.joinTables, f.joinExprs, 0) == "";
    assert NumberClause(" LIMIT ", -1) == "" && NumberClause(" OFFSET ", -1) == "";
    assert head + "" + "" + "" + "" + "" + "" + "" == head;
  }

  /** HAVING is written only inside GROUP BY: without GROUP BY columns the
      HAVING expressions do not change the text. */
  lemma HavingNeedsGroupBy(f: SelectFields, having: seq<string>)
    requires f.Valid() && f.groupByCols == []
    ensures Template(f.(havingExprs := having)) == Template(f)
  {
    assert GroupClause(f.groupByCols, having) == "" == GroupClause(f.groupByCols, f.havingExprs);
  }

  /** The order is written only after ORDER BY columns. */
  lemma OrderNeedsColumns(f: SelectFields, order: string)
    requires f.Valid() && f.orderByCols == []
    ensures Template(f.(order := order)) == Template(f)
  {
    assert OrderClause(f.orderByCols, order) == "" == OrderClause(f.orderByCols, f.order);
  }

  /** Fields none of which brings a `$` of its own. */
  predicate NoSigilFields(f: SelectFields)
  {
    && NoSigils(f.selectCols) && NoSigils(f.tables) && NoSigils(f.joinOptions) && NoSigils(f.joinTables)
    && (forall i :: 0 <= i < |f.joinExprs| ==> NoSigils(f.joinExprs[i]))
    && NoSigils(f.whereExprs) && NoSigils(f.groupByCols) && NoSigils(f.havingExprs)
    && NoSigils(f.orderByCols) && '$' !in f.order && '$' !in f.forWhat
  }

  lemma JoinsNoSigil(options: seq<string>, tables: seq<string>, exprs: seq<seq<string>>, n: nat)
    requires |options| == |tables| == |exprs| && n <= |tables|
    requires forall i :: 0 <= i < n ==> '$' !in JoinClause(options[i], tables[i], exprs[i])
    ensures '$' !in Joins(options, tables, exprs, n)
  {
    var k := 0;
    while k < n
      invariant k <= n
      invariant '$' !in Joins(options, tables, exprs, k)
    {
      JoinsStepNoSigil(options, tables, exprs, k + 1);
      k := k + 1;
    }
  }

  lemma JoinsStepNoSigil(options: seq<string>, tables: seq<string>, exprs: seq<seq<string>>, n: nat)
    requires |options| == |tables| == |exprs| && 0 < n <= |tables|
    requires '$' !in Joins(options, tables, exprs, n - 1)
    requires '$' !in JoinClause(options[n - 1], tables[n - 1], exprs[n - 1])
    ensures '$' !in Joins(options, tables, exprs, n)
  {
  }

  lemma JoinClauseNoSigil(option: string, table: string, exprs: seq<string>)
    requires '$' !in option && '$' !in table && NoSigils(exprs)
    ensures '$' !in JoinClause(option, table, exprs)
  {
    ListClauseNoSigil(" ON ", exprs, " AND ");
  }

  /** The text the builder writes holds a `$` only when one of its fields does. */
  lemma TemplateNoSigil(f: SelectFields)
    requires f.Valid() && NoSigilFields(f)
    ensures '$' !in Template(f)
  {
    var head := "SELECT " + (if f.distinct then "DISTINCT " else "") + Join(f.selectCols, ", ")
      + " FROM " + Join(f.tables, ", ");
    HeadNoSigil(f.distinct, f.selectCols, f.tables);
    forall i | 0 <= i < |f.joinTables|
      ensures '$' !in JoinClause(f.joinOptions[i], f.joinTables[i], f.joinExprs[i])
    {
      JoinClauseNoSigil(f.joinOptions[i], f.joinTables[i], f.joinExprs[i]);
    }
    JoinsNoSigil(f.joinOptions, f.joinTables, f.joinExprs, |f.joinTables|);
    var where := ListClause(" WHERE ", f.whereExprs, " AND ");
    var group := GroupClause(f.groupByCols, f.havingExprs);
    var order := OrderClause(f.orderByCols, f.order);
    FiltersNoSigil(f.whereExprs, f.groupByCols, f.havingExprs, f.orderByCols, f.order);
    var limit := NumberClause(" LIMIT ", f.limit);
    var offset := NumberClause(" OFFSET ", f.offset);
    var forWhat := TextClause(" FOR ", f.forWhat);
    BoundsNoSigil(f.limit, f.offset, f.forWhat);
    SevenNoSigil(head, Joins(f.joinOptions, f.joinTables, f.joinExprs, |f.joinTables|),
      where, group, order, limit, offset, forWhat);
  }

  lemma HeadNoSigil(distinct: bool, cols: seq<string>, tables: seq<string>)
    requires NoSigils(cols) && NoSigils(tables)
    ensures '$' !in "SELECT " + (if distinct then "DISTINCT " else "") + Join(cols, ", ") + " FROM " + Join(tables, ", ")
  {
    JoinNoSigil(cols, ", ");
    JoinNoSigil(tables, ", ");
  }

  lemma FiltersNoSigil(where: seq<string>, groupBy: seq<string>, having: seq<string>, orderBy: seq<string>, order: string)
    requires NoSigils(where) && NoSigils(groupBy) && NoSigils(having) && NoSigils(orderBy) && '$' !in order
    ensures '$' !in ListClause(" WHERE ", where, " AND ")
    ensures '$' !in GroupClause(groupBy, having) && '$' !in OrderClause(orderBy, order)
  {
    ListClauseNoSigil(" WHERE ", where, " AND ");
    GroupClauseNoSigil(groupBy, having);
    OrderClauseNoSigil(orderBy, order);
  }

  lemma BoundsNoSigil(limit: int, offset: int, forWhat: string)
    requires '$' !in forWhat
    ensures '$' !in NumberClause(" LIMIT ", limit) && '$' !in NumberClause(" OFFSET ", offset)
    ensures '$' !in TextClause(" FOR ", forWhat)
  {
    NumberClauseNoSigil(" LIMIT ", limit);
    NumberClauseNoSigil(" OFFSET ", offset);
  }

  lemma SevenNoSigil(a: string, b: string, c: string, d: string, e: string, g: string, h: string, k: string)
    requires '$' !in a && '$' !in b && '$' !in c && '$' !in d && '$' !in e && '$' !in g && '$' !in h && '$' !in k
    ensures '$' !in a + b + c + d + e + g + h + k
  {
  }

  /** Without placeholders in its fields, Build returns the written text as it
      is and the initial values as the values. */
  lemma BuildWithoutPlaceholders(f: SelectFields, reg: Registry, initial: seq<Arg>)
    requires f.Valid() && NoSigilFields(f) && reg.sqlNamed == map[]
    ensures CompileOut(reg, Template(f), initial) == Output(Template(f), initial)
  {
    TemplateNoSigil(f);
    CompileNoSigil(reg, Template(f), initial);
  }

  /** Select(cols).From(tables).Where(conds).Offset(offset).Limit(limit): the
      clauses in the order Build writes them, whatever order the setters ran in. */
  lemma PageTemplate(cols: seq<string>, tables: seq<string>, conds: seq<string>, limit: nat, offset: nat)
    requires conds != []
    ensures Template(Fresh.(selectCols := cols, tables := tables, whereExprs := conds, limit := limit, offset := offset))
         == "SELECT " + Join(cols, ", ") + " FROM " + Join(tables, ", ") + " WHERE " + Join(conds, " AND ")
            + " LIMIT " + Decimal(limit) + " OFFSET " + Decimal(offset)
  {
    var f := Fresh.(selectCols := cols, tables := tables, whereExprs := conds, limit := limit, offset := offset);
    var head := "SELECT " + Join(cols, ", ") + " FROM " + Join(tables, ", ");
    assert ("SELECT " + "") + Join(cols, ", ") == "SELECT " + Join(cols, ", ");
    assert Joins(f.joinOptions, f.joinTables, f.joinExprs, 0) == "";
    PageParts(head, " WHERE " + Join(conds, " AND "), " LIMIT " + Decimal(limit), " OFFSET " + Decimal(offset));
  }

  lemma PageParts(head: string, where: string, limit: string, offset: string)
    ensures head + "" + where + "" + "" + limit + offset + "" == head + where + limit + offset
  {
  }

  /** The same builder run through its setters and Build: with no `$` in the
      arguments, the text is written as it is and there are no values. */
  method Page(cols: seq<string>, tables: seq<string>, conds: seq<string>, limit: nat, offset: nat)
    returns (sql: string, values: seq<Arg>)
    requires conds != [] && NoSigils(cols) && NoSigils(tables) && NoSigils(conds)
    ensures sql == "SELECT " + Join(cols, ", ") + " FROM " + Join(tables, ", ") + " WHERE " + Join(conds, " AND ")
                   + " LIMIT " + Decimal(limit) + " OFFSET " + Decimal(offset)
    ensures values == []
  {
    var sb := new SelectBuilder();
    sb.Select(cols);
    sb.From(tables);
    sb.Where(conds);
    sb.Offset(offset);
    sb.Limit(limit);
    var f := sb.Fields();
    assert f == Fresh.(selectCols := cols, tables := tables, whereExprs := conds, limit := limit, offset := offset);
    PageTemplate(cols, tables, conds, limit, offset);
    BuildWithoutPlaceholders(f, sb.args.Snapshot(), []);
    sql, values := sb.Build([]);
  }
}
