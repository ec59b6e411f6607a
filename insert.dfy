/** insert.go: the INSERT builder. Values stages one row of arguments and
    keeps their tokens; Build writes the verb, the table, the optional column
    list, the rows, the optional ON CONFLICT and RETURNING clauses, and
    compiles the text with the builder's own registry. */
module Insert {
  import opened Text
  import opened Args
  import opened ArgsLemmas
  import opened Clauses
  import opened Builders

  /** The fields of an InsertBuilder other than its registry; `values` holds
      the placeholder tokens of each row. */
  datatype InsertFields = InsertFields(
    verb: string,
    table: string,
    returning: seq<string>,
    onConflict: seq<string>,
    assignments: seq<string>,
    cols: seq<string>,
    values: seq<seq<string>>)

  /** The fields newInsertBuilder sets: the INSERT verb, everything else empty. */
  const Fresh := InsertFields("INSERT", "", [], [], [], [], [])

  /** The column list in parentheses, only when there are columns. */
  function ColsClause(cols: seq<string>): (s: string)
    ensures s == "" <==> cols == []
    ensures cols != [] ==> |s| >= 3 && s[..2] == " (" && s[|s| - 1] == ')'
  {
    if |cols| > 0 then " (" + Join(cols, ", ") + ")" else ""
  }

  /** One row as fmt.Sprintf("(%v)") writes its joined placeholders. */
  function RowText(row: seq<string>): (s: string)
    ensures |s| >= 2 && s[0] == '(' && s[|s| - 1] == ')'
  {
    "(" + Join(row, ", ") + ")"
  }

  /** The rows in the order they were added. */
  function RowTexts(rows: seq<seq<string>>): (r: seq<string>)
    ensures |r| == |rows| && forall i :: 0 <= i < |rows| ==> r[i] == RowText(rows[i])
  {
    seq(|rows|, i requires 0 <= i < |rows| => RowText(rows[i]))
  }

  /** ON CONFLICT with its columns when there are any, and inside it DO UPDATE
      SET with the assignments when there are any. */
  function ConflictClause(onConflict: seq<string>, assignments: seq<string>): (s: string)
    ensures s == "" <==> onConflict == []
    ensures onConflict != [] ==> s == " ON CONFLICT (" + Join(onConflict, ", ") + ")"
                                      + ListClause(" DO UPDATE SET ", assignments, ", ")
  {
    if |onConflict| != 0 then
      " ON CONFLICT (" + Join(onConflict, ", ") + ")" + ListClause(" DO UPDATE SET ", assignments, ", ")
    else ""
  }

  /** The text Build writes before compiling. */
  function Template(f: InsertFields): string
  {
    f.verb + " INTO " + f.table + ColsClause(f.cols)
    + " VALUES " + Join(RowTexts(f.values), ", ")
    + ConflictClause(f.onConflict, f.assignments)
    + ListClause(" RETURNING ", f.returning, ", ")
  }

  /** Set: the assignment of the value proposed for insertion to a column,
      for DO UPDATE SET. */
  function Set(col: string): (s: string)
    ensures |s| == |col| + 12 + |col|
    ensures s[..|col|] == col && s[|col|..|col| + 12] == " = EXCLUDED." && s[|col| + 12..] == col
  {
    col + " = EXCLUDED." + col
  }

  /** InsertBuilder; `args` is the registry its placeholders are staged in. */
  class InsertBuilder {
    const args: Args
    var verb: string
    var table: string
    var returning: seq<string>
    var onConflict: seq<string>
    var assignments: seq<string>
    var cols: seq<string>
    var values: seq<seq<string>>

    function Fields(): InsertFields
      reads this
    {
      InsertFields(verb, table, returning, onConflict, assignments, cols, values)
    }

    /** The builder as a Builder value, as the Builder interface sees it:
        its rendered text together with its registry. */
    function AsBuilder(): Builder
      reads this, args
    {
      Compiled(Template(Fields()), args.Snapshot())
    }

    /** newInsertBuilder: a fresh registry and the INSERT verb. */
    constructor ()
      ensures Fields() == Fresh
      ensures fresh(args) && args.Snapshot() == Registry([], map[], map[], false)
    {
      args := new Args();
      verb, table := "INSERT", "";
      returning, onConflict, assignments, cols, values := [], [], [], [], [];
    }

    method InsertInto(t: string)
      modifies this
      ensures Fields() == old(Fields()).(table := t)
    {
      table := t;
    }

    /** Cols replaces the columns. */
    method Cols(col: seq<string>)
      modifies this
      ensures Fields() == old(Fields()).(cols := col)
    {
      cols := col;
    }

    /** Returning replaces the RETURNING columns. */
    method Returning(col: seq<string>)
      modifies this
      ensures Fields() == old(Fields()).(returning := col)
    {
      returning := col;
    }

    /** OnConflict replaces the conflict columns. */
    method OnConflict(col: seq<string>)
      modifies this
      ensures Fields() == old(Fields()).(onConflict := col)
    {
      onConflict := col;
    }

    /** DoUpdate replaces the DO UPDATE SET assignments. */
    method DoUpdate(assignment: seq<string>)
      modifies this
      ensures Fields() == old(Fields()).(assignments := assignment)
    {
      assignments := assignment;
    }

    /** Values stages the values in order and adds one row holding their tokens. */
    method Values(value: seq<Arg>)
      modifies this, args
      ensures Fields() == old(Fields()).(values := old(values) + [Tokens(|old(args.staged)|, |value|)])
      ensures args.Snapshot() == old(args.Snapshot()).(staged := old(args.staged) + value)
    {
      ghost var k := |args.staged|;
      var placeholders: seq<string> := [];
      var i := 0;
      while i < |value|
        invariant 0 <= i <= |value|
        invariant placeholders == Tokens(k, i)
        invariant args.Snapshot() == old(args.Snapshot()).(staged := old(args.staged) + value[..i])
        invariant Fields() == old(Fields())
      {
        var token := args.Add(value[i]);
        assert value[..i + 1] == value[..i] + [value[i]];
        placeholders := placeholders + [token];
        i := i + 1;
      }
      assert value[..i] == value;
      values := values + [placeholders];
    }

    /** Assign stages the value and returns the assignment of its token. */
    method Assign(field: string, value: Arg) returns (s: string)
      modifies args
      ensures args.Snapshot() == old(args.Snapshot()).(staged := old(args.staged) + [value])
      ensures s == field + " = " + Token(|old(args.staged)|)
    {
      var token := args.Add(value);
      s := field + " = " + token;
    }

    /** Var stages the value and returns its token. */
    method Var(arg: Arg) returns (token: string)
      modifies args
      ensures args.Snapshot() == old(args.Snapshot()).(staged := old(args.staged) + [arg])
      ensures token == Token(|old(args.staged)|)
    {
      token := args.Add(arg);
    }

    /** The writing part of Build. */
    method Render() returns (buf: string)
      ensures buf == Template(Fields())
    {
      buf := verb;
      buf := buf + " INTO ";
      buf := buf + table;
      buf := WriteCols(buf, cols);
      buf := buf + " VALUES ";
      var rows := RenderRows();
      buf := buf + Text.Join(rows, ", ");
      buf := WriteConflict(buf, onConflict, assignments);
      buf := WriteList(buf, " RETURNING ", returning, ", ");
    }

    /** The loop of Build that writes each row in parentheses. */
    method RenderRows() returns (rows: seq<string>)
      ensures rows == RowTexts(values)
    {
      rows := [];
      var i := 0;
      while i < |values|
        invariant 0 <= i <= |values|
        invariant |rows| == i && forall j :: 0 <= j < i ==> rows[j] == RowText(values[j])
      {
        rows := rows + ["(" + Text.Join(values[i], ", ") + ")"];
        i := i + 1;
      }
    }

    /** Build: the rendered text compiled with the builder's registry, after
        the initial values. */
    method Build(initial: seq<Arg>) returns (sql: string, vals: seq<Arg>)
      ensures Output(sql, vals) == CompileOut(args.Snapshot(), Template(Fields()), initial)
      ensures Output(sql, vals) == BuildOut(AsBuilder(), initial)
    {
      var buf := Render();
      sql, vals := args.Compile(buf, initial);
    }
  }

  /** Writes the column list when there are columns. */
  method WriteCols(buf: string, cols: seq<string>) returns (b: string)
    ensures b == buf + ColsClause(cols)
  {
    b := buf;
    if |cols| > 0 {
      b := b + " (";
      b := b + Join(cols, ", ");
      b := b + ")";
      assert b == buf + (" (" + Join(cols, ", ") + ")");
    } else {
      assert b == buf + "";
    }
  }

  /** Writes ON CONFLICT when there are conflict columns, and inside that
      DO UPDATE SET when there are assignments. */
  method WriteConflict(buf: string, onConflict: seq<string>, assignments: seq<string>) returns (b: string)
    ensures b == buf + ConflictClause(onConflict, assignments)
  {
    b := buf;
    if |onConflict| != 0 {
      b := b + " ON CONFLICT (";
      b := b + Join(onConflict, ", ");
      b := b + ")";
      b := WriteList(b, " DO UPDATE SET ", assignments, ", ");
      assert b == buf + (" ON CONFLICT (" + Join(onConflict, ", ") + ")" + ListClause(" DO UPDATE SET ", assignments, ", "));
    } else {
      assert b == buf + "";
    }
  }

  /** DO UPDATE SET is written only inside ON CONFLICT: without conflict
      columns the assignments do not change the text. */
  lemma DoUpdateNeedsConflict(f: InsertFields, assignments: seq<string>)
    requires f.onConflict == []
    ensures Template(f.(assignments := assignments)) == Template(f)
  {
    assert ConflictClause(f.onConflict, assignments) == "" == ConflictClause(f.onConflict, f.assignments);
  }

  /** The text starts with the verb, INTO and the table. */
  lemma TemplateStart(f: InsertFields)
    ensures var n := |f.verb| + 6 + |f.table|;
      |Template(f)| >= n && Template(f)[..n] == f.verb + " INTO " + f.table
  {
    var head := f.verb + " INTO " + f.table;
    var rest := ColsClause(f.cols) + " VALUES " + Join(RowTexts(f.values), ", ")
      + ConflictClause(f.onConflict, f.assignments) + ListClause(" RETURNING ", f.returning, ", ");
    PrefixOf(head, ColsClause(f.cols), " VALUES " + Join(RowTexts(f.values), ", "),
      ConflictClause(f.onConflict, f.assignments), ListClause(" RETURNING ", f.returning, ", "));
  }

  lemma PrefixOf(head: string, a: string, b: string, c: string, d: string)
    ensures |head + a + b + c + d| >= |head| && (head + a + b + c + d)[..|head|] == head
  {
    assert head + a + b + c + d == head + (a + b + c + d);
  }

  /** Set writes no placeholder of its own, so the assignment compiles to itself. */
  lemma SetNoSigil(col: string)
    requires '$' !in col
    ensures '$' !in Set(col)
  {
  }

  /** A fresh builder given a table, columns and one row of values writes the
      row's tokens in parentheses. */
  lemma OneRowTemplate(table: string, cols: seq<string>, n: nat)
    ensures Template(Fresh.(table := table, cols := cols, values := [Tokens(0, n)]))
         == ("INSERT INTO " + table + ColsClause(cols) + " VALUES (") + Join(Tokens(0, n), ", ") + ")"
  {
    var row := RowText(Tokens(0, n));
    assert RowTexts([Tokens(0, n)]) == [row];
    assert Join([row], ", ") == row;
    assert "INSERT" + " INTO " == "INSERT INTO ";
    OneRowParts("INSERT INTO " + table + ColsClause(cols), Join(Tokens(0, n), ", "));
  }

  lemma OneRowParts(pre: string, tokens: string)
    ensures pre + " VALUES " + ("(" + tokens + ")") + "" + ""
         == (pre + " VALUES (") + tokens + ")"
  {
    assert " VALUES " + "(" == " VALUES (";
  }

  /** InsertInto(table).Cols(cols).Values(v1, ..., vn).Build(): plain values
      become the driver placeholders $1..$n in one row, and the values are
      v1, ..., vn in order. */
  method OneRow(table: string, cols: seq<string>, value: seq<Arg>) returns (sql: string, vals: seq<Arg>)
    requires |value| >= 1 && forall i :: 0 <= i < |value| ==> value[i].Plain?
    requires '$' !in table && NoSigils(cols)
    ensures sql == "INSERT INTO " + table + ColsClause(cols) + " VALUES (" + Join(Tokens(1, |value|), ", ") + ")"
    ensures vals == value
  {
    var ib := new InsertBuilder();
    ib.InsertInto(table);
    ib.Cols(cols);
    ib.Values(value);
    assert ib.Fields() == Fresh.(table := table, cols := cols, values := [Tokens(0, |value|)]);
    assert ib.args.Snapshot() == Staged(value);
    OneRowTemplate(table, cols, |value|);
    PreNoSigil(table, cols);
    CompileJoinedPlains("INSERT INTO " + table + ColsClause(cols) + " VALUES (", ", ", ")", value);
    sql, vals := ib.Build([]);
  }

  lemma PreNoSigil(table: string, cols: seq<string>)
    requires '$' !in table && NoSigils(cols)
    ensures '$' !in "INSERT INTO " + table + ColsClause(cols) + " VALUES ("
  {
    JoinNoSigil(cols, ", ");
  }
}
