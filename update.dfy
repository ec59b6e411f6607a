/** update.go: the UPDATE builder. Its setters replace or extend the
    assignments and conditions; its formatters write one assignment each,
    staging the value when there is one; Build writes the clauses, each under
    its condition, and compiles the text with the builder's own registry. */
module Update {
  import opened Text
  import opened Args
  import opened ArgsLemmas
  import opened Clauses
  import opened Builders

  /** The fields of an UpdateBuilder other than its registry. */
  datatype UpdateFields = UpdateFields(
    table: string,
    assignments: seq<string>,
    whereExprs: seq<string>,
    orderByCols: seq<string>,
    order: string,
    limit: int)

  /** The fields newUpdateBuilder sets: no LIMIT (-1), everything else empty. */
  const Fresh := UpdateFields("", [], [], [], "", -1)

  /** The text Build writes before compiling. */
  function Template(f: UpdateFields): string
  {
    "UPDATE " + f.table + " SET " + Join(f.assignments, ", ")
    + ListClause(" WHERE ", f.whereExprs, " AND ")
    + OrderClause(f.orderByCols, f.order)
    + NumberClause(" LIMIT ", f.limit)
  }

  /** Incr: the field increased by one; nothing is staged. */
  function Incr(field: string): (s: string)
    ensures |s| == |field| + 3 + |field| + 4
    ensures s[..|field|] == field && s[|field|..|field| + 3] == " = "
    ensures s[|field| + 3..|field| + 3 + |field|] == field && s[|field| + 3 + |field|..] == " + 1"
  {
    field + " = " + field + " + 1"
  }

  /** Decr: the field decreased by one; nothing is staged. */
  function Decr(field: string): (s: string)
    ensures |s| == |field| + 3 + |field| + 4
    ensures s[..|field|] == field && s[|field|..|field| + 3] == " = "
    ensures s[|field| + 3..|field| + 3 + |field|] == field && s[|field| + 3 + |field|..] == " - 1"
  {
    field + " = " + field + " - 1"
  }

  /** UpdateBuilder; `args` is the registry its placeholders are staged in. */
  class UpdateBuilder {
    const args: Args
    var table: string
    var assignments: seq<string>
    var whereExprs: seq<string>
    var orderByCols: seq<string>
    var order: string
    var limit: int

    function Fields(): UpdateFields
      reads this
    {
      UpdateFields(table, assignments, whereExprs, orderByCols, order, limit)
    }

    /** The builder as a Builder value, as the Builder interface sees it:
        its rendered text together with its registry. */
    function AsBuilder(): Builder
      reads this, args
    {
      Compiled(Template(Fields()), args.Snapshot())
    }

    /** newUpdateBuilder: a fresh registry and no LIMIT. */
    constructor ()
      ensures Fields() == Fresh
      ensures fresh(args) && args.Snapshot() == Registry([], map[], map[], false)
    {
      args := new Args();
      table, order := "", "";
      assignments, whereExprs, orderByCols := [], [], [];
      limit := -1;
    }

    method Update(t: string)
      modifies this
      ensures Fields() == old(Fields()).(table := t)
    {
      table := t;
    }

    /** Set replaces the assignments. */
    method Set(assignment: seq<string>)
      modifies this
      ensures Fields() == old(Fields()).(assignments := assignment)
    {
      assignments := assignment;
    }

    /** SetMore appends to the assignments. */
    method SetMore(assignment: seq<string>)
      modifies this
      ensures Fields() == old(Fields()).(assignments := old(assignments) + assignment)
    {
      assignments := assignments + assignment;
    }

    /** Where appends to the WHERE expressions. */
    method Where(andExpr: seq<string>)
      modifies this
      ensures Fields() == old(Fields()).(whereExprs := old(whereExprs) + andExpr)
    {
      whereExprs := whereExprs + andExpr;
    }

    /** Assign stages the value and returns "field = $k" for its position k. */
    method Assign(field: string, value: Arg) returns (s: string)
      modifies args
      ensures args.Snapshot() == old(args.Snapshot()).(staged := old(args.staged) + [value])
      ensures s == field + " = " + Token(|old(args.staged)|)
    {
      var token := args.Add(value);
      s := field + " = " + token;
    }

    /** Add stages the value and returns "field = field + $k". */
    method Add(field: string, value: Arg) returns (s: string)
      modifies args
      ensures args.Snapshot() == old(args.Snapshot()).(staged := old(args.staged) + [value])
      ensures s == field + " = " + field + " + " + Token(|old(args.staged)|)
    {
      var token := args.Add(value);
      s := field + " = " + field + " + " + token;
    }

    /** Sub stages the value and returns "field = field - $k". */
    method Sub(field: string, value: Arg) returns (s: string)
      modifies args
      ensures args.Snapshot() == old(args.Snapshot()).(staged := old(args.staged) + [value])
      ensures s == field + " = " + field + " - " + Token(|old(args.staged)|)
    {
      var token := args.Add(value);
      s := field + " = " + field + " - " + token;
    }

    /** Mul stages the value and returns "field = field * $k". */
    method Mul(field: string, value: Arg) returns (s: string)
      modifies args
      ensures args.Snapshot() == old(args.Snapshot()).(staged := old(args.staged) + [value])
      ensures s == field + " = " + field + " * " + Token(|old(args.staged)|)
    {
      var token := args.Add(value);
      s := field + " = " + field + " * " + token;
    }

    /** Div stages the value and returns "field = field / $k". */
    method Div(field: string, value: Arg) returns (s: string)
      modifies args
      ensures args.Snapshot() == old(args.Snapshot()).(staged := old(args.staged) + [value])
      ensures s == field + " = " + field + " / " + Token(|old(args.staged)|)
    {
      var token := args.Add(value);
      s := field + " = " + field + " / " + token;
    }

    /** OrderBy replaces the ORDER BY columns. */
    method OrderBy(col: seq<string>)
      modifies this
      ensures Fields() == old(Fields()).(orderByCols := col)
    {
      orderByCols := col;
    }

    method Asc()
      modifies this
      ensures Fields() == old(Fields()).(order := "ASC")
    {
      order := "ASC";
    }

    method Desc()
      modifies this
      ensures Fields() == old(Fields()).(order := "DESC")
    {
      order := "DESC";
    }

    method Limit(n: int)
      modifies this
      ensures Fields() == old(Fields()).(limit := n)
    {
      limit := n;
    }

    /** String: the text of Build with no initial values. */
    method String() returns (s: string)
      ensures s == CompileOut(args.Snapshot(), Template(Fields()), []).sql
    {
      var values;
      s, values := Build([]);
    }

    /** The writing part of Build. */
    method Render() returns (buf: string)
      ensures buf == Template(Fields())
    {
      buf := "UPDATE ";
      buf := buf + table;
      buf := buf + " SET ";
      buf := buf + Text.Join(assignments, ", ");
      buf := WriteList(buf, " WHERE ", whereExprs, " AND ");
      buf := WriteOrder(buf, orderByCols, order);
      buf := WriteNumber(buf, " LIMIT ", limit);
    }

    /** Build: the rendered text compiled with the builder's registry, after
        the initial values. */
    method Build(initial: seq<Arg>) returns (sql: string, values: seq<Arg>)
      ensures Output(sql, values) == CompileOut(args.Snapshot(), Template(Fields()), initial)
      ensures Output(sql, values) == BuildOut(AsBuilder(), initial)
    {
      var buf := Render();
      sql, values := args.Compile(buf, initial);
    }
  }

  /** A fresh builder writes no LIMIT; Limit(n) writes one exactly when n is
      not negative. */
  lemma LimitOnlyWhenSet(f: UpdateFields, n: int)
    ensures Template(f.(limit := n)) == Template(f.(limit := -1)) + NumberClause(" LIMIT ", n)
    ensures NumberClause(" LIMIT ", n) == "" <==> n < 0
  {
    var body := "UPDATE " + f.table + " SET " + Join(f.assignments, ", ")
      + ListClause(" WHERE ", f.whereExprs, " AND ") + OrderClause(f.orderByCols, f.order);
    assert Template(f.(limit := -1)) == body;
    assert Template(f.(limit := n)) == body + NumberClause(" LIMIT ", n);
  }

  /** Incr and Decr write no placeholder of their own. */
  lemma StepNoSigil(field: string)
    requires '$' !in field
    ensures '$' !in Incr(field) && '$' !in Decr(field)
  {
  }

  /** Three texts around two consecutive tokens. */
  lemma WeaveTwo(a: string, b: string, c: string, k: nat)
    ensures Weave([a, b, c], k) == a + Token(k) + b + Token(k + 1) + c
  {
    assert [a, b, c][1..] == [b, c];
    assert [b, c][1..] == [c];
    assert Weave([b, c], k + 1) == b + Token(k + 1) + c;
  }

  /** The texts of AssignWhere around its two tokens. */
  function AssignWhereTexts(table: string, field: string, col: string): seq<string>
  {
    ["UPDATE " + table + " SET " + field + " = ", " WHERE " + col + " = ", ""]
  }

  /** The text of the builder after Update(table), Set(Assign(field, v)) and
      Where(Assign(col, w)). */
  lemma AssignWhereTemplate(table: string, field: string, col: string)
    ensures Template(Fresh.(table := table, assignments := [field + " = " + Token(0)],
                            whereExprs := [col + " = " + Token(1)]))
         == Weave(AssignWhereTexts(table, field, col), 0)
  {
    var a := field + " = " + Token(0);
    var w := col + " = " + Token(1);
    assert Join([a], ", ") == a;
    assert Join([w], " AND ") == w;
    WeaveTwo("UPDATE " + table + " SET " + field + " = ", " WHERE " + col + " = ", "", 0);
    AssignWhereParts("UPDATE " + table + " SET ", field + " = ", Token(0), " WHERE ", col + " = ", Token(1));
  }

  lemma AssignWhereParts(head: string, lhs: string, t0: string, kw: string, rhs: string, t1: string)
    ensures head + (lhs + t0) + (kw + (rhs + t1)) + "" + ""
         == head + lhs + t0 + (kw + rhs) + t1 + ""
  {
  }

  lemma AssignWhereSeparators(table: string, field: string, col: string)
    requires '$' !in table && '$' !in field && '$' !in col
    ensures Separators(AssignWhereTexts(table, field, col))
  {
  }

  /** Placeholders are numbered in staging order across SET and WHERE:
      Update(table).Set(Assign(field, v)).Where(Assign(col, w)).Build() writes
      $1 for v and $2 for w, and the values are v then w. */
  method AssignWhere(table: string, field: string, v: Arg, col: string, w: Arg)
    returns (sql: string, values: seq<Arg>)
    requires v.Plain? && w.Plain?
    requires '$' !in table && '$' !in field && '$' !in col
    ensures sql == "UPDATE " + table + " SET " + field + " = " + Token(1) + " WHERE " + col + " = " + Token(2)
    ensures values == [v, w]
  {
    var ub := new UpdateBuilder();
    ub.Update(table);
    var a := ub.Assign(field, v);
    ub.Set([a]);
    var c := ub.Assign(col, w);
    ub.Where([c]);
    assert ub.Fields() == Fresh.(table := table, assignments := [a], whereExprs := [c]);
    assert ub.args.Snapshot() == Staged([v, w]);
    var texts := AssignWhereTexts(table, field, col);
    AssignWhereTemplate(table, field, col);
    AssignWhereText(table, field, col);
    CompilePlains(texts, [v, w]);
    sql, values := ub.Build([]);
  }

  /** The woven texts with the driver placeholders $1 and $2. */
  lemma AssignWhereText(table: string, field: string, col: string)
    requires '$' !in table && '$' !in field && '$' !in col
    ensures var texts := AssignWhereTexts(table, field, col);
      Separators(texts)
      && Weave(texts, 1) == "UPDATE " + table + " SET " + field + " = " + Token(1) + " WHERE " + col + " = " + Token(2)
  {
    var texts := AssignWhereTexts(table, field, col);
    AssignWhereSeparators(table, field, col);
    WeaveTwo(texts[0], texts[1], texts[2], 1);
    FinalParts(texts[0] + Token(1), " WHERE ", col, " = ", Token(2));
  }

  lemma FinalParts(x: string, kw: string, col: string, eq: string, t: string)
    ensures x + (kw + col + eq) + t + "" == x + kw + col + eq + t
  {
  }
}
