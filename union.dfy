/** union.go: the UNION builder. Its setters choose the operator, replace
    the sub-builders and set ORDER BY, LIMIT and OFFSET; Build stages every
    sub-builder in the builder's own registry, writes their tokens in
    parentheses joined by the operator, and compiles the text. */
module Union {
  import opened Text
  import opened Args
  import opened ArgsLemmas
  import opened Clauses
  import Select

  /** The operators: DISTINCT, the default, and ALL. */
  const DistinctOpt := " UNION "
  const AllOpt := " UNION ALL "

  /** The fields of a UnionBuilder other than its registry. */
  datatype UnionFields = UnionFields(
    opt: string,
    builders: seq<Builder>,
    orderByCols: seq<string>,
    order: string,
    limit: int,
    offset: int)

  /** The fields newUnionBuilder sets: no LIMIT and no OFFSET (-1), no
      operator and no sub-builders. */
  const Fresh := UnionFields("", [], [], "", -1, -1)

  /** The first n sub-builders' tokens from position k on, each in parentheses,
      the later ones after the operator; nothing without sub-builders. */
  function Unions(opt: string, k: nat, n: nat): string
  {
    if n == 0 then ""
    else if n == 1 then "(" + Token(k) + ")"
    else Unions(opt, k, n - 1) + opt + "(" + Token(k + n - 1) + ")"
  }

  /** The sub-builders as the arguments Var stages for them. */
  function Nesteds(builders: seq<Builder>): (args: seq<Arg>)
    ensures |args| == |builders| && forall i :: 0 <= i < |builders| ==> args[i] == Nested(builders[i])
  {
    seq(|builders|, i requires 0 <= i < |builders| => Nested(builders[i]))
  }

  /** What Build writes after the sub-builders. */
  function Tail(f: UnionFields): string
  {
    OrderClause(f.orderByCols, f.order) + NumberClause(" LIMIT ", f.limit) + NumberClause(" OFFSET ", f.offset)
  }

  /** The text Build writes before compiling, when the registry already holds
      k arguments. */
  function Template(f: UnionFields, k: nat): string
  {
    Unions(f.opt, k, |f.builders|)
    + OrderClause(f.orderByCols, f.order)
    + NumberClause(" LIMIT ", f.limit)
    + NumberClause(" OFFSET ", f.offset)
  }

  /** UnionBuilder; `args` is the registry the sub-builders are staged in. */
  class UnionBuilder {
    const args: Args
    var opt: string
    var builders: seq<Builder>
    var orderByCols: seq<string>
    var order: string
    var limit: int
    var offset: int

    function Fields(): UnionFields
      reads this
    {
      UnionFields(opt, builders, orderByCols, order, limit, offset)
    }

    /** The builder as a Builder value for its next Build: its rendered text
        over the registry that Build extends with the sub-builders. */
    function AsBuilder(): Builder
      reads this, args
    {
      Compiled(Template(Fields(), |args.staged|), args.Snapshot().(staged := args.staged + Nesteds(builders)))
    }

    /** newUnionBuilder: a fresh registry, no LIMIT and no OFFSET. */
    constructor ()
      ensures Fields() == Fresh
      ensures fresh(args) && args.Snapshot() == Registry([], map[], map[], false)
    {
      args := new Args();
      opt, order := "", "";
      builders, orderByCols := [], [];
      limit, offset := -1, -1;
    }

    /** union: sets the operator and replaces the sub-builders. */
    method UnionWith(o: string, bs: seq<Builder>)
      modifies this
      ensures Fields() == old(Fields()).(opt := o, builders := bs)
    {
      opt := o;
      builders := bs;
    }

    /** Union: the sub-builders joined by UNION. */
    method Union(bs: seq<Builder>)
      modifies this
      ensures Fields() == old(Fields()).(opt := DistinctOpt, builders := bs)
    {
      UnionWith(DistinctOpt, bs);
    }

    /** UnionAll: the sub-builders joined by UNION ALL. */
    method UnionAll(bs: seq<Builder>)
      modifies this
      ensures Fields() == old(Fields()).(opt := AllOpt, builders := bs)
    {
      UnionWith(AllOpt, bs);
    }

    /** OrderBy replaces the ORDER BY columns. */
    method OrderBy(col: seq<string>)
      modifies this
      ensures Fields() == old(Fields()).(orderByCols := col)
    {
      orderByCols := col;
    }

    method Asc()
      modifies this
      ensures Fields() == old(Fields()).(order := "ASC")
    {
      order := "ASC";
    }

    method Desc()
      modifies this
      ensures Fields() == old(Fields()).(order := "DESC")
    {
      order := "DESC";
    }

    method Limit(n: int)
      modifies this
      ensures Fields() == old(Fields()).(limit := n)
    {
      limit := n;
    }

    method Offset(n: int)
      modifies this
      ensures Fields() == old(Fields()).(offset := n)
    {
      offset := n;
    }

    /** Var stages the argument and returns its token. */
    method Var(arg: Arg) returns (token: string)
      modifies args
      ensures args.Snapshot() == old(args.Snapshot()).(staged := old(args.staged) + [arg])
      ensures token == Token(|old(args.staged)|)
    {
      token := args.Add(arg);
    }

    /** The part of Build that stages the sub-builders and writes their tokens. */
    method RenderUnions() returns (buf: string)
      modifies args
      ensures args.Snapshot() == old(args.Snapshot()).(staged := old(args.staged) + Nesteds(builders))
      ensures buf == Unions(opt, |old(args.staged)|, |builders|)
    {
      buf := "";
      if |builders| > 0 {
        var k := |args.staged|;
        buf := buf + "(";
        var token := Var(Nested(builders[0]));
        buf := buf + token;
        buf := buf + ")";
        assert buf == Unions(opt, k, 1);
        buf := RenderLater(k, buf);
        NestedsSplit(old(args.staged), builders);
      } else {
        assert Nesteds(builders) == [];
      }
    }

    /** The loop of Build over the sub-builders after the first: the operator,
        then the token of each in parentheses. */
    method RenderLater(k: nat, buf: string) returns (b: string)
      requires |builders| >= 1 && |args.staged| == k + 1 && buf == Unions(opt, k, 1)
      modifies args
      ensures args.Snapshot() == old(args.Snapshot()).(staged := old(args.staged) + Nesteds(builders)[1..|builders|])
      ensures b == Unions(opt, k, |builders|)
    {
      ghost var start := args.Snapshot();
      b := buf;
      var i := 1;
      while i < |builders|
        invariant 1 <= i <= |builders|
        invariant args.Snapshot() == start.(staged := start.staged + Nesteds(builders)[1..i])
        invariant b == Unions(opt, k, i)
      {
        ghost var before := args.staged;
        b := RenderNext(k, i, b);
        NestedsSnoc(args.staged, before, start.staged, builders, i);
        i := i + 1;
      }
    }

    /** One turn of that loop: the operator, then the token of sub-builder i
        in parentheses. */
    method RenderNext(k: nat, i: nat, buf: string) returns (b: string)
      requires 1 <= i < |builders| && |args.staged| == k + i && buf == Unions(opt, k, i)
      modifies args
      ensures args.Snapshot() == old(args.Snapshot()).(staged := old(args.staged) + [Nested(builders[i])])
      ensures b == Unions(opt, k, i + 1)
    {
      UnionsStep(opt, k, i);
      var token := Var(Nested(builders[i]));
      b := buf + opt + "(" + token + ")";
    }

    /** Build: stages the sub-builders, writes the text and compiles it with
        the builder's registry, after the initial values. */
    method Build(initial: seq<Arg>) returns (sql: string, values: seq<Arg>)
      modifies args
      ensures args.Snapshot() == old(args.Snapshot()).(staged := old(args.staged) + Nesteds(builders))
      ensures Output(sql, values) == CompileOut(args.Snapshot(), Template(Fields(), |old(args.staged)|), initial)
      ensures Output(sql, values) == BuildOut(old(AsBuilder()), initial)
    {
      var buf := RenderUnions();
      buf := WriteOrder(buf, orderByCols, order);
      buf := WriteNumber(buf, " LIMIT ", limit);
      buf := WriteNumber(buf, " OFFSET ", offset);
      sql, values := args.Compile(buf, initial);
    }
  }

  /** Without sub-builders only the ORDER BY, LIMIT and OFFSET clauses are
      written. */
  lemma NoBuilders(f: UnionFields, k: nat)
    requires f.builders == []
    ensures Template(f, k) == Tail(f)
  {
    assert Unions(f.opt, k, 0) == "";
  }

  /** The order is written only after ORDER BY columns. */
  lemma OrderNeedsColumns(f: UnionFields, k: nat, order: string)
    requires f.orderByCols == []
    ensures Template(f.(order := order), k) == Template(f, k)
  {
    assert OrderClause(f.orderByCols, order) == "" == OrderClause(f.orderByCols, f.order);
  }

  lemma NestedsStep(bs: seq<Builder>, i: nat)
    requires 1 <= i < |bs|
    ensures Nesteds(bs)[1..i + 1] == Nesteds(bs)[1..i] + [Nested(bs[i])]
  {
  }

  lemma NestedsSplit(staged: seq<Arg>, bs: seq<Builder>)
    requires |bs| >= 1
    ensures staged + [Nested(bs[0])] + Nesteds(bs)[1..|bs|] == staged + Nesteds(bs)
  {
    assert Nesteds(bs) == [Nested(bs[0])] + Nesteds(bs)[1..|bs|];
  }

  lemma UnionsStep(opt: string, k: nat, i: nat)
    requires i >= 1
    ensures Unions(opt, k, i + 1) == Unions(opt, k, i) + opt + "(" + Token(k + i) + ")"
  {
  }

  lemma NestedsSnoc(now: seq<Arg>, before: seq<Arg>, start: seq<Arg>, bs: seq<Builder>, i: nat)
    requires 1 <= i < |bs| && before == start + Nesteds(bs)[1..i] && now == before + [Nested(bs[i])]
    ensures now == start + Nesteds(bs)[1..i + 1]
  {
    NestedsStep(bs, i);
  }

  /** The tokens in parentheses are the tokens joined by the operator between
      a closing and an opening parenthesis. */
  lemma {:induction false} UnionsJoined(opt: string, k: nat, n: nat)
    requires n >= 1
    ensures Unions(opt, k, n) == "(" + Join(Tokens(k, n), ")" + opt + "(") + ")"
    decreases n
  {
    if n > 1 {
      var sep := ")" + opt + "(";
      UnionsJoined(opt, k, n - 1);
      assert Tokens(k, n) == Tokens(k, n - 1) + [Token(k + n - 1)];
      JoinSnoc(Tokens(k, n - 1), Token(k + n - 1), sep);
      UnionsRegroup(Join(Tokens(k, n - 1), sep), opt, Token(k + n - 1));
    }
  }

  lemma UnionsRegroup(joined: string, opt: string, t: string)
    ensures "(" + joined + ")" + opt + "(" + t + ")" == "(" + (joined + (")" + opt + "(") + t) + ")"
  {
  }

  /** The texts around the sub-builders' tokens: an opening parenthesis, the
      operator between parentheses, and a closing parenthesis before the tail. */
  function UnionTexts(f: UnionFields): seq<string>
    requires |f.builders| >= 1
  {
    Between("(", ")" + f.opt + "(", ")" + Tail(f), |f.builders|)
  }

  /** With sub-builders, the text is the tail after the tokens woven into
      the union texts. */
  lemma TemplateIsWeave(f: UnionFields, k: nat)
    requires |f.builders| >= 1 && '$' !in f.opt && NoSigils(f.orderByCols) && '$' !in f.order
    ensures Template(f, k) == Weave(UnionTexts(f), k)
    ensures Separators(UnionTexts(f))
  {
    var n := |f.builders|;
    var sep := ")" + f.opt + "(";
    UnionsJoined(f.opt, k, n);
    TailRegroup(Join(Tokens(k, n), sep), OrderClause(f.orderByCols, f.order),
      NumberClause(" LIMIT ", f.limit), NumberClause(" OFFSET ", f.offset));
    JoinWeave("(", sep, ")" + Tail(f), k, n);
    OrderClauseNoSigil(f.orderByCols, f.order);
    NumberClauseNoSigil(" LIMIT ", f.limit);
    NumberClauseNoSigil(" OFFSET ", f.offset);
    BetweenSeparators("(", sep, ")" + Tail(f), n);
  }

  lemma TailRegroup(joined: string, order: string, limit: string, offset: string)
    ensures "(" + joined + ")" + order + limit + offset == "(" + joined + (")" + (order + limit + offset))
  {
  }

  /** Each sub-builder is compiled with the values collected before it, so
      its placeholders continue the numbering of the ones before: the text is
      what compiling the union texts around the staged sub-builders writes,
      and no value is deferred. */
  lemma UnionOut(f: UnionFields, reg: Registry, k: nat, initial: seq<Arg>)
    requires |f.builders| >= 1 && '$' !in f.opt && NoSigils(f.orderByCols) && '$' !in f.order
    requires !reg.onlyNamed && reg.sqlNamed == map[]
    requires k + |f.builders| <= |reg.staged|
    requires forall i :: 0 <= i < |f.builders| ==> reg.staged[k + i] == Nested(f.builders[i])
    ensures CompileOut(reg, Template(f, k), initial) == WeaveOut(UnionTexts(f), Nesteds(f.builders), initial)
  {
    var texts := UnionTexts(f);
    var args := Nesteds(f.builders);
    TemplateIsWeave(f, k);
    ScanWeave(reg, texts, args, k, initial, 0);
    CompileIsScan(reg, Weave(texts, k), initial);
  }

  /** Two sub-builders: the second is compiled with the values the first
      leaves, so its placeholders are numbered after the first's. */
  lemma NestedPair(texts: seq<string>, b1: Builder, b2: Builder, initial: seq<Arg>)
    requires |texts| == 3
    ensures var o1 := BuildOut(b1, initial); var o2 := BuildOut(b2, o1.values);
      WeaveOut(texts, [Nested(b1), Nested(b2)], initial)
        == Output(texts[0] + o1.sql + (texts[1] + o2.sql + texts[2]), o2.values)
  {
    var o1 := BuildOut(b1, initial);
    var o2 := BuildOut(b2, o1.values);
    assert [Nested(b1), Nested(b2)][1..] == [Nested(b2)];
    assert [Nested(b2)][1..] == [];
    assert texts[1..][1..] == [texts[2]];
    assert WeaveOut([texts[2]], [], o2.values) == Output(texts[2], o2.values);
    assert WeaveOut(texts[1..], [Nested(b2)], o1.values) == Output(texts[1] + o2.sql + texts[2], o2.values);
  }

  /** Union(b1, b2).OrderBy(cols).Desc() on a fresh builder compiles to both
      sub-builders in parentheses joined by UNION, then the ORDER BY clause;
      the values are the first sub-builder's followed by the second's. */
  lemma TwoUnionOut(f: UnionFields, reg: Registry, b1: Builder, b2: Builder, cols: seq<string>)
    requires f == Fresh.(opt := DistinctOpt, builders := [b1, b2], orderByCols := cols, order := "DESC")
    requires reg == Registry([Nested(b1), Nested(b2)], map[], map[], false)
    requires NoSigils(cols)
    ensures var o1 := BuildOut(b1, []); var o2 := BuildOut(b2, o1.values);
      CompileOut(reg, Template(f, 0), [])
        == Output("(" + o1.sql + ") UNION (" + o2.sql + ")" + OrderClause(cols, "DESC"), o2.values)
  {
    UnionOut(f, reg, 0, []);
    TwoTexts(f, b1, b2, cols);
    NestedPair(["(", ") UNION (", ")" + OrderClause(cols, "DESC")], b1, b2, []);
    var o1 := BuildOut(b1, []);
    var o2 := BuildOut(b2, o1.values);
    TwoRegroup(o1.sql, o2.sql, OrderClause(cols, "DESC"));
  }

  lemma TwoRegroup(s1: string, s2: string, tail: string)
    ensures "(" + s1 + (") UNION (" + s2 + (")" + tail)) == "(" + s1 + ") UNION (" + s2 + ")" + tail
  {
  }

  lemma TwoTexts(f: UnionFields, b1: Builder, b2: Builder, cols: seq<string>)
    requires f == Fresh.(opt := DistinctOpt, builders := [b1, b2], orderByCols := cols, order := "DESC")
    ensures Nesteds(f.builders) == [Nested(b1), Nested(b2)]
    ensures UnionTexts(f) == ["(", ") UNION (", ")" + OrderClause(cols, "DESC")]
  {
    assert Tail(f) == OrderClause(cols, "DESC") + "" + "";
    assert Tail(f) == OrderClause(cols, "DESC");
    var t := UnionTexts(f);
    assert t[0] == "(" && t[2] == ")" + OrderClause(cols, "DESC");
    assert t[1] == ")" + DistinctOpt + "(" == ") UNION (";
    assert t == [t[0], t[1], t[2]];
  }

  /** Union(sb1, sb2).OrderBy(cols).Desc().Build() over two SELECT builders:
      each is built as a sub-query, the second after the values of the first. */
  method TwoUnion(sb1: Select.SelectBuilder, sb2: Select.SelectBuilder, cols: seq<string>) returns (sql: string, values: seq<Arg>)
    requires sb1.Fields().Valid() && sb2.Fields().Valid() && NoSigils(cols)
    ensures var o1 := BuildOut(sb1.AsBuilder(), []); var o2 := BuildOut(sb2.AsBuilder(), o1.values);
      sql == "(" + o1.sql + ") UNION (" + o2.sql + ")" + OrderClause(cols, "DESC") && values == o2.values
  {
    var b1 := sb1.AsBuilder();
    var b2 := sb2.AsBuilder();
    var ub := new UnionBuilder();
    ub.Union([b1, b2]);
    ub.OrderBy(cols);
    ub.Desc();
    ghost var f := ub.Fields();
    assert f == Fresh.(opt := DistinctOpt, builders := [b1, b2], orderByCols := cols, order := "DESC");
    NestedsTwo(b1, b2);
    sql, values := ub.Build([]);
    TwoUnionOut(f, ub.args.Snapshot(), b1, b2, cols);
  }

  lemma NestedsTwo(b1: Builder, b2: Builder)
    ensures Nesteds([b1, b2]) == [Nested(b1), Nested(b2)]
  {
  }
}
