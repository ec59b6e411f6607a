/** The placeholder compilation engine of the pgsql builders (args.go), with the
    Builder capability of builder.go that the engine calls back into for nested
    builders.

    A template mixes literal SQL with references to staged arguments:
      `$$` a literal `$`;  `$<digits>` the staged argument at that position;
      `$?` the argument at the successive cursor;  `${name}` a named argument;
      a trailing `$`, and any other `$x`, stay literal.
    Every referenced argument is flattened into driver placeholders `$1`, `$2`, ...
    numbered by the current length of the output value list. */
module Args {
  import opened Text

  /** A value bound to a placeholder; the engine never looks inside it. */
  datatype Value = Int(i: int) | Str(s: string)

  /** A staged argument: the closed set of kinds compileArg distinguishes. */
  datatype Arg =
    | Plain(value: Value)
    | Raw(expr: string)
    | List(items: seq<Arg>)
    | Nested(builder: Builder)

  /** SQL text together with the values its placeholders stand for. */
  datatype Output = Output(sql: string, values: seq<Arg>)

  /** The reference one `$` form makes. */
  datatype Ref =
    | NoRef
    | ByName(pos: nat)      // `${name}`: leaves the successive cursor alone
    | ByPosition(pos: nat)  // `$<digits>` and `$?`: move the successive cursor

  /** How the scanner reads the text after one `$`: the literal it writes, the
      reference it makes, and where scanning resumes. */
  datatype Step = Step(literal: string, ref: Ref, rest: string)

  /** `$` followed by the decimal text of n: the token Add returns for staged
      position n, and the placeholder emitted for output slot n. */
  function Token(n: nat): (t: string)
    ensures |t| >= 2 && t[0] == '$' && t[1..] == Decimal(n)
  {
    "$" + Decimal(n)
  }

  // ---------------------------------------------------------------------------
  // Specification of compilation

  /** What compileArg writes for one argument and the values it leaves. */
  function ArgOut(a: Arg, values: seq<Arg>): (r: Output)
    decreases a
    ensures values <= r.values
  {
    match a
    case Plain(_) => Output(Token(|values| + 1), values + [a])
    case Raw(expr) => Output(expr, values)
    case List(items) => ItemsOut(items, values)
    case Nested(b) => BuildOut(b, values)
  }

  /** A list: each item in order, separated by ", "; nothing for the empty list. */
  function ItemsOut(items: seq<Arg>, values: seq<Arg>): (r: Output)
    decreases items
    ensures values <= r.values
  {
    if |items| == 0 then Output("", values)
    else if |items| == 1 then ArgOut(items[0], values)
    else
      var init := ItemsOut(items[..|items| - 1], values);
      var last := ArgOut(items[|items| - 1], init.values);
      Output(init.sql + ", " + last.sql, last.values)
  }

  /** A nested builder compiled with the current values as its initial values. */
  function BuildOut(b: Builder, initial: seq<Arg>): (r: Output)
    decreases b
    ensures initial <= r.values
  {
    match b
    case Compiled(format, reg) => CompileOut(reg, format, initial)
    case Flavored(inner) => BuildOut(inner, initial)
  }

  /** Args.Compile: the scan of the template, then the deferred named values. */
  function CompileOut(reg: Registry, format: string, initial: seq<Arg>): (r: Output)
    decreases reg
    ensures initial <= r.values
  {
    var scanned := ScanOut(reg, format, initial, 0);
    Output(scanned.sql, scanned.values + Deferred(reg))
  }

  /** compileSuccessive: the argument at position p, or nothing when p is out of range. */
  function SuccessiveOut(reg: Registry, values: seq<Arg>, p: nat): (r: Output)
    decreases reg, 0
    ensures values <= r.values
  {
    if p < |reg.staged| then ArgOut(reg.staged[p], values) else Output("", values)
  }

  function RefOut(reg: Registry, ref: Ref, values: seq<Arg>): (r: Output)
    decreases reg, 1
    ensures values <= r.values
  {
    match ref
    case NoRef => Output("", values)
    case ByName(p) => SuccessiveOut(reg, values, p)
    case ByPosition(p) => SuccessiveOut(reg, values, p)
  }

  /** The successive cursor after a reference: a positional reference to p leaves
      it at p + 1 when p is in range and at p otherwise; a named one leaves it alone. */
  function NextOffset(reg: Registry, ref: Ref, offset: nat): nat
  {
    match ref
    case ByPosition(p) => if p < |reg.staged| then p + 1 else p
    case _ => offset
  }

  /** compileNamed on the text after `$`, which starts with `{`. */
  function NamedStep(reg: Registry, f: string): (st: Step)
    requires f != [] && f[0] == '{'
    ensures |st.rest| <= |f|
  {
    var close := IndexOf(f[1..], '}');
    if close < 0 then Step("", NoRef, f)
    else
      var name := f[1..close + 1];
      Step("", if name in reg.named then ByName(reg.named[name]) else NoRef, f[close + 2..])
  }

  /** compileDigits on the text after `$`, which starts with a digit. */
  function DigitsStep(f: string): (st: Step)
    requires f != [] && IsDigit(f[0])
    ensures |st.rest| < |f|
  {
    var n := DigitRun(f);
    Step("", ByPosition(ParseDecimal(f[..n])), f[n..])
  }

  /** The dispatch of Compile's loop on the character after a `$`. */
  function Classify(reg: Registry, f: string, offset: nat): (st: Step)
    requires f != []
    ensures |st.rest| <= |f|
  {
    if f[0] == '$' then Step("$", NoRef, f[1..])
    else if f[0] == '{' then NamedStep(reg, f)
    else if !reg.onlyNamed && IsDigit(f[0]) then DigitsStep(f)
    else if !reg.onlyNamed && f[0] == '?' then Step("", ByPosition(offset), f[1..])
    else Step("$", NoRef, f)
  }

  /** The loop of Compile from a remaining template, current values and cursor. */
  function ScanOut(reg: Registry, format: string, values: seq<Arg>, offset: nat): (r: Output)
    decreases reg, |format| + 2
    ensures values <= r.values
  {
    var idx := IndexOf(format, '$');
    if idx < 0 then Output(format, values)
    else if idx + 1 == |format| then Output(format[..idx] + "$", values)
    else
      var st := Classify(reg, format[idx + 1..], offset);
      var o := RefOut(reg, st.ref, values);
      var tail := ScanOut(reg, st.rest, o.values, NextOffset(reg, st.ref, offset));
      Output(format[..idx] + st.literal + o.sql + tail.sql, tail.values)
  }

  /** The positions below n that belong to s, in ascending order. */
  function Ascending(s: set<nat>, n: nat): (ps: seq<nat>)
    ensures forall i, j :: 0 <= i < j < |ps| ==> ps[i] < ps[j]
    ensures forall i :: 0 <= i < |ps| ==> ps[i] < n && ps[i] in s
    ensures forall p :: p in s && p < n ==> p in ps
  {
    if n == 0 then [] else Ascending(s, n - 1) + (if n - 1 in s then [n - 1] else [])
  }

  lemma {:induction false} AscendingNone(n: nat)
    ensures Ascending({}, n) == []
  {
    if n > 0 {
      AscendingNone(n - 1);
    }
  }

  /** The deferred named positions, sorted as sort.Ints leaves them. */
  function DeferredPositions(reg: Registry): (ps: seq<nat>)
    ensures forall i, j :: 0 <= i < j < |ps| ==> ps[i] < ps[j]
    ensures forall i :: 0 <= i < |ps| ==> ps[i] < |reg.staged| && ps[i] in reg.sqlNamed.Values
    ensures forall p :: p in reg.sqlNamed.Values && p < |reg.staged| ==> p in ps
  {
    Ascending(reg.sqlNamed.Values, |reg.staged|)
  }

  /** The staged arguments of the deferred named positions, appended as they are. */
  function Deferred(reg: Registry): (d: seq<Arg>)
  {
    var ps := DeferredPositions(reg);
    seq(|ps|, i requires 0 <= i < |ps| => reg.staged[ps[i]])
  }

  /** No deferred names, no deferred values. */
  lemma NoDeferred(reg: Registry, values: seq<Arg>)
    requires reg.sqlNamed == map[]
    ensures Deferred(reg) == [] && values + Deferred(reg) == values
  {
    assert reg.sqlNamed.Values == {};
    AscendingNone(|reg.staged|);
  }

  /** Without SQL-named arguments, compiling is the scan from cursor 0. */
  lemma CompileIsScan(reg: Registry, format: string, initial: seq<Arg>)
    requires reg.sqlNamed == map[]
    ensures CompileOut(reg, format, initial) == ScanOut(reg, format, initial, 0)
  {
    NoDeferred(reg, ScanOut(reg, format, initial, 0).values);
  }

  // ---------------------------------------------------------------------------
  // One step of the scan for each form after a `$`

  /** Text without `$` is copied as it is, and no value is added. */
  lemma ScanLiteral(reg: Registry, text: string, values: seq<Arg>, offset: nat)
    requires '$' !in text
    ensures ScanOut(reg, text, values, offset) == Output(text, values)
  {
  }

  /** A `$` that ends the template is written as a literal `$`. */
  lemma ScanTrailingDollar(reg: Registry, pre: string, values: seq<Arg>, offset: nat)
    requires '$' !in pre
    ensures ScanOut(reg, pre + "$", values, offset) == Output(pre + "$", values)
  {
    IndexOfAfter(pre, '$', "");
    assert pre + "$" == pre + ['$'] + "";
  }

  /** One scan step at the first `$` of a template, read through Classify. */
  lemma ScanAt(reg: Registry, pre: string, f: string, values: seq<Arg>, offset: nat)
    requires '$' !in pre && f != []
    ensures var st := Classify(reg, f, offset);
      var o := RefOut(reg, st.ref, values);
      var tail := ScanOut(reg, st.rest, o.values, NextOffset(reg, st.ref, offset));
      ScanOut(reg, pre + "$" + f, values, offset) == Output(pre + st.literal + o.sql + tail.sql, tail.values)
  {
    var s := pre + "$" + f;
    IndexOfAfter(pre, '$', f);
    assert s == pre + ['$'] + f;
    assert s[|pre| + 1..] == f && s[..|pre|] == pre;
  }

  /** `$$` writes a single `$`; values and the cursor are left as they were. */
  lemma ScanEscape(reg: Registry, pre: string, rest: string, values: seq<Arg>, offset: nat)
    requires '$' !in pre
    ensures var tail := ScanOut(reg, rest, values, offset);
      ScanOut(reg, pre + "$$" + rest, values, offset) == Output(pre + "$" + tail.sql, tail.values)
  {
    ScanAt(reg, pre, ['$'] + rest, values, offset);
    SplitPair(pre, '$', '$', rest);
    ClassifyEscape(reg, rest, offset);
    Unit(pre + "$");
  }

  /** `${name}` writes the named argument when the name is known and nothing
      otherwise; it never moves the successive cursor. An unterminated `${`
      drops the `$` and scanning resumes at the `{`. */
  lemma ScanNamed(reg: Registry, pre: string, f: string, values: seq<Arg>, offset: nat)
    requires '$' !in pre && f != [] && f[0] == '{'
    ensures var st := NamedStep(reg, f);
      var o := RefOut(reg, st.ref, values);
      var tail := ScanOut(reg, st.rest, o.values, offset);
      ScanOut(reg, pre + "$" + f, values, offset) == Output(pre + o.sql + tail.sql, tail.values)
  {
    ScanAt(reg, pre, f, values, offset);
    ClassifyNamed(reg, f, offset);
    Unit(pre);
  }

  /** `$<digits>` writes the argument at that position (nothing when out of
      range) and sets the cursor just after it (to the position itself when
      out of range). */
  lemma ScanDigits(reg: Registry, pre: string, f: string, values: seq<Arg>, offset: nat)
    requires '$' !in pre && f != [] && IsDigit(f[0]) && !reg.onlyNamed
    ensures var st := DigitsStep(f);
      var o := RefOut(reg, st.ref, values);
      var tail := ScanOut(reg, st.rest, o.values, NextOffset(reg, st.ref, offset));
      ScanOut(reg, pre + "$" + f, values, offset) == Output(pre + o.sql + tail.sql, tail.values)
  {
    ScanAt(reg, pre, f, values, offset);
    assert Classify(reg, f, offset) == DigitsStep(f);
    Unit(pre);
  }

  /** `$?` writes the argument at the cursor and advances the cursor by one;
      at or past the end it writes nothing and the cursor stays. */
  lemma ScanSuccessive(reg: Registry, pre: string, rest: string, values: seq<Arg>, offset: nat)
    requires '$' !in pre && !reg.onlyNamed
    ensures var o := SuccessiveOut(reg, values, offset);
      var tail := ScanOut(reg, rest, o.values, if offset < |reg.staged| then offset + 1 else offset);
      ScanOut(reg, pre + "$?" + rest, values, offset) == Output(pre + o.sql + tail.sql, tail.values)
  {
    ScanAt(reg, pre, ['?'] + rest, values, offset);
    SplitPair(pre, '$', '?', rest);
    ClassifySuccessive(reg, rest, offset);
    var st := Classify(reg, ['?'] + rest, offset);
    assert st.ref == ByPosition(offset) && st.rest == rest && st.literal == "";
    var o := RefOut(reg, st.ref, values);
    assert o == SuccessiveOut(reg, values, offset);
    assert NextOffset(reg, st.ref, offset) == if offset < |reg.staged| then offset + 1 else offset;
    Unit(pre);
  }

  /** Any other `$x` writes a literal `$` and keeps `x` as text to be scanned;
      with onlyNamed set this includes `$?` and `$<digit>`. */
  lemma ScanUnknown(reg: Registry, pre: string, f: string, values: seq<Arg>, offset: nat)
    requires '$' !in pre && f != [] && f[0] != '$' && f[0] != '{'
    requires reg.onlyNamed || (!IsDigit(f[0]) && f[0] != '?')
    ensures var tail := ScanOut(reg, f, values, offset);
      ScanOut(reg, pre + "$" + f, values, offset) == Output(pre + "$" + tail.sql, tail.values)
  {
    ScanAt(reg, pre, f, values, offset);
    assert Classify(reg, f, offset) == Step("$", NoRef, f);
    Unit(pre + "$");
  }

  /** Classify on `$$`: the second `$` is consumed and the rest is scanned next. */
  lemma ClassifyEscape(reg: Registry, rest: string, offset: nat)
    ensures Classify(reg, ['$'] + rest, offset) == Step("$", NoRef, rest)
  {
    assert (['$'] + rest)[1..] == rest;
  }

  /** Classify on `$?`: a positional reference to the cursor. */
  lemma ClassifySuccessive(reg: Registry, rest: string, offset: nat)
    requires !reg.onlyNamed
    ensures Classify(reg, ['?'] + rest, offset) == Step("", ByPosition(offset), rest)
  {
    assert (['?'] + rest)[1..] == rest;
  }

  /** Classify hands `{` to NamedStep, which never moves the cursor. */
  lemma ClassifyNamed(reg: Registry, f: string, offset: nat)
    requires f != [] && f[0] == '{'
    ensures Classify(reg, f, offset) == NamedStep(reg, f)
    ensures NextOffset(reg, NamedStep(reg, f).ref, offset) == offset
  {
  }

  /** The references with nothing to write. */
  lemma NoRefOut(reg: Registry, values: seq<Arg>)
    ensures RefOut(reg, NoRef, values) == Output("", values)
  {
  }

  /** A two-character form after pre, read as `$` and then the text after it. */
  lemma SplitPair(pre: string, a: char, b: char, rest: string)
    ensures pre + [a, b] + rest == pre + [a] + ([b] + rest)
  {
  }

  lemma Unit(a: string)
    ensures a + "" == a
  {
  }

  /** A list of one item writes that item alone. */
  lemma ItemsOutFirst(items: seq<Arg>, values: seq<Arg>)
    requires |items| >= 1
    ensures ItemsOut(items[..1], values) == ArgOut(items[0], values)
  {
    assert items[..1] == [items[0]];
  }

  /** One more item of a list: ", " and the item after the items before it. */
  lemma ItemsOutSnoc(items: seq<Arg>, i: nat, values: seq<Arg>)
    requires 1 <= i < |items|
    ensures var init := ItemsOut(items[..i], values);
      var last := ArgOut(items[i], init.values);
      ItemsOut(items[..i + 1], values) == Output(init.sql + ", " + last.sql, last.values)
  {
    assert items[..i + 1][..i] == items[..i];
  }

  lemma ItemsStep(buf: string, values: seq<Arg>, items: seq<Arg>, i: nat,
                  buf0: string, values0: seq<Arg>, buf1: string, values1: seq<Arg>)
    requires 1 <= i < |items|
    requires buf0 == buf + ItemsOut(items[..i], values).sql && values0 == ItemsOut(items[..i], values).values
    requires buf1 == buf0 + ", " + ArgOut(items[i], values0).sql && values1 == ArgOut(items[i], values0).values
    ensures buf1 == buf + ItemsOut(items[..i + 1], values).sql && values1 == ItemsOut(items[..i + 1], values).values
  {
    ItemsOutSnoc(items, i, values);
    Regroup(buf, ItemsOut(items[..i], values).sql, ", ", ArgOut(items[i], values0).sql);
  }

  /** A text is its part before index i, the character at i, and the part after. */
  lemma SplitAt(s: string, i: nat)
    requires i < |s|
    ensures s == s[..i] + [s[i]] + s[i + 1..]
  {
  }

  lemma Regroup(a: string, b: string, c: string, d: string)
    ensures a + b + c + d == a + (b + c + d)
  {
  }

  lemma Regroup5(a: string, b: string, c: string, d: string, e: string)
    ensures a + (b + c + d + e) == a + b + (c + d) + e
  {
  }

  // ---------------------------------------------------------------------------
  // The engine, as args.go runs it

  datatype Builder = Compiled(format: string, reg: Registry) | Flavored(inner: Builder)
  {
    /** compiledBuilder.BuildWithFlavor compiles its format with the initial
        values; flavoredBuilder.BuildWithFlavor passes them to the wrapped builder. */
    method BuildWithFlavor(initial: seq<Arg>) returns (sql: string, values: seq<Arg>)
      decreases this
      ensures Output(sql, values) == BuildOut(this, initial)
      ensures initial <= values
    {
      match this
      case Compiled(format, reg) =>
        sql, values := reg.Compile(format, initial);
      case Flavored(inner) =>
        sql, values := inner.BuildWithFlavor(initial);
    }

    /** compiledBuilder.Build compiles with no initial values; flavoredBuilder.Build
        calls the wrapped builder's BuildWithFlavor with none. */
    method Build() returns (sql: string, values: seq<Arg>)
      ensures Output(sql, values) == BuildOut(this, [])
    {
      match this
      case Compiled(format, reg) =>
        sql, values := reg.Compile(format, []);
      case Flavored(inner) =>
        sql, values := inner.BuildWithFlavor([]);
    }
  }

  /** The state of an Args registry as the compiler reads it: the staged
      arguments, the name tables and the onlyNamed switch. */
  datatype Registry = Registry(
    staged: seq<Arg>,
    named: map<string, nat>,
    sqlNamed: map<string, nat>,
    onlyNamed: bool)
  {
    /** Scanning `rest` from these values and cursor, after the text already
        written to `buf`, completes the scan of the whole template. */
    ghost predicate Resumes(buf: string, rest: string, values: seq<Arg>, offset: nat, whole: Output)
    {
      var t := ScanOut(this, rest, values, offset);
      buf + t.sql == whole.sql && t.values == whole.values
    }

    /** Two points of the scan that lead to the same text and values. */
    ghost predicate SameScan(buf: string, rest: string, values: seq<Arg>, offset: nat,
                             buf1: string, rest1: string, values1: seq<Arg>, offset1: nat)
    {
      var t := ScanOut(this, rest, values, offset);
      var t1 := ScanOut(this, rest1, values1, offset1);
      buf + t.sql == buf1 + t1.sql && t.values == t1.values
    }

    /** A `$` that ends the template is written as it is. */
    lemma StepTrailing(done: string, line: string, values: seq<Arg>, offset: nat)
      requires line != [] && IndexOf(line, '$') == |line| - 1
      ensures var idx := |line| - 1;
        SameScan(done, line, values, offset,
          (if idx > 0 then done + line[..idx] else done) + "$", "", values, offset)
    {
      var idx := |line| - 1;
      var pre := line[..idx];
      SplitAt(line, idx);
      assert line == pre + "$";
      ScanTrailingDollar(this, pre, values, offset);
      Regroup(done, pre, "$", "");
      if idx == 0 {
        assert done + pre == done;
      }
    }

    /** After the first `$` of a template, the scan goes on wherever Classify says
        the form ends. */
    lemma StepAt(done: string, line: string, idx: nat, values: seq<Arg>, offset: nat)
      requires idx + 1 < |line| && IndexOf(line, '$') == idx
      ensures var st := Classify(this, line[idx + 1..], offset);
        var o := RefOut(this, st.ref, values);
        SameScan(done, line, values, offset,
          (if idx > 0 then done + line[..idx] else done) + (st.literal + o.sql),
          st.rest, o.values, NextOffset(this, st.ref, offset))
    {
      var pre, f := line[..idx], line[idx + 1..];
      SplitAt(line, idx);
      assert line == pre + "$" + f;
      var st := Classify(this, f, offset);
      var o := RefOut(this, st.ref, values);
      var tail := ScanOut(this, st.rest, o.values, NextOffset(this, st.ref, offset));
      ScanAt(this, pre, f, values, offset);
      assert ScanOut(this, line, values, offset).sql == pre + st.literal + o.sql + tail.sql;
      Regroup5(done, pre, st.literal, o.sql, tail.sql);
      if idx == 0 {
        assert done + pre == done;
      }
    }

    /** Once no `$` is left, the rest of the template is copied as it is. */
    lemma ResumesEnd(done: string, rest: string, values: seq<Arg>, offset: nat, whole: Output)
      requires '$' !in rest && Resumes(done, rest, values, offset, whole)
      ensures whole == Output(if rest == [] then done else done + rest, values)
    {
      ScanLiteral(this, rest, values, offset);
      if rest == [] {
        assert done + rest == done;
      }
    }

    /** Args.Compile: rewrites the template into driver placeholders and
        collects the values they stand for, after the initial values; the
        deferred named values come last. */
    method Compile(format: string, initial: seq<Arg>) returns (query: string, values: seq<Arg>)
      decreases this, 6
      ensures Output(query, values) == CompileOut(this, format, initial)
      ensures initial <= values
    {
      query, values := Scan(format, initial);
      values := AppendDeferred(values);
    }

    /** The loop of Args.Compile over the `$` signs of the template. */
    method Scan(format: string, initial: seq<Arg>) returns (query: string, values: seq<Arg>)
      decreases this, 5
      ensures Output(query, values) == ScanOut(this, format, initial, 0)
    {
      ghost var whole := ScanOut(this, format, initial, 0);
      var buf := "";
      var rest := format;
      var idx := IndexOf(rest, '$');
      var offset: nat := 0;
      values := initial;
      while idx >= 0 && |rest| > 0
        invariant idx == IndexOf(rest, '$')
        invariant Resumes(buf, rest, values, offset, whole)
        decreases |rest|
      {
        ghost var buf0, rest0, values0, offset0 := buf, rest, values, offset;
        buf, rest, values, offset := CompileAt(buf, rest, idx, values, offset);
        assert Resumes(buf, rest, values, offset, whole) by {
          assert Resumes(buf0, rest0, values0, offset0, whole);
          assert SameScan(buf0, rest0, values0, offset0, buf, rest, values, offset);
        }
        idx := IndexOf(rest, '$');
      }
      ResumesEnd(buf, rest, values, offset, whole);
      if |rest| > 0 {
        buf := buf + rest;
      }
      query := buf;
    }

    /** One pass of Compile's loop: the text before the first `$` is copied, a
        trailing `$` is written as it is (and the empty rest ends the loop, as
        the break does), and any other form goes to the switch. */
    method CompileAt(buf: string, rest: string, idx: int, values: seq<Arg>, offset: nat)
      returns (buf1: string, rest1: string, values1: seq<Arg>, offset1: nat)
      requires idx >= 0 && idx == IndexOf(rest, '$')
      decreases this, 4
      ensures |rest1| < |rest|
      ensures SameScan(buf, rest, values, offset, buf1, rest1, values1, offset1)
    {
      buf1 := buf;
      if idx > 0 {
        buf1 := buf1 + rest[..idx];
      }
      rest1 := rest[idx + 1..];
      if |rest1| == 0 {
        StepTrailing(buf, rest, values, offset);
        buf1, values1, offset1 := buf1 + "$", values, offset;
      } else {
        StepAt(buf, rest, idx, values, offset);
        buf1, rest1, values1, offset1 := CompileSigil(buf1, rest1, values, offset);
      }
    }

    /** The switch of Compile's loop on the text after a `$`, which is not empty. */
    method CompileSigil(buf: string, format: string, values: seq<Arg>, offset: nat)
      returns (buf1: string, format1: string, values1: seq<Arg>, offset1: nat)
      requires format != []
      decreases this, 3
      ensures var st := Classify(this, format, offset);
        var o := RefOut(this, st.ref, values);
        && buf1 == buf + (st.literal + o.sql)
        && format1 == st.rest
        && values1 == o.values
        && offset1 == NextOffset(this, st.ref, offset)
    {
      match format[0]
      case '$' =>
        buf1, format1, values1, offset1 := buf + "$", format[1..], values, offset;
        LiteralSigil(buf);
      case '{' =>
        buf1, format1, values1 := CompileNamed(buf, format, values);
        offset1 := offset;
      case r =>
        if !onlyNamed && IsDigit(r) {
          buf1, format1, values1, offset1 := CompileDigits(buf, format, values, offset);
        } else if !onlyNamed && r == '?' {
          buf1, format1, values1, offset1 := CompileSuccessive(buf, format[1..], values, offset);
        } else {
          buf1, format1, values1, offset1 := buf + "$", format, values, offset;
          LiteralSigil(buf);
        }
    }

    lemma LiteralSigil(buf: string)
      ensures buf + ("$" + "") == buf + "$"
    {
    }

    /** The end of Compile: the values of the deferred named arguments, in
        ascending position order, after the scanned values. */
    method AppendDeferred(values: seq<Arg>) returns (values1: seq<Arg>)
      ensures values1 == values + Deferred(this)
    {
      values1 := values;
      if |sqlNamed| > 0 {
        var ints := DeferredPositions(this);
        var k := 0;
        while k < |ints|
          invariant 0 <= k <= |ints|
          invariant values1 == values + Deferred(this)[..k]
        {
          values1 := values1 + [staged[ints[k]]];
          k := k + 1;
        }
      } else {
        assert sqlNamed.Values == {};
        AscendingNone(|staged|);
      }
    }

    /** compileNamed: `format` starts with the `{` after a `$`. */
    method CompileNamed(buf: string, format: string, values: seq<Arg>)
      returns (buf1: string, format1: string, values1: seq<Arg>)
      requires format != [] && format[0] == '{'
      decreases this, 2
      ensures var st := NamedStep(this, format);
        && format1 == st.rest
        && buf1 == buf + RefOut(this, st.ref, values).sql
        && values1 == RefOut(this, st.ref, values).values
    {
      var i := 1;
      while i < |format| && format[i] != '}'
        invariant 1 <= i <= |format|
        invariant '}' !in format[1..i]
      {
        i := i + 1;
      }
      if i == |format| {
        assert format[1..] == format[1..i];
        return buf, format, values;
      }
      assert format[1..][i - 1] == '}' && format[1..][..i - 1] == format[1..i];
      var name := format[1..i];
      buf1, format1, values1 := buf, format[i + 1..], values;
      if name in named {
        var discarded;
        buf1, format1, values1, discarded := CompileSuccessive(buf, format1, values, named[name]);
      }
    }

    /** compileDigits: `format` starts with the digit after a `$`. */
    method CompileDigits(buf: string, format: string, values: seq<Arg>, offset: nat)
      returns (buf1: string, format1: string, values1: seq<Arg>, offset1: nat)
      requires format != [] && IsDigit(format[0])
      decreases this, 2
      ensures var st := DigitsStep(format);
        && format1 == st.rest
        && buf1 == buf + RefOut(this, st.ref, values).sql
        && values1 == RefOut(this, st.ref, values).values
        && offset1 == NextOffset(this, st.ref, offset)
    {
      var i := 1;
      while i < |format| && IsDigit(format[i])
        invariant 1 <= i <= |format|
        invariant AllDigits(format[..i])
      {
        i := i + 1;
      }
      DigitRunIs(format, i);
      var digits := format[..i];
      buf1, format1, values1, offset1 := CompileSuccessive(buf, format[i..], values, ParseDecimal(digits));
    }

    /** compileSuccessive: the staged argument at `offset`, then the cursor after it. */
    method CompileSuccessive(buf: string, format: string, values: seq<Arg>, offset: nat)
      returns (buf1: string, format1: string, values1: seq<Arg>, offset1: nat)
      decreases this, 1
      ensures format1 == format
      ensures buf1 == buf + SuccessiveOut(this, values, offset).sql
      ensures values1 == SuccessiveOut(this, values, offset).values
      ensures offset1 == if offset < |staged| then offset + 1 else offset
    {
      if offset >= |staged| {
        return buf, format, values, offset;
      }
      var arg := staged[offset];
      buf1, values1 := CompileArg(buf, values, arg);
      format1, offset1 := format, offset + 1;
    }

    /** compileArg: writes one argument and returns the values after it. */
    method CompileArg(buf: string, values: seq<Arg>, arg: Arg)
      returns (buf1: string, values1: seq<Arg>)
      decreases arg
      ensures buf1 == buf + ArgOut(arg, values).sql
      ensures values1 == ArgOut(arg, values).values
    {
      match arg
      case Nested(b) =>
        var s;
        s, values1 := b.BuildWithFlavor(values);
        buf1 := buf + s;
      case Raw(expr) =>
        buf1, values1 := buf + expr, values;
      case List(items) =>
        buf1, values1 := CompileList(buf, values, items);
      case Plain(_) =>
        buf1 := buf + Token(|values| + 1);
        values1 := values + [arg];
    }

    /** The list case of compileArg: the items in order, separated by ", ". */
    method CompileList(buf: string, values: seq<Arg>, items: seq<Arg>)
      returns (buf1: string, values1: seq<Arg>)
      decreases items
      ensures buf1 == buf + ItemsOut(items, values).sql
      ensures values1 == ItemsOut(items, values).values
    {
      buf1, values1 := buf, values;
      if |items| == 0 {
        return;
      }
      buf1, values1 := CompileArg(buf1, values1, items[0]);
      ItemsOutFirst(items, values);
      var i := 1;
      while i < |items|
        invariant 1 <= i <= |items|
        invariant buf1 == buf + ItemsOut(items[..i], values).sql
        invariant values1 == ItemsOut(items[..i], values).values
      {
        ghost var buf0, values0 := buf1, values1;
        buf1, values1 := CompileArg(buf1 + ", ", values1, items[i]);
        ItemsStep(buf, values, items, i, buf0, values0, buf1, values1);
        i := i + 1;
      }
      assert items[..i] == items;
    }
  }

  /** The Args registry: an append-only list of staged arguments plus the name
      tables; Compile reads it and never changes it. */
  class Args {
    var staged: seq<Arg>
    var named: map<string, nat>
    var sqlNamed: map<string, nat>
    var onlyNamed: bool

    constructor ()
      ensures staged == [] && named == map[] && sqlNamed == map[] && !onlyNamed
    {
      staged, named, sqlNamed, onlyNamed := [], map[], map[], false;
    }

    function Snapshot(): Registry
      reads this
    {
      Registry(staged, named, sqlNamed, onlyNamed)
    }

    /** Args.add: appends the argument and returns its 0-based position. */
    method Append(arg: Arg) returns (idx: nat)
      modifies this
      ensures staged == old(staged) + [arg]
      ensures idx == |old(staged)|
      ensures named == old(named) && sqlNamed == old(sqlNamed) && onlyNamed == old(onlyNamed)
    {
      idx := |staged|;
      staged := staged + [arg];
    }

    /** Args.Add: stages the argument and returns the token `$<position>` that
        refers to it in a template. */
    method Add(arg: Arg) returns (token: string)
      modifies this
      ensures staged == old(staged) + [arg]
      ensures token == Token(|old(staged)|)
      ensures named == old(named) && sqlNamed == old(sqlNamed) && onlyNamed == old(onlyNamed)
    {
      var idx := Append(arg);
      token := Token(idx);
    }

    /** Args.Compile, which only reads the registry. */
    method Compile(format: string, initial: seq<Arg>) returns (query: string, values: seq<Arg>)
      ensures Output(query, values) == CompileOut(Snapshot(), format, initial)
      ensures initial <= values
    {
      query, values := Snapshot().Compile(format, initial);
    }
  }
}
