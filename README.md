# pgsql placeholder engine and clause builders, in Dafny

This project models the core of the Go package `pgsql`, a SQL builder for PostgreSQL.

**The compile engine.** `Args` is an append-only registry of staged arguments. `Add` stages one argument and returns its token `$k`, where k is the argument's 0-based position. `Compile` scans a template from left to right:

- `$$` becomes a `$`.
- A trailing `$` stays as it is.
- `$<digits>` refers to a staged argument by position.
- `$?` takes the argument at the successive cursor.
- `${name}` refers to a named argument.
- Any other `$x` stays literal.

Every referenced argument is written as a driver placeholder `$1`, `$2`, …, numbered by the current length of the output value list. Four kinds of argument are handled:

- A plain value becomes one placeholder and one value.
- A raw expression is written verbatim.
- A list becomes its items separated by `", "`.
- A nested builder is compiled with the values collected so far, so its placeholders continue the outer numbering.

Finally, the values of the deferred SQL-named positions are appended in ascending order.

Where the code and its comments differ, the model follows the code:

- A found `${name}` leaves the successive cursor where it was.
- An unterminated `${` drops the `$` and keeps `{` and the rest as text.
- Deferred SQL-named values are appended raw, with no placeholder text, one for every SQL-named entry, in ascending position order.

**The clause builders.** The SELECT, INSERT, UPDATE, DELETE and UNION builders are classes whose setters replace or extend fields. Their `Build` writes each clause only under its condition and then compiles the text with the builder's registry.

**Modules.**
- `Text`: decimal text and its parser, `Join`, `IndexOf`.
- `Args`: the specification functions (`ScanOut`, `CompileOut`, `ArgOut`, …), the imperative engine as methods proved equal to them, and the `Args` class.
- `ArgsLemmas`: what compiling woven templates yields.
- `Builders`: `builder.go`.
- `Clauses`: the optional clauses shared by the builders, with writer methods.
- One module per clause builder: `Select`, `Insert`, `Update`, `Delete`, `Union`.

Every `Build` method is proved equal to the compile specification applied to a pure `Template` of the builder's fields. Every setter states the builder's whole new state. Scenario methods drive fresh builders through their setters and prove the exact SQL text and values that the repository's tests pin, stated for arbitrary table, column and condition texts that contain no `$`.

## Model

| member | source | states |
|---|---|---|
| Args.Token | args.go:32-40 | The token for position n is `$` followed by the decimal text of n. |
| ArgsLemmas.TokenRoundTrip | args.go:32-40 | Reading back the digits of the token for n yields n. |
| Args.ArgOut | args.go:167-191 | Compiling one argument only extends the value list; earlier values are kept as a prefix. |
| Args.ItemsOut | args.go:175-183 | A list's items are compiled in order, and the values only grow. |
| Args.BuildOut | builder.go:18-36 | A builder compiled with initial values keeps them as a prefix of its values. |
| Args.CompileOut | args.go:57-115 | Compiling keeps the initial values as a prefix of the result values. |
| Args.CompileIsScan | args.go:57-115 | With no deferred names, compiling is exactly the scan of the template from cursor 0. |
| Args.ScanOut | args.go:63-95 | The scanning loop only appends values. |
| Args.SuccessiveOut | args.go:156-165 | A reference in range compiles that staged argument; out of range it writes nothing; values only grow. |
| Args.NamedStep | args.go:117-137 | `${name}` never lengthens the remaining template. |
| Args.DigitsStep | args.go:139-154 | `$<digits>` consumes at least one digit. |
| Args.Classify | args.go:76-88 | The dispatch after a `$` never lengthens the remaining template. |
| Args.Ascending | args.go:99-107 | The positions come out strictly ascending, exactly those in the set below the bound. |
| Args.DeferredPositions | args.go:99-107 | The deferred positions are strictly ascending, in range, and include every SQL-named position in range. |
| Args.NoDeferred | args.go:99-112 | Without SQL-named arguments nothing is appended after the scan. |
| Args.ScanLiteral | args.go:93-95 | Text without `$` is copied unchanged and adds no value. |
| Args.ScanTrailingDollar | args.go:70-73 | A `$` that ends the template is written literally. |
| Args.ScanEscape | args.go:76-78 | `$$` writes one `$` and leaves the values and the cursor unchanged. |
| Args.ScanNamed | args.go:79-80 | `${name}` writes the named argument and never moves the cursor. |
| ArgsLemmas.ScanNamedKnown | args.go:129-134 | A known `${name}` compiles the argument at the name's position; scanning resumes after `}` with the cursor unchanged. |
| ArgsLemmas.ScanNamedUnknown | args.go:132-136 | An unknown name writes nothing; scanning resumes after `}`. |
| ArgsLemmas.ScanUnterminated | args.go:124-126 | An unterminated `${` drops the `$` and keeps the rest, `{` included, as text. |
| Args.ScanDigits | args.go:81-82 | `$<digits>` writes the argument at that position and sets the cursor just after it in range, to the position itself out of range. |
| ArgsLemmas.ScanToken | args.go:139-154 | `$p` followed by a non-digit compiles staged argument p; the cursor moves past it. |
| Args.ScanSuccessive | args.go:83-84 | `$?` writes the argument at the cursor and advances it by one; past the end it writes nothing and the cursor stays. |
| Args.ScanUnknown | args.go:85-88 | Any other `$x` writes `$` and keeps `x`; with onlyNamed set this covers `$?` and `$<digit>` too. |
| Args.ClassifyNamed | args.go:79-80 | The `{` form is dispatched to compileNamed and leaves the cursor unchanged. |
| Args.Builder.BuildWithFlavor | builder.go:22-24 | Equals compiling the format with the initial values; the flavored wrapper passes them through unchanged. |
| Args.Builder.Build | builder.go:18-20 | Equals the build with no initial values; the flavored wrapper calls the wrapped builder's BuildWithFlavor with none. |
| Args.Registry.Compile | args.go:57-115 | The imperative Compile returns exactly CompileOut, and the initial values are a prefix of the result. |
| Args.Registry.Scan | args.go:58-97 | The loop over `$` positions returns exactly ScanOut from cursor 0. |
| Args.Registry.CompileAt | args.go:63-91 | One loop iteration shortens the template and leaves the remaining scan's result unchanged. |
| Args.Registry.AppendDeferred | args.go:99-112 | Appends the deferred staged arguments, raw, in ascending position order. |
| Args.Registry.CompileSuccessive | args.go:156-165 | Writes SuccessiveOut; the cursor becomes offset+1 in range and stays unchanged otherwise. |
| Args.Registry.CompileArg | args.go:167-191 | Writes exactly ArgOut and returns its values. |
| Args.Registry.CompileList | args.go:175-183 | Writes exactly ItemsOut: the items separated by `", "`, nothing for the empty list. |
| Args.Args.Add | args.go:32-40 | Appends exactly the argument and returns the token of its position; names are untouched. |
| Args.Args.Append | args.go:42-47 | Appends one element and returns the old length. |
| Args.Args.Compile | args.go:57-115 | Returns CompileOut of the registry's snapshot, leaves the registry untouched, and keeps the initial values as a prefix. |
| ArgsLemmas.WeavePlains | args.go:184-187 | Plain arguments between literal texts compile to `$n`, numbered after the values before them, with the arguments appended in order. |
| ArgsLemmas.ListOfPlains | args.go:175-187 | A list of n plain items writes n consecutive placeholders separated by `", "` and appends the items in order. |
| ArgsLemmas.CompileNoSigil | args.go:57-115 | A template without `$` and with no deferred names compiles to itself, with the initial values unchanged. |
| ArgsLemmas.ScanWeave | args.go:63-91 | Tokens `$k`, `$k+1`, … between `$`-free texts compile the staged arguments at those positions in order, each after the values before it. |
| ArgsLemmas.ScanChain | args.go:53-91 | n occurrences of `$?` between `$`-free texts, scanned from cursor k, compile the arguments staged at k … k+n-1 in staging order, each after the values before it, so the cursor has moved past all n of them. |
| Builders.Build | builder.go:48-59 | Stages the arguments into a fresh registry in order, so `$i` in the format refers to `arg[i]`. |
| Builders.WithFlavor | builder.go:39-43 | The wrapper builds exactly like the wrapped builder for every initial value list. |
| Builders.BuildWoven | builder.go:48-59 | A format with tokens `$0 … $n-1` compiles its arguments in order after the initial values; nothing is deferred. |
| Builders.CompileWoven | builder.go:48-59 | The registry Build stages, compiling tokens `$0 … $n-1` between `$`-free texts, yields the arguments in order after the initial values. |
| Builders.BuildPlains | builder.go:48-59 | With plain arguments the placeholders are `$m+1 …` after m initial values, and the values are the initial ones followed by the arguments. |
| Builders.CompilePlains | builder.go:48-59 | Plain arguments behind tokens `$0 … $n-1` become the driver placeholders `$1 … $n`, and the values are exactly the arguments. |
| Builders.BuildJoinedPlains | builder.go:48-59 | Joined tokens over plain arguments compile to joined placeholders numbered after the initial values. |
| Builders.CompileChained | builder.go:48-59 | A format that refers to its arguments only by `$?` compiles them in staging order after the initial values; nothing is deferred. |
| Builders.ChainedPlains | builder.go:48-59 | With plain arguments and no initial values, the `$?` references become `$1 … $k` and the values are exactly the staged arguments. |
| Builders.InPair | args.go:53 | `x IN ($?, $?)` with the plain values 1 and 2 compiles to `x IN ($1, $2)` with values 1, 2. |
| Builders.CompileJoinedPlains | builder.go:48-59 | Tokens joined by a separator over plain arguments compile to placeholders `$1 … $n` joined by the same separator. |
| Text.Decimal | args.go:39 | Decimal text is non-empty, all digits, has no leading zero, and is one digit exactly for n < 10. |
| Text.ParseDecimalOfDecimal | args.go:149 | Parsing the decimal text of n yields n. |
| Text.DigitRun | args.go:142-144 | The run of leading digits: all digits, followed by a non-digit or the end. |
| Text.IndexOf | args.go:59 | The first `$`, or -1 exactly when there is none. |
| Text.JoinSnoc | select.go:189 | Joining one more part adds the separator and the part at the end. |
| Text.JoinExcludes | select.go:189 | A character found in neither the parts nor the separator does not appear in their join; this is what keeps every `strings.Join` of the builders free of `$`. |
| Clauses.ListClause | select.go:210-214 | The clause is empty exactly when there are no items, and otherwise starts with its keyword. |
| Clauses.OrderClause | select.go:227-236 | ORDER BY is written exactly when there are columns; the order suffix follows only when the order is set. |
| Clauses.GroupClause | select.go:216-225 | GROUP BY is written exactly when there are columns; HAVING is written only inside it. |
| Clauses.NumberClause | select.go:238-246 | LIMIT or OFFSET is written exactly when the number is at least 0. |
| Clauses.NumberClauseRoundTrip | select.go:238-241 | The number can be read back from the clause. |
| Clauses.TextClause | select.go:248-252 | The FOR clause is written exactly when the text is non-empty, as the keyword followed by the text. |
| Clauses.WriteList | select.go:210-214 | Appends the list clause to the buffer. |
| Clauses.WriteOrder | select.go:227-236 | Appends the ORDER BY clause to the buffer. |
| Clauses.WriteGroup | select.go:216-225 | Appends the GROUP BY and HAVING clauses to the buffer. |
| Clauses.WriteNumber | select.go:238-246 | Appends the LIMIT or OFFSET clause to the buffer. |
| Clauses.WriteText | select.go:248-252 | Appends the FOR clause to the buffer. |
| Select.JoinClause | select.go:194-208 | With neither option nor expressions the join is ` JOIN table`; a non-empty option comes first, after a space. |
| Select.SelectBuilder.constructor | select.go:51-61 | A fresh builder with no LIMIT or OFFSET (-1) and an empty registry. |
| Select.SelectBuilder.Select | select.go:67-70 | Replaces the columns. |
| Select.SelectBuilder.From | select.go:73-76 | Replaces the tables. |
| Select.SelectBuilder.Where | select.go:78-81 | Appends to the WHERE expressions. |
| Select.SelectBuilder.Limit | select.go:83-86 | Sets the limit. |
| Select.SelectBuilder.Offset | select.go:89-92 | Sets the offset. |
| Select.SelectBuilder.Having | select.go:95-98 | Appends to the HAVING expressions. |
| Select.SelectBuilder.GroupBy | select.go:101-104 | Appends to the GROUP BY columns. |
| Select.SelectBuilder.OrderBy | select.go:107-111 | Sets the order and appends the columns. |
| Select.SelectBuilder.OrderByAsc | select.go:114-118 | Sets the order to ASC and appends the columns. |
| Select.SelectBuilder.OrderByDesc | select.go:121-125 | Sets the order to DESC and appends the columns. |
| Select.SelectBuilder.JoinWithOption | select.go:172-177 | Appends one option, table and expression list, keeping the three the same length. |
| Select.SelectBuilder.Join | select.go:150-152 | A join with no option. |
| Select.SelectBuilder.LeftJoin | select.go:154-156 | A join with the LEFT option. |
| Select.SelectBuilder.Render | select.go:183-252 | The buffer Build writes equals the template of the fields. |
| Select.SelectBuilder.WriteJoins | select.go:194-208 | The loop over joins appends each join clause in order. |
| Select.WriteJoin | select.go:195-206 | One join: the option and a space only when set, then JOIN and the table, then ON and the expressions only when there are some. |
| Select.AppendJoin | select.go:194-207 | One turn of the join loop takes the text of the first i joins to that of the first i+1. |
| Select.SelectBuilder.Build | select.go:181-255 | Returns exactly the compilation of the template with the registry and the initial values, which is also what building the builder as a `Builder` value (`AsBuilder`) gives. |
| Select.FreshTemplate | select.go:183-192 | A fresh builder with columns and tables writes `SELECT cols FROM tables` and nothing else. |
| Select.HavingNeedsGroupBy | select.go:216-225 | Without GROUP BY columns, HAVING expressions change nothing. |
| Select.OrderNeedsColumns | select.go:227-236 | Without ORDER BY columns, the order changes nothing. |
| Select.TemplateNoSigil | select.go:181-252 | The text holds no `$` unless one of the fields does. |
| Select.BuildWithoutPlaceholders | select.go:254 | Such a text compiles to itself with the initial values unchanged. |
| Select.Page | select_test.go:21-31 | Select/From/Where/Offset/Limit on a fresh builder build `SELECT … FROM … WHERE … LIMIT n OFFSET m` with no values. |
| Insert.ColsClause | insert.go:97-101 | The column list is written exactly when there are columns, in parentheses after a space. |
| Insert.WriteCols | insert.go:97-101 | Appends to the buffer exactly the column clause: ` (cols)` when there are columns, nothing otherwise. |
| Insert.RowText | insert.go:103-110 | A row is written in parentheses. |
| Insert.RowTexts | insert.go:103-110 | One row text per row, in order. |
| Insert.ConflictClause | insert.go:112-121 | ON CONFLICT is written exactly when there are conflict columns, and DO UPDATE SET only inside it. |
| Insert.WriteConflict | insert.go:112-121 | Appends to the buffer exactly the conflict clause: nothing without conflict columns, and DO UPDATE SET only when there are assignments. |
| Insert.Set | insert.go:80-82 | `col = EXCLUDED.col`, staging nothing. |
| Insert.InsertBuilder.constructor | insert.go:13-19 | A fresh builder with verb INSERT and an empty registry. |
| Insert.InsertBuilder.InsertInto | insert.go:39-42 | Sets the table. |
| Insert.InsertBuilder.Cols | insert.go:45-48 | Replaces the columns. |
| Insert.InsertBuilder.Returning | insert.go:50-53 | Replaces the RETURNING columns. |
| Insert.InsertBuilder.OnConflict | insert.go:68-71 | Replaces the conflict columns. |
| Insert.InsertBuilder.DoUpdate | insert.go:74-77 | Replaces the DO UPDATE assignments. |
| Insert.InsertBuilder.Values | insert.go:56-65 | Stages the values in order and appends one row of exactly their tokens. |
| Insert.InsertBuilder.Assign | insert.go:85-87 | Stages one value and returns `field = $k`. |
| Insert.InsertBuilder.Var | insert.go:132-134 | Stages one value and returns its token. |
| Insert.InsertBuilder.Render | insert.go:93-126 | The buffer Build writes equals the template of the fields. |
| Insert.InsertBuilder.RenderRows | insert.go:103-108 | The row texts, in order. |
| Insert.InsertBuilder.Build | insert.go:91-129 | Returns exactly the compilation of the template, equal to building the builder as a `Builder` value (`AsBuilder`). |
| Insert.DoUpdateNeedsConflict | insert.go:112-121 | Without conflict columns, DO UPDATE assignments change nothing. |
| Insert.TemplateStart | insert.go:93-95 | The text starts with the verb, ` INTO ` and the table. |
| Insert.OneRow | insert_test.go:9-17 | InsertInto/Cols/Values on a fresh builder build `INSERT INTO t (cols) VALUES ($1, …, $n)`, with the values in order. |
| Update.Incr | update.go:74-77 | `f = f + 1`, staging nothing. |
| Update.Decr | update.go:80-83 | `f = f - 1`, staging nothing. |
| Update.UpdateBuilder.constructor | update.go:14-23 | A fresh builder with no LIMIT (-1) and an empty registry. |
| Update.UpdateBuilder.Update | update.go:45-48 | Sets the table. |
| Update.UpdateBuilder.Set | update.go:51-54 | Replaces the assignments. |
| Update.UpdateBuilder.SetMore | update.go:57-60 | Appends to the assignments. |
| Update.UpdateBuilder.Where | update.go:63-66 | Appends to the WHERE expressions. |
| Update.UpdateBuilder.Assign | update.go:69-71 | Stages one value and returns `f = $k`. |
| Update.UpdateBuilder.Add | update.go:86-89 | Stages one value and returns `f = f + $k`. |
| Update.UpdateBuilder.Sub | update.go:92-95 | Stages one value and returns `f = f - $k`. |
| Update.UpdateBuilder.Mul | update.go:98-101 | Stages one value and returns `f = f * $k`. |
| Update.UpdateBuilder.Div | update.go:104-107 | Stages one value and returns `f = f / $k`. |
| Update.UpdateBuilder.OrderBy | update.go:110-113 | Replaces the ORDER BY columns. |
| Update.UpdateBuilder.Asc | update.go:116-119 | Sets the order to ASC. |
| Update.UpdateBuilder.Desc | update.go:122-125 | Sets the order to DESC. |
| Update.UpdateBuilder.Limit | update.go:128-131 | Sets the limit. |
| Update.UpdateBuilder.String | update.go:134-137 | The SQL text of a build with no initial values. |
| Update.UpdateBuilder.Render | update.go:143-169 | The buffer Build writes equals the template of the fields. |
| Update.UpdateBuilder.Build | update.go:141-172 | Returns exactly the compilation of the template, equal to building the builder as a `Builder` value (`AsBuilder`). |
| Update.LimitOnlyWhenSet | update.go:165-169 | LIMIT n is the only addition the limit makes, and it is empty exactly when n < 0. |
| Update.AssignWhere | update_test.go:23-46 | Assign in SET and a staged value in WHERE compile to `$1` and `$2` in staging order, with both values. |
| Delete.DeleteBuilder.constructor | delete.go:13-22 | A fresh builder with no LIMIT (-1) and an empty registry. |
| Delete.DeleteBuilder.DeleteFrom | delete.go:44-47 | Sets the table. |
| Delete.DeleteBuilder.Where | delete.go:50-53 | Appends to the WHERE expressions. |
| Delete.DeleteBuilder.OrderBy | delete.go:56-59 | Replaces the ORDER BY columns. |
| Delete.DeleteBuilder.Asc | delete.go:62-65 | Sets the order to ASC. |
| Delete.DeleteBuilder.Desc | delete.go:68-71 | Sets the order to DESC. |
| Delete.DeleteBuilder.Limit | delete.go:74-77 | Sets the limit. |
| Delete.DeleteBuilder.String | delete.go:80-83 | The SQL text of a build with no initial values. |
| Delete.DeleteBuilder.Render | delete.go:89-117 | The buffer Build writes equals the template of the fields. |
| Delete.DeleteBuilder.Build | delete.go:87-120 | Returns exactly the compilation of the template, equal to building the builder as a `Builder` value (`AsBuilder`). |
| Delete.OrderNeedsColumns | delete.go:98-107 | Without ORDER BY columns, the order changes nothing. |
| Delete.TemplateNoSigil | delete.go:87-117 | The text holds no `$` unless one of the fields does. |
| Delete.FilteredTemplate | delete.go:89-112 | DeleteFrom/Where/Limit give `DELETE FROM t WHERE … LIMIT n`. |
| Delete.Filtered | delete_test.go:9-19 | The same on a fresh builder compiles to that text with no values. |
| Union.Nesteds | union.go:145-147 | One nested argument per sub-builder, in order. |
| Union.UnionBuilder.constructor | union.go:18-25 | A fresh builder with no LIMIT or OFFSET (-1) and an empty registry. |
| Union.UnionBuilder.UnionWith | union.go:59-63 | Sets the operator and replaces the sub-builders. |
| Union.UnionBuilder.Union | union.go:45-47 | Sets the operator ` UNION ` and replaces the sub-builders. |
| Union.UnionBuilder.UnionAll | union.go:55-57 | Sets the operator ` UNION ALL ` and replaces the sub-builders. |
| Union.UnionBuilder.OrderBy | union.go:66-69 | Replaces the ORDER BY columns. |
| Union.UnionBuilder.Asc | union.go:72-75 | Sets the order to ASC. |
| Union.UnionBuilder.Desc | union.go:78-81 | Sets the order to DESC. |
| Union.UnionBuilder.Limit | union.go:84-87 | Sets the limit. |
| Union.UnionBuilder.Offset | union.go:90-93 | Sets the offset. |
| Union.UnionBuilder.Var | union.go:145-147 | Stages one argument and returns its token. |
| Union.UnionBuilder.RenderUnions | union.go:100-117 | Stages one nested argument per sub-builder and writes their tokens in parentheses, joined by the operator; nothing without sub-builders. |
| Union.UnionBuilder.RenderLater | union.go:108-116 | The loop over the later sub-builders appends the operator and each token in parentheses. |
| Union.UnionBuilder.RenderNext | union.go:110-115 | One turn stages sub-builder i, changes nothing else in the registry, and extends the written tokens by the operator and token k+i in parentheses. |
| Union.UnionBuilder.Build | union.go:97-142 | The registry grows by one entry per sub-builder on every call, and the result is the compilation of the template, equal to building the `Builder` value (`AsBuilder`) taken before the call. |
| Union.NoBuilders | union.go:100-117 | Without sub-builders only the ORDER BY, LIMIT and OFFSET clauses are written. |
| Union.OrderNeedsColumns | union.go:119-128 | Without ORDER BY columns, the order changes nothing. |
| Union.UnionsJoined | union.go:100-117 | The written part is the tokens in parentheses joined by the operator. |
| Union.TemplateIsWeave | union.go:97-139 | With sub-builders the text is a woven template over their tokens. |
| Union.UnionOut | union.go:141 | Each sub-builder is compiled with the values collected before it, so its placeholders continue the outer numbering; nothing is deferred. |
| Union.NestedPair | args.go:169-172 | Two nested builders: the second is compiled with the values the first leaves. |
| Union.TwoUnion | union_test.go:9-31 | Union(sb1, sb2).OrderBy(cols).Desc() over two SELECT builders builds `(sql1) UNION (sql2) ORDER BY … DESC`, where sql1 and sql2 are the two SELECT builders built as sub-queries; the second continues the first's numbering, and the values are the second's result. |

## Left out

- `Cond` and its helpers are not part of this model: `EQ`, `In`, `Like`, `Or`, `GreaterThan`, `Var` on the select, update and delete builders, and `BuilderAs`. They are declared outside the core files. Their effect is covered only through the `Plain`, `Raw`, `List` and `Nested` arguments. The tests that use them (TestSelect4-9, the WHERE part of TestUpdate2, TestDelete2) are stated only for the parts that do not depend on them.
- The `predefinedArgs` cache and `init` are left out. They give the same text as formatting on demand, which `Token` models.
- The `strconv.Atoi` overflow branch is left out. Integers are unbounded, so the branch cannot be taken.
- `interface{}` values are modelled by the closed `Value` datatype. The engine never inspects a plain value.
- The `Builder` interface's differing signatures are modelled by one build-with-initial-values capability, `BuildOut`.
- Builders are values. A clause builder becomes a `Builder` value through its `AsBuilder`, a snapshot of its rendered text and registry taken when it is staged, not a pointer: a mutation of the builder after it was staged is not reflected, and neither is Go slice aliasing of `initialValue`.
- Named registration is not modelled. No core code populates `namedArgs`, `sqlNamedArgs` or `onlyNamed`, so the registry takes them as given.
- Args.DeferredPositions: a deferred position beyond the staged arguments is skipped, whereas Go would panic. Two names at one position give one entry rather than two.
- Select: `distinct` and `forWhat` have no setter in the source and are fields only. The delete builder's `returning` has no setter either.
- Select.Page, Insert.OneRow, Update.AssignWhere, Delete.Filtered and Union.TwoUnion: the tests' concrete literals are stated for arbitrary texts without `$`, rather than for the exact strings. TestUnion1's sub-builders use `GreaterThan` and `In`, which are not part of this model, so Union.TwoUnion is stated for any two SELECT builders. TestInsert2's two rows and raw value are covered only by the general `Values` and `Build` contracts.
- The clause `Build` methods are split into writer methods, one per clause, and loop methods. The text they write is the same as the source's.
