/** Properties of the placeholder compiler: what the tokens returned by Add
    refer back to, how plain arguments and lists are numbered, and how the
    named and degenerate `$` forms behave. */
module ArgsLemmas {
  import opened Text
  import opened Args

  // ---------------------------------------------------------------------------
  // Tokens returned by Add

  /** The digits after the `$` of a token read back as the staged position. */
  lemma TokenRoundTrip(n: nat)
    ensures AllDigits(Token(n)[1..]) && ParseDecimal(Token(n)[1..]) == n
  {
    ParseDecimalOfDecimal(n);
  }

  /** A token `$p` followed by a non-digit (or by nothing) refers to staged
      position p: the argument there is written (nothing when p is out of
      range) and the cursor moves just after it. */
  lemma ScanToken(reg: Registry, pre: string, p: nat, rest: string, values: seq<Arg>, offset: nat)
    requires '$' !in pre && !reg.onlyNamed
    requires rest == [] || !IsDigit(rest[0])
    ensures var o := SuccessiveOut(reg, values, p);
      var tail := ScanOut(reg, rest, o.values, if p < |reg.staged| then p + 1 else p);
      ScanOut(reg, pre + Token(p) + rest, values, offset) == Output(pre + o.sql + tail.sql, tail.values)
  {
    TokenText(pre, p, rest);
    ScanDecimal(reg, pre, p, rest, values, offset);
  }

  /** ScanToken with the token spelled as `$` and its digits. */
  lemma ScanDecimal(reg: Registry, pre: string, p: nat, rest: string, values: seq<Arg>, offset: nat)
    requires '$' !in pre && !reg.onlyNamed
    requires rest == [] || !IsDigit(rest[0])
    ensures var o := SuccessiveOut(reg, values, p);
      var tail := ScanOut(reg, rest, o.values, if p < |reg.staged| then p + 1 else p);
      ScanOut(reg, pre + "$" + (Decimal(p) + rest), values, offset) == Output(pre + o.sql + tail.sql, tail.values)
  {
    var f := Decimal(p) + rest;
    DigitsStepToken(p, rest);
    ScanDigits(reg, pre, f, values, offset);
    var st := DigitsStep(f);
    var o := SuccessiveOut(reg, values, p);
    assert st == Step("", ByPosition(p), rest);
    assert RefOut(reg, st.ref, values) == o;
    assert NextOffset(reg, st.ref, offset) == if p < |reg.staged| then p + 1 else p;
  }

  /** A token after pre is `$` followed by the digits compileDigits reads. */
  lemma TokenText(pre: string, p: nat, rest: string)
    ensures pre + Token(p) + rest == pre + "$" + (Decimal(p) + rest)
  {
  }

  /** compileDigits on the digits of a token reads back its position and
      resumes right after them. */
  lemma DigitsStepToken(p: nat, rest: string)
    requires rest == [] || !IsDigit(rest[0])
    ensures DigitsStep(Decimal(p) + rest) == Step("", ByPosition(p), rest)
  {
    var d := Decimal(p);
    var f := d + rest;
    assert f[..|d|] == d && f[|d|..] == rest;
    DigitRunIs(f, |d|);
    ParseDecimalOfDecimal(p);
  }

  // ---------------------------------------------------------------------------
  // Plain arguments referenced in staging order

  /** Literal texts with the tokens of consecutive positions k, k+1, ...
      between them: texts[0] $k texts[1] $k+1 ... texts[n]. */
  function Weave(texts: seq<string>, k: nat): string
    requires |texts| >= 1
    decreases |texts|
  {
    if |texts| == 1 then texts[0] else texts[0] + Token(k) + Weave(texts[1..], k + 1)
  }

  /** Texts that can sit between tokens: no `$`, and no digit right after a token. */
  predicate Separators(texts: seq<string>)
  {
    && (forall i :: 0 <= i < |texts| ==> '$' !in texts[i])
    && (forall i :: 1 <= i < |texts| ==> texts[i] == [] || !IsDigit(texts[i][0]))
  }

  /** A woven template never starts with a digit when its first text does not. */
  lemma WeaveStart(texts: seq<string>, k: nat)
    requires |texts| >= 1
    requires texts[0] == [] || !IsDigit(texts[0][0])
    ensures var s := Weave(texts, k); s == [] || !IsDigit(s[0])
  {
    if |texts| > 1 && texts[0] == [] {
      assert Weave(texts, k)[0] == Token(k)[0];
    }
  }

  /** The separators after the first text still separate. */
  lemma SeparatorsTail(texts: seq<string>)
    requires |texts| >= 1 && Separators(texts)
    ensures Separators(texts[1..])
  {
    forall i | 1 <= i < |texts[1..]|
      ensures texts[1..][i] == [] || !IsDigit(texts[1..][i][0])
    {
      assert texts[1..][i] == texts[i + 1];
    }
  }

  /** What compiling texts[0] a0 texts[1] a1 ... texts[n] writes: each
      argument as compileArg writes it, after the values collected before it. */
  function WeaveOut(texts: seq<string>, args: seq<Arg>, values: seq<Arg>): (r: Output)
    requires |texts| == |args| + 1
    decreases |args|
  {
    if |args| == 0 then Output(texts[0], values)
    else
      var o := ArgOut(args[0], values);
      var t := WeaveOut(texts[1..], args[1..], o.values);
      Output(texts[0] + o.sql + t.sql, t.values)
  }

  /** Scanning texts[0] $k texts[1] $k+1 ... writes the arguments args[0],
      args[1], ... in order, each numbered after the values before it. */
  ghost predicate Woven(reg: Registry, texts: seq<string>, args: seq<Arg>, k: nat, values: seq<Arg>, offset: nat)
  {
    && |texts| == |args| + 1
    && ScanOut(reg, Weave(texts, k), values, offset) == WeaveOut(texts, args, values)
  }

  /** Tokens of consecutive staged positions k, k+1, ..., between texts that
      keep them apart, refer to the arguments staged there, in order. */
  lemma {:induction false} ScanWeave(reg: Registry, texts: seq<string>, args: seq<Arg>, k: nat, values: seq<Arg>, offset: nat)
    requires |texts| == |args| + 1 && Separators(texts) && !reg.onlyNamed
    requires k + |args| <= |reg.staged|
    requires forall i :: 0 <= i < |args| ==> reg.staged[k + i] == args[i]
    ensures Woven(reg, texts, args, k, values, offset)
  {
    if |args| == 0 {
      ScanLiteral(reg, texts[0], values, offset);
    } else {
      SeparatorsTail(texts);
      ScanWeave(reg, texts[1..], args[1..], k + 1, ArgOut(args[0], values).values, k + 1);
      ScanWeaveCons(reg, texts, args, k, values, offset);
    }
  }

  /** The inductive step of ScanWeave: the first token, then the woven rest. */
  lemma ScanWeaveCons(reg: Registry, texts: seq<string>, args: seq<Arg>, k: nat, values: seq<Arg>, offset: nat)
    requires |texts| == |args| + 1 && |args| > 0 && Separators(texts) && !reg.onlyNamed
    requires k < |reg.staged| && reg.staged[k] == args[0]
    requires Woven(reg, texts[1..], args[1..], k + 1, ArgOut(args[0], values).values, k + 1)
    ensures Woven(reg, texts, args, k, values, offset)
  {
    var rest := Weave(texts[1..], k + 1);
    WeaveStart(texts[1..], k + 1);
    ScanToken(reg, texts[0], k, rest, values, offset);
    assert SuccessiveOut(reg, values, k) == ArgOut(args[0], values);
  }

  /** texts[0] `$?` texts[1] `$?` ... texts[n]: the arguments referred to by
      the successive cursor only. */
  function Chain(texts: seq<string>): string
    requires |texts| >= 1
    decreases |texts|
  {
    if |texts| == 1 then texts[0] else texts[0] + "$?" + Chain(texts[1..])
  }

  /** Scanning texts[0] $? texts[1] $? ... from cursor k writes the arguments
      args[0], args[1], ... in order, each numbered after the values before it. */
  ghost predicate Chained(reg: Registry, texts: seq<string>, args: seq<Arg>, values: seq<Arg>, k: nat)
  {
    && |texts| == |args| + 1
    && ScanOut(reg, Chain(texts), values, k) == WeaveOut(texts, args, values)
  }

  /** Each `$?` takes the argument at the cursor and moves the cursor on, so
      n of them from cursor k refer to the arguments staged at k, k+1, ...,
      k+n-1, in order. */
  lemma {:induction false} ScanChain(reg: Registry, texts: seq<string>, args: seq<Arg>, values: seq<Arg>, k: nat)
    requires |texts| == |args| + 1 && !reg.onlyNamed
    requires forall i :: 0 <= i < |texts| ==> '$' !in texts[i]
    requires k + |args| <= |reg.staged|
    requires forall i :: 0 <= i < |args| ==> reg.staged[k + i] == args[i]
    ensures Chained(reg, texts, args, values, k)
  {
    if |args| == 0 {
      ScanLiteral(reg, texts[0], values, k);
    } else {
      assert forall i :: 0 <= i < |texts[1..]| ==> texts[1..][i] == texts[i + 1];
      ScanChain(reg, texts[1..], args[1..], ArgOut(args[0], values).values, k + 1);
      ScanChainCons(reg, texts, args, values, k);
    }
  }

  /** The inductive step of ScanChain: the first `$?`, then the chained rest. */
  lemma ScanChainCons(reg: Registry, texts: seq<string>, args: seq<Arg>, values: seq<Arg>, k: nat)
    requires |texts| == |args| + 1 && |args| > 0 && '$' !in texts[0] && !reg.onlyNamed
    requires k < |reg.staged| && reg.staged[k] == args[0]
    requires Chained(reg, texts[1..], args[1..], ArgOut(args[0], values).values, k + 1)
    ensures Chained(reg, texts, args, values, k)
  {
    ScanSuccessive(reg, texts[0], Chain(texts[1..]), values, k);
    assert SuccessiveOut(reg, values, k) == ArgOut(args[0], values);
  }

  /** Plain arguments are numbered $v+1, $v+2, ... after the v values already
      collected, and are collected themselves, in order. */
  lemma {:induction false} WeavePlains(texts: seq<string>, args: seq<Arg>, values: seq<Arg>)
    requires |texts| == |args| + 1
    requires forall i :: 0 <= i < |args| ==> args[i].Plain?
    ensures WeaveOut(texts, args, values) == Output(Weave(texts, |values| + 1), values + args)
  {
    if |args| > 0 {
      WeavePlains(texts[1..], args[1..], values + [args[0]]);
      ConsParts(args, values);
    }
  }

  /** A sequence is its first element followed by the rest, also after a prefix. */
  lemma ConsParts(args: seq<Arg>, values: seq<Arg>)
    requires |args| >= 1
    ensures values + [args[0]] + args[1..] == values + args
  {
    assert args == [args[0]] + args[1..];
  }

  // ---------------------------------------------------------------------------
  // Lists

  /** The placeholders $k, $k+1, ..., $k+n-1 separated by ", ". */
  function Placeholders(k: nat, n: nat): string
  {
    if n == 0 then "" else if n == 1 then Token(k) else Placeholders(k, n - 1) + ", " + Token(k + n - 1)
  }

  /** A list of plain items writes one placeholder per item, numbered after
      the values already collected and separated by ", ", and appends the
      items in order; the empty list writes nothing. */
  ghost predicate ListedPlains(items: seq<Arg>, values: seq<Arg>)
  {
    ArgOut(List(items), values) == Output(Placeholders(|values| + 1, |items|), values + items)
  }

  lemma {:induction false} ListOfPlains(items: seq<Arg>, values: seq<Arg>)
    requires forall i :: 0 <= i < |items| ==> items[i].Plain?
    ensures ListedPlains(items, values)
  {
    var n := |items|;
    if n <= 1 {
      ListOfOnePlain(items, values);
    } else {
      ListOfPlains(items[..n - 1], values);
      ListOfPlainsSnoc(items, values);
    }
  }

  /** The lists of no item and of one plain item. */
  lemma ListOfOnePlain(items: seq<Arg>, values: seq<Arg>)
    requires |items| <= 1 && forall i :: 0 <= i < |items| ==> items[i].Plain?
    ensures ListedPlains(items, values)
  {
    assert ArgOut(List(items), values) == ItemsOut(items, values);
    if |items| == 1 {
      assert ItemsOut(items, values) == ArgOut(items[0], values);
      assert items == [items[0]];
    }
  }

  /** The inductive step of ListOfPlains: one more plain item at the end. */
  lemma ListOfPlainsSnoc(items: seq<Arg>, values: seq<Arg>)
    requires |items| > 1 && items[|items| - 1].Plain?
    requires ListedPlains(items[..|items| - 1], values)
    ensures ListedPlains(items, values)
  {
    var n := |items|;
    var init := items[..n - 1];
    SnocParts(items, values);
    assert ArgOut(List(items), values) == ItemsOut(items, values);
    assert ItemsOut(init, values) == ArgOut(List(init), values);
    var v := values + init;
    assert ArgOut(items[n - 1], v) == Output(Token(|v| + 1), v + [items[n - 1]]);
  }

  /** A sequence is its init followed by its last element, also after a prefix. */
  lemma SnocParts(items: seq<Arg>, values: seq<Arg>)
    requires |items| >= 1
    ensures var n := |items|;
      items[..n - 1] + [items[n - 1]] == items && values + items[..n - 1] + [items[n - 1]] == values + items
  {
  }

  // ---------------------------------------------------------------------------
  // Named references and degenerate forms

  /** `${name}` for a registered name writes the argument at its position and
      leaves the successive cursor where it was. */
  lemma ScanNamedKnown(reg: Registry, pre: string, name: string, rest: string, values: seq<Arg>, offset: nat)
    requires '$' !in pre && '}' !in name && name in reg.named
    ensures var o := SuccessiveOut(reg, values, reg.named[name]);
      var tail := ScanOut(reg, rest, o.values, offset);
      ScanOut(reg, pre + "${" + name + "}" + rest, values, offset) == Output(pre + o.sql + tail.sql, tail.values)
  {
    var f := ['{'] + name + ['}'] + rest;
    NamedText(pre, name, rest);
    NamedStepClosed(reg, name, rest);
    ScanNamed(reg, pre, f, values, offset);
    var st := NamedStep(reg, f);
    assert st.ref == ByName(reg.named[name]) && st.rest == rest;
    assert RefOut(reg, st.ref, values) == SuccessiveOut(reg, values, reg.named[name]);
  }

  /** `${name}` for a name that is not registered writes nothing and takes no value. */
  lemma ScanNamedUnknown(reg: Registry, pre: string, name: string, rest: string, values: seq<Arg>, offset: nat)
    requires '$' !in pre && '}' !in name && name !in reg.named
    ensures var tail := ScanOut(reg, rest, values, offset);
      ScanOut(reg, pre + "${" + name + "}" + rest, values, offset) == Output(pre + tail.sql, tail.values)
  {
    var f := ['{'] + name + ['}'] + rest;
    NamedText(pre, name, rest);
    NamedStepClosed(reg, name, rest);
    ScanNamed(reg, pre, f, values, offset);
    var st := NamedStep(reg, f);
    assert st.ref == NoRef && st.rest == rest;
    assert RefOut(reg, st.ref, values) == Output("", values);
    Unit(pre);
  }

  /** An unterminated `${` loses its `$`; scanning goes on at the `{`. */
  lemma ScanUnterminated(reg: Registry, pre: string, rest: string, values: seq<Arg>, offset: nat)
    requires '$' !in pre && '}' !in rest
    ensures var tail := ScanOut(reg, "{" + rest, values, offset);
      ScanOut(reg, pre + "${" + rest, values, offset) == Output(pre + tail.sql, tail.values)
  {
    var f := ['{'] + rest;
    SplitPair(pre, '$', '{', rest);
    NamedStepOpen(reg, rest);
    ScanNamed(reg, pre, f, values, offset);
    var st := NamedStep(reg, f);
    assert st.ref == NoRef && st.rest == f;
    assert RefOut(reg, st.ref, values) == Output("", values);
    Unit(pre);
  }

  /** `${name}rest` after pre is `$` followed by the text compileNamed reads. */
  lemma NamedText(pre: string, name: string, rest: string)
    ensures pre + "${" + name + "}" + rest == pre + "$" + (['{'] + name + ['}'] + rest)
  {
  }

  /** compileNamed on a terminated `{name}`: the name is looked up and scanning
      resumes after the `}`. */
  lemma NamedStepClosed(reg: Registry, name: string, rest: string)
    requires '}' !in name
    ensures NamedStep(reg, ['{'] + name + ['}'] + rest)
         == Step("", if name in reg.named then ByName(reg.named[name]) else NoRef, rest)
  {
    NamedSlices(['{'] + name + ['}'] + rest, name, rest);
    IndexOfAfter(name, '}', rest);
  }

  lemma NamedSlices(f: string, name: string, rest: string)
    requires f == ['{'] + name + ['}'] + rest
    ensures f != [] && f[0] == '{' && f[1..] == name + ['}'] + rest
    ensures f[1..|name| + 1] == name && f[|name| + 2..] == rest
  {
    assert f[1..] == name + ['}'] + rest;
  }

  /** compileNamed without a closing `}`: nothing is consumed. */
  lemma NamedStepOpen(reg: Registry, rest: string)
    requires '}' !in rest
    ensures NamedStep(reg, ['{'] + rest) == Step("", NoRef, ['{'] + rest)
  {
    assert (['{'] + rest)[1..] == rest;
  }

  /** A template without `$` compiles to itself, and with no deferred names
      the values are the initial ones. */
  lemma CompileNoSigil(reg: Registry, format: string, initial: seq<Arg>)
    requires '$' !in format && reg.sqlNamed == map[]
    ensures CompileOut(reg, format, initial) == Output(format, initial)
  {
    ScanLiteral(reg, format, initial, 0);
    CompileIsScan(reg, format, initial);
  }

  // ---------------------------------------------------------------------------
  // Tokens joined by a separator

  /** The tokens Add returns for n arguments staged from position k on. */
  function Tokens(k: nat, n: nat): (ts: seq<string>)
    ensures |ts| == n && forall i :: 0 <= i < n ==> ts[i] == Token(k + i)
  {
    seq(n, i requires 0 <= i < n => Token(k + i))
  }

  /** The texts around n tokens joined by sep: pre before the first, sep
      between two, post after the last. */
  function Between(pre: string, sep: string, post: string, n: nat): (texts: seq<string>)
    requires n >= 1
    ensures |texts| == n + 1 && texts[0] == pre && texts[n] == post
    ensures forall i :: 1 <= i < n ==> texts[i] == sep
  {
    [pre] + seq(n - 1, _ => sep) + [post]
  }

  /** Tokens joined by a separator are a woven template. */
  lemma {:induction false} JoinWeave(pre: string, sep: string, post: string, k: nat, n: nat)
    requires n >= 1
    ensures pre + Join(Tokens(k, n), sep) + post == Weave(Between(pre, sep, post, n), k)
    decreases n
  {
    var texts := Between(pre, sep, post, n);
    if n == 1 {
      assert texts[1..] == [post];
    } else {
      var rest := Join(Tokens(k + 1, n - 1), sep);
      JoinWeave(sep, sep, post, k + 1, n - 1);
      TokensCons(k, n, sep);
      WeaveCons(pre, sep, post, k, n);
      Shift(pre, Token(k), sep, rest, post);
    }
  }

  /** Joined tokens are the first token, the separator and the joined rest. */
  lemma TokensCons(k: nat, n: nat, sep: string)
    requires n >= 2
    ensures Join(Tokens(k, n), sep) == Token(k) + sep + Join(Tokens(k + 1, n - 1), sep)
  {
    assert Tokens(k, n)[1..] == Tokens(k + 1, n - 1);
  }

  /** Weaving the texts around joined tokens is pre, the first token and the
      weave of the remaining texts. */
  lemma WeaveCons(pre: string, sep: string, post: string, k: nat, n: nat)
    requires n >= 2
    ensures Weave(Between(pre, sep, post, n), k) == pre + Token(k) + Weave(Between(sep, sep, post, n - 1), k + 1)
  {
    var texts := Between(pre, sep, post, n);
    assert texts[1..] == Between(sep, sep, post, n - 1);
  }

  lemma Shift(pre: string, t: string, sep: string, rest: string, post: string)
    ensures pre + (t + sep + rest) + post == pre + t + (sep + rest + post)
  {
  }

  /** The texts around joined tokens separate them when none holds a `$` and
      neither sep nor post starts with a digit. */
  lemma BetweenSeparators(pre: string, sep: string, post: string, n: nat)
    requires n >= 1 && '$' !in pre && '$' !in sep && '$' !in post
    requires sep == [] || !IsDigit(sep[0])
    requires post == [] || !IsDigit(post[0])
    ensures Separators(Between(pre, sep, post, n))
  {
  }
}
