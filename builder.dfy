/** builder.go: a Builder made from a format and its arguments, and the
    flavored wrapper that delegates to the builder it wraps. The compiledBuilder
    and flavoredBuilder methods are Args.Builder.Build and BuildWithFlavor. */
module Builders {
  import opened Text
  import opened Args
  import opened ArgsLemmas

  /** The registry Build leaves: the arguments staged in the given order and
      no names. */
  function Staged(arg: seq<Arg>): Registry
  {
    Registry(arg, map[], map[], false)
  }

  /** Build(format, arg...): stages every argument with Add into a fresh
      registry, in order, so that `$i` in the format refers to arg[i]. */
  method Build(format: string, arg: seq<Arg>) returns (b: Builder)
    ensures b == Compiled(format, Staged(arg))
  {
    var args := new Args();
    var i := 0;
    while i < |arg|
      invariant 0 <= i <= |arg|
      invariant args.Snapshot() == Staged(arg[..i])
    {
      var token := args.Add(arg[i]);
      assert arg[..i + 1] == arg[..i] + [arg[i]];
      i := i + 1;
    }
    assert arg[..i] == arg;
    b := Compiled(format, args.Snapshot());
  }

  /** WithFlavor wraps a builder; building the wrapper builds the wrapped
      builder with the same initial values. */
  function WithFlavor(b: Builder): (r: Builder)
    ensures forall initial :: BuildOut(r, initial) == BuildOut(b, initial)
  {
    Flavored(b)
  }

  /** A format whose tokens $0, $1, ... sit between separator texts compiles,
      with the arguments staged in order and for any initial values, to the
      arguments in order, each written after the values before it; nothing is
      deferred. */
  lemma CompileWoven(texts: seq<string>, arg: seq<Arg>, initial: seq<Arg>)
    requires |texts| == |arg| + 1 && Separators(texts)
    ensures CompileOut(Staged(arg), Weave(texts, 0), initial) == WeaveOut(texts, arg, initial)
  {
    var reg := Staged(arg);
    ScanWeave(reg, texts, arg, 0, initial, 0);
    CompileIsScan(reg, Weave(texts, 0), initial);
  }

  /** The same for the Builder that Build returns. */
  lemma BuildWoven(texts: seq<string>, arg: seq<Arg>, initial: seq<Arg>)
    requires |texts| == |arg| + 1 && Separators(texts)
    ensures BuildOut(Compiled(Weave(texts, 0), Staged(arg)), initial) == WeaveOut(texts, arg, initial)
  {
    CompileWoven(texts, arg, initial);
  }

  /** With plain arguments only, `$i` becomes the driver placeholder numbered
      after the initial values and the values are the initial ones followed by
      the arguments. */
  lemma BuildPlains(texts: seq<string>, arg: seq<Arg>, initial: seq<Arg>)
    requires |texts| == |arg| + 1 && Separators(texts)
    requires forall i :: 0 <= i < |arg| ==> arg[i].Plain?
    ensures BuildOut(Compiled(Weave(texts, 0), Staged(arg)), initial)
         == Output(Weave(texts, |initial| + 1), initial + arg)
  {
    BuildWoven(texts, arg, initial);
    WeavePlains(texts, arg, initial);
  }

  /** With no initial values, plain arguments staged in order become $1, $2, ...
      and the values are the arguments themselves. */
  lemma CompilePlains(texts: seq<string>, arg: seq<Arg>)
    requires |texts| == |arg| + 1 && Separators(texts)
    requires forall i :: 0 <= i < |arg| ==> arg[i].Plain?
    ensures CompileOut(Staged(arg), Weave(texts, 0), []) == Output(Weave(texts, 1), arg)
  {
    CompileWoven(texts, arg, []);
    FreshPlains(texts, arg);
  }

  lemma FreshPlains(texts: seq<string>, arg: seq<Arg>)
    requires |texts| == |arg| + 1
    requires forall i :: 0 <= i < |arg| ==> arg[i].Plain?
    ensures WeaveOut(texts, arg, []) == Output(Weave(texts, 1), arg)
  {
    WeavePlains(texts, arg, []);
    assert [] + arg == arg;
  }

  /** Tokens joined by a separator, with plain arguments behind them, compile
      to the driver placeholders numbered after the initial values, joined by
      the same separator. */
  lemma BuildJoinedPlains(pre: string, sep: string, post: string, arg: seq<Arg>, initial: seq<Arg>)
    requires |arg| >= 1 && forall i :: 0 <= i < |arg| ==> arg[i].Plain?
    requires '$' !in pre && '$' !in sep && '$' !in post
    requires sep == [] || !IsDigit(sep[0])
    requires post == [] || !IsDigit(post[0])
    ensures BuildOut(Compiled(pre + Join(Tokens(0, |arg|), sep) + post, Staged(arg)), initial)
         == Output(pre + Join(Tokens(|initial| + 1, |arg|), sep) + post, initial + arg)
  {
    var texts := Between(pre, sep, post, |arg|);
    JoinWeave(pre, sep, post, 0, |arg|);
    JoinWeave(pre, sep, post, |initial| + 1, |arg|);
    BetweenSeparators(pre, sep, post, |arg|);
    BuildPlains(texts, arg, initial);
  }

  /** With no initial values the joined placeholders are $1 ... $n and the
      values are the arguments. */
  lemma CompileJoinedPlains(pre: string, sep: string, post: string, arg: seq<Arg>)
    requires |arg| >= 1 && forall i :: 0 <= i < |arg| ==> arg[i].Plain?
    requires '$' !in pre && '$' !in sep && '$' !in post
    requires sep == [] || !IsDigit(sep[0])
    requires post == [] || !IsDigit(post[0])
    ensures CompileOut(Staged(arg), pre + Join(Tokens(0, |arg|), sep) + post, [])
         == Output(pre + Join(Tokens(1, |arg|), sep) + post, arg)
  {
    var texts := Between(pre, sep, post, |arg|);
    JoinWeave(pre, sep, post, 0, |arg|);
    JoinWeave(pre, sep, post, 1, |arg|);
    BetweenSeparators(pre, sep, post, |arg|);
    CompilePlains(texts, arg);
  }

  /** Build(format, arg...) where the format refers to its arguments with `$?`
      only: they are compiled in staging order after the initial values. */
  lemma CompileChained(texts: seq<string>, arg: seq<Arg>, initial: seq<Arg>)
    requires |texts| == |arg| + 1
    requires forall i :: 0 <= i < |texts| ==> '$' !in texts[i]
    ensures CompileOut(Staged(arg), Chain(texts), initial) == WeaveOut(texts, arg, initial)
  {
    var reg := Staged(arg);
    ScanChain(reg, texts, arg, initial, 0);
    CompileIsScan(reg, Chain(texts), initial);
  }

  /** With plain arguments and no initial values, the k occurrences of `$?`
      become $1 ... $k and the values are the staged arguments themselves. */
  lemma ChainedPlains(texts: seq<string>, arg: seq<Arg>)
    requires |texts| == |arg| + 1
    requires forall i :: 0 <= i < |texts| ==> '$' !in texts[i]
    requires forall i :: 0 <= i < |arg| ==> arg[i].Plain?
    ensures CompileOut(Staged(arg), Chain(texts), []) == Output(Weave(texts, 1), arg)
  {
    CompileChained(texts, arg, []);
    FreshPlains(texts, arg);
  }

  /** Build("x IN ($?, $?)", 1, 2) compiles to "x IN ($1, $2)" with the values 1, 2. */
  lemma InPair()
    ensures CompileOut(Staged([Plain(Int(1)), Plain(Int(2))]), "x IN ($?, $?)", [])
         == Output("x IN ($1, $2)", [Plain(Int(1)), Plain(Int(2))])
  {
    var texts := ["x IN (", ", ", ")"];
    assert Chain(texts) == "x IN ($?, $?)" by {
      assert texts[1..] == [", ", ")"] && texts[1..][1..] == [")"];
    }
    assert Weave(texts, 1) == "x IN ($1, $2)" by {
      assert texts[1..] == [", ", ")"] && texts[1..][1..] == [")"];
      assert Token(1) == "$1" && Token(2) == "$2";
    }
    ChainedPlains(texts, [Plain(Int(1)), Plain(Int(2))]);
  }
}
