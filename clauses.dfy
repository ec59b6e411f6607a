/** The clauses the SQL builders write before compiling: each one is written
    only under its condition (a non-empty list, a non-negative number, a set
    order), and none of them brings a `$` of its own. */
module Clauses {
  import opened Text

  /** Strings none of which holds a `$`. */
  predicate NoSigils(parts: seq<string>)
  {
    forall i :: 0 <= i < |parts| ==> '$' !in parts[i]
  }

  /** A keyword and the items joined by sep; nothing at all without items. */
  function ListClause(keyword: string, items: seq<string>, sep: string): (s: string)
    requires keyword != ""
    ensures s == "" <==> items == []
    ensures items != [] ==> |s| >= |keyword| && s[..|keyword|] == keyword
  {
    if |items| > 0 then keyword + Join(items, sep) else ""
  }

  /** ORDER BY with its columns, and the order after them only when one is set. */
  function OrderClause(cols: seq<string>, order: string): (s: string)
    ensures s == "" <==> cols == []
    ensures cols != [] && order == "" ==> s == ListClause(" ORDER BY ", cols, ", ")
    ensures cols != [] && order != "" ==> s == ListClause(" ORDER BY ", cols, ", ") + " " + order
  {
    if |cols| > 0 then
      ListClause(" ORDER BY ", cols, ", ") + (if order != "" then " " + order else "")
    else ""
  }

  /** GROUP BY with its columns, then HAVING with its expressions; HAVING is
      never written without GROUP BY. */
  function GroupClause(cols: seq<string>, having: seq<string>): (s: string)
    ensures s == "" <==> cols == []
    ensures cols != [] ==> s == ListClause(" GROUP BY ", cols, ", ") + ListClause(" HAVING ", having, " AND ")
  {
    if |cols| > 0 then
      ListClause(" GROUP BY ", cols, ", ") + ListClause(" HAVING ", having, " AND ")
    else ""
  }

  /** A keyword and the decimal text of n (strconv.Itoa), written only when n
      is not negative; -1 is the unset value. */
  function NumberClause(keyword: string, n: int): (s: string)
    requires keyword != ""
    ensures s == "" <==> n < 0
    ensures n >= 0 ==> |s| > |keyword| && s[..|keyword|] == keyword
  {
    if n >= 0 then keyword + Decimal(n) else ""
  }

  /** The number after the keyword reads back as the number written. */
  lemma NumberClauseRoundTrip(keyword: string, n: int)
    requires keyword != "" && n >= 0
    ensures var s := NumberClause(keyword, n);
      AllDigits(s[|keyword|..]) && ParseDecimal(s[|keyword|..]) == n
  {
    var s := NumberClause(keyword, n);
    assert s[|keyword|..] == Decimal(n);
    ParseDecimalOfDecimal(n);
  }

  /** A keyword and a text, written only when the text is not empty. */
  function TextClause(keyword: string, text: string): (s: string)
    requires keyword != ""
    ensures s == "" <==> text == []
    ensures text != [] ==> |s| == |keyword| + |text| && s[..|keyword|] == keyword && s[|keyword|..] == text
  {
    if text != "" then keyword + text else ""
  }

  /** strings.Join brings no `$` of its own. */
  lemma JoinNoSigil(items: seq<string>, sep: string)
    requires NoSigils(items) && '$' !in sep
    ensures '$' !in Join(items, sep)
  {
    JoinExcludes(items, sep, '$');
  }

  /** List clauses over `$`-free items are `$`-free. */
  lemma ListClauseNoSigil(keyword: string, items: seq<string>, sep: string)
    requires keyword != "" && '$' !in keyword && NoSigils(items) && '$' !in sep
    ensures '$' !in ListClause(keyword, items, sep)
  {
    JoinNoSigil(items, sep);
  }

  lemma OrderClauseNoSigil(cols: seq<string>, order: string)
    requires NoSigils(cols) && '$' !in order
    ensures '$' !in OrderClause(cols, order)
  {
    ListClauseNoSigil(" ORDER BY ", cols, ", ");
  }

  lemma GroupClauseNoSigil(cols: seq<string>, having: seq<string>)
    requires NoSigils(cols) && NoSigils(having)
    ensures '$' !in GroupClause(cols, having)
  {
    ListClauseNoSigil(" GROUP BY ", cols, ", ");
    ListClauseNoSigil(" HAVING ", having, " AND ");
  }

  /** Numbers are digits only. */
  lemma NumberClauseNoSigil(keyword: string, n: int)
    requires keyword != "" && '$' !in keyword
    ensures '$' !in NumberClause(keyword, n)
  {
    if n >= 0 {
      DigitsExclude(Decimal(n), '$');
    }
  }

  /** Writes a keyword and the items joined by sep, only when there are items. */
  method WriteList(buf: string, keyword: string, items: seq<string>, sep: string) returns (b: string)
    requires keyword != ""
    ensures b == buf + ListClause(keyword, items, sep)
  {
    b := buf;
    if |items| > 0 {
      b := b + keyword;
      b := b + Join(items, sep);
      assert b == buf + (keyword + Join(items, sep));
    } else {
      assert b == buf + "";
    }
  }

  /** Writes ORDER BY and its columns when there are columns, and then the
      order when one is set. */
  method WriteOrder(buf: string, cols: seq<string>, order: string) returns (b: string)
    ensures b == buf + OrderClause(cols, order)
  {
    b := buf;
    if |cols| > 0 {
      b := WriteList(b, " ORDER BY ", cols, ", ");
      if order != "" {
        b := b + " ";
        b := b + order;
        assert b == buf + (ListClause(" ORDER BY ", cols, ", ") + (" " + order));
      } else {
        assert b == buf + (ListClause(" ORDER BY ", cols, ", ") + "");
      }
    } else {
      assert b == buf + "";
    }
  }

  /** Writes GROUP BY and its columns when there are columns, and inside that
      HAVING when there are expressions. */
  method WriteGroup(buf: string, cols: seq<string>, having: seq<string>) returns (b: string)
    ensures b == buf + GroupClause(cols, having)
  {
    b := buf;
    if |cols| > 0 {
      b := WriteList(b, " GROUP BY ", cols, ", ");
      b := WriteList(b, " HAVING ", having, " AND ");
      assert b == buf + (ListClause(" GROUP BY ", cols, ", ") + ListClause(" HAVING ", having, " AND "));
    } else {
      assert b == buf + "";
    }
  }

  /** Writes a keyword and strconv.Itoa(n) when n is not negative. */
  method WriteNumber(buf: string, keyword: string, n: int) returns (b: string)
    requires keyword != ""
    ensures b == buf + NumberClause(keyword, n)
  {
    b := buf;
    if n >= 0 {
      b := b + keyword;
      b := b + Decimal(n);
      assert b == buf + (keyword + Decimal(n));
    } else {
      assert b == buf + "";
    }
  }

  /** Writes a keyword and a text when the text is not empty. */
  method WriteText(buf: string, keyword: string, text: string) returns (b: string)
    requires keyword != ""
    ensures b == buf + TextClause(keyword, text)
  {
    b := buf;
    if text != "" {
      b := b + keyword;
      b := b + text;
      assert b == buf + (keyword + text);
    } else {
      assert b == buf + "";
    }
  }
}
