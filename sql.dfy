/** The parameterised SQL the list endpoints send: a `WHERE 1=1` base, one
    `AND` condition per filter that is present, in a fixed field order, and
    the bound values collected in the same order. This module is the
    specification the per-resource builders are proved against. */
module Sql {
  import opened Js

  /** Substring match (`LIKE ?` bound to `%v%`) or exact match (`= ?` bound to `v`). */
  datatype Mode = Like | Exact

  /** One filterable column of a resource together with the query-string value
      given for it (if any). */
  datatype Filter = Filter(column: string, mode: Mode, value: Option<string>)

  /** A parameterised statement as handed to the database gateway. */
  datatype Statement = Statement(sql: string, params: seq<JsValue>)

  /** The handlers test each filter with `if (v)`: only non-empty values filter. */
  predicate Active(f: Filter)
  {
    Present(f.value)
  }

  /** The condition a filter on `column` contributes, e.g. `AND nombre LIKE ?`. */
  function Condition(column: string, mode: Mode): string
  {
    "AND " + column + (if mode == Like then " LIKE ?" else " = ?")
  }

  /** The value bound to an active filter's placeholder. */
  function Bound(f: Filter): (v: JsValue)
    requires Active(f)
    ensures Truthy(v)
    ensures f.mode == Like ==> v == Str("%" + f.value.value + "%")
    ensures f.mode == Exact ==> v == FromQuery(f.value)
  {
    if f.mode == Like then Str("%" + f.value.value + "%") else Str(f.value.value)
  }

  /** What `if (v) query += " AND column ..."` appends for one filter. */
  function ListPiece(f: Filter): string
  {
    if Active(f) then " " + Condition(f.column, f.mode) else ""
  }

  /** What `if (v) params.push(...)` appends for one filter. */
  function ParamPiece(f: Filter): seq<JsValue>
  {
    if Active(f) then [Bound(f)] else []
  }

  /** What the list handler appends to the query for the filters, in order. */
  function ListWhere(fs: seq<Filter>): string
  {
    if fs == [] then ""
    else ListWhere(fs[..|fs| - 1]) + ListPiece(fs[|fs| - 1])
  }

  /** What the list handler pushes onto `params` for the filters, in order. */
  function FilterParams(fs: seq<Filter>): seq<JsValue>
  {
    if fs == [] then []
    else FilterParams(fs[..|fs| - 1]) + ParamPiece(fs[|fs| - 1])
  }

  /** The count query's template `WHERE 1=1 ${a ? "AND a ..." : ""} ${b ? ...}`:
      every slot is preceded by one space, whether it is filled or not. */
  function CountWhere(fs: seq<Filter>): string
  {
    if fs == [] then ""
    else
      var f := fs[|fs| - 1];
      CountWhere(fs[..|fs| - 1]) + " " + (if Active(f) then Condition(f.column, f.mode) else "")
  }

  /** The list query before its filters. */
  function ListHead(table: string): string
  {
    "SELECT * FROM " + table + " WHERE 1=1"
  }

  /** The full list query: filters, then ` LIMIT ? OFFSET ?`. */
  function ListQuery(table: string, fs: seq<Filter>): string
  {
    ListHead(table) + ListWhere(fs) + " LIMIT ? OFFSET ?"
  }

  /** The list query's parameters: the filter values, then `limitNum` and `offset`. */
  function ListParams(fs: seq<Filter>, limit: int, offset: int): (r: seq<JsValue>)
    ensures |r| == |FilterParams(fs)| + 2
    ensures r[|r| - 2] == Num(limit as real) && r[|r| - 1] == Num(offset as real)
    ensures r[..|r| - 2] == FilterParams(fs)
  {
    FilterParams(fs) + [Num(limit as real), Num(offset as real)]
  }

  /** The count query that accompanies a list query. */
  function CountQuery(table: string, fs: seq<Filter>): string
  {
    "SELECT COUNT(*) as total FROM " + table + " WHERE 1=1" + CountWhere(fs)
  }

  /** Number of `?` placeholders in a statement. */
  function Placeholders(s: string): nat
  {
    if s == [] then 0
    else Placeholders(s[..|s| - 1]) + (if s[|s| - 1] == '?' then 1 else 0)
  }

  /** No table or column name contains a `?` of its own. */
  predicate Plain(table: string, fs: seq<Filter>)
  {
    '?' !in table && forall i :: 0 <= i < |fs| ==> '?' !in fs[i].column
  }

  /** The text with every space removed: SQL reads the same tokens from two
      strings that differ only in how many spaces separate them. */
  function StripSpaces(s: string): (r: string)
    ensures |r| <= |s|
    ensures ' ' !in r
  {
    if s == [] then ""
    else StripSpaces(s[..|s| - 1]) + (if s[|s| - 1] == ' ' then "" else [s[|s| - 1]])
  }

  lemma {:induction false} StripSpacesAppend(a: string, b: string)
    ensures StripSpaces(a + b) == StripSpaces(a) + StripSpaces(b)
    decreases |b|
  {
    if b == [] {
      assert a + b == a;
    } else {
      var b' := b[..|b| - 1];
      assert (a + b)[..|a + b| - 1] == a + b';
      StripSpacesAppend(a, b');
    }
  }

  lemma {:induction false} PlaceholdersAppend(a: string, b: string)
    ensures Placeholders(a + b) == Placeholders(a) + Placeholders(b)
    decreases |b|
  {
    if b == [] {
      assert a + b == a;
    } else {
      var b' := b[..|b| - 1];
      assert (a + b)[..|a + b| - 1] == a + b';
      PlaceholdersAppend(a, b');
    }
  }

  lemma {:induction false} NoPlaceholders(s: string)
    requires '?' !in s
    ensures Placeholders(s) == 0
    decreases |s|
  {
    if s != [] {
      assert s[..|s| - 1] + [s[|s| - 1]] == s;
      assert forall c :: c in s[..|s| - 1] ==> c in s;
      NoPlaceholders(s[..|s| - 1]);
    }
  }

  lemma OnePlaceholder(s: string)
    requires '?' !in s
    ensures Placeholders(s + "?") == 1
  {
    NoPlaceholders(s);
    PlaceholdersAppend(s, "?");
    assert "?"[..0] == "";
  }

  lemma ConditionPlaceholders(f: Filter)
    requires '?' !in f.column
    ensures Placeholders(Condition(f.column, f.mode)) == 1
    ensures Placeholders(" " + Condition(f.column, f.mode)) == 1
  {
    var op := if f.mode == Like then " LIKE " else " = ";
    var text := "AND " + f.column + op;
    assert Condition(f.column, f.mode) == text + "?";
    assert " " + Condition(f.column, f.mode) == (" " + text) + "?";
    assert '?' !in text;
    assert '?' !in " " + text;
    OnePlaceholder(text);
    OnePlaceholder(" " + text);
  }

  /** A statement written as its text between placeholders:
      `Bind([a, b, c])` is `a?b?c`. */
  function Bind(parts: seq<string>): string
  {
    if |parts| <= 1 then (if parts == [] then "" else parts[0])
    else Bind(parts[..|parts| - 1]) + "?" + parts[|parts| - 1]
  }

  /** One more part adds one placeholder and that part at the end. */
  lemma BindSnoc(parts: seq<string>, p: string)
    requires parts != []
    ensures Bind(parts + [p]) == Bind(parts) + "?" + p
  {
    assert (parts + [p])[..|parts|] == parts;
  }

  /** `Bind` spelt out for the part counts the handlers use, one size at a
      time, each from the size below by `BindSnoc`. */
  lemma BindTwo(ps: seq<string>)
    requires |ps| == 2
    ensures Bind(ps) == ps[0] + "?" + ps[1]
  {
    BindSnoc(ps[..1], ps[1]);
    assert ps[..1] + [ps[1]] == ps;
  }

  lemma BindThree(ps: seq<string>)
    requires |ps| == 3
    ensures Bind(ps) == ps[0] + "?" + ps[1] + "?" + ps[2]
  {
    BindTwo(ps[..2]);
    BindSnoc(ps[..2], ps[2]);
    assert ps[..2] + [ps[2]] == ps;
  }

  lemma BindFour(ps: seq<string>)
    requires |ps| == 4
    ensures Bind(ps) == ps[0] + "?" + ps[1] + "?" + ps[2] + "?" + ps[3]
  {
    BindThree(ps[..3]);
    BindSnoc(ps[..3], ps[3]);
    assert ps[..3] + [ps[3]] == ps;
  }

  lemma BindFive(ps: seq<string>)
    requires |ps| == 5
    ensures Bind(ps) == ps[0] + "?" + ps[1] + "?" + ps[2] + "?" + ps[3] + "?" + ps[4]
  {
    BindFour(ps[..4]);
    BindSnoc(ps[..4], ps[4]);
    assert ps[..4] + [ps[4]] == ps;
  }

  lemma BindSix(ps: seq<string>)
    requires |ps| == 6
    ensures Bind(ps) == ps[0] + "?" + ps[1] + "?" + ps[2] + "?" + ps[3] + "?" + ps[4] + "?" + ps[5]
  {
    BindFive(ps[..5]);
    BindSnoc(ps[..5], ps[5]);
    assert ps[..5] + [ps[5]] == ps;
  }

  lemma BindSeven(ps: seq<string>)
    requires |ps| == 7
    ensures Bind(ps) == ps[0] + "?" + ps[1] + "?" + ps[2] + "?" + ps[3] + "?" + ps[4] + "?" + ps[5] + "?" + ps[6]
  {
    BindSix(ps[..6]);
    BindSnoc(ps[..6], ps[6]);
    assert ps[..6] + [ps[6]] == ps;
  }

  /** A statement written with `Bind` has one placeholder between each two parts. */
  lemma {:induction false} BindPlaceholders(parts: seq<string>)
    requires |parts| >= 1
    requires forall i :: 0 <= i < |parts| ==> '?' !in parts[i]
    ensures Placeholders(Bind(parts)) == |parts| - 1
    decreases |parts|
  {
    if |parts| == 1 {
      NoPlaceholders(parts[0]);
    } else {
      var init := parts[..|parts| - 1];
      BindPlaceholders(init);
      OnePlaceholder("");
      assert "" + "?" == "?";
      NoPlaceholders(parts[|parts| - 1]);
      PlaceholdersAppend(Bind(init), "?");
      PlaceholdersAppend(Bind(init) + "?", parts[|parts| - 1]);
    }
  }

  /** One `if (v) { query += text; params.push(...) }` step of a list
      handler, when `text` is the filter's condition, extends the query by
      that filter. */
  lemma Extend(head: string, done: seq<Filter>, f: Filter, query: string, params: seq<JsValue>, text: string)
    requires query == head + ListWhere(done) && params == FilterParams(done)
    requires text == " " + Condition(f.column, f.mode)
    ensures (if Active(f) then query + text else query) == head + ListWhere(done + [f])
    ensures (if Active(f) then params + [Bound(f)] else params) == FilterParams(done + [f])
  {
    ListStep(head, done, f);
  }

  /** Filters appended one at a time form the list of those filters. */
  lemma Appended(a: Filter, b: Filter, c: Filter, d: Filter)
    ensures [] + [a] + [b] == [a, b]
    ensures [] + [a] + [b] + [c] + [d] == [a, b, c, d]
  {
  }

  /** A list query over two filters, piece by piece. */
  lemma TwoFilters(head: string, fs: seq<Filter>)
    requires |fs| == 2
    ensures head + ListWhere(fs) == head + ListPiece(fs[0]) + ListPiece(fs[1])
    ensures FilterParams(fs) == ParamPiece(fs[0]) + ParamPiece(fs[1])
  {
    assert fs[..0] == [];
    assert fs[..1] == fs[..0] + [fs[0]];
    assert fs == fs[..1] + [fs[1]];
    ListStep(head, fs[..0], fs[0]);
    ListStep(head, fs[..1], fs[1]);
    assert head + ListWhere(fs[..0]) == head;
    assert [] + ParamPiece(fs[0]) == ParamPiece(fs[0]);
  }

  /** A list query over four filters, piece by piece. */
  lemma FourFilters(head: string, fs: seq<Filter>)
    requires |fs| == 4
    ensures head + ListWhere(fs) == head + ListPiece(fs[0]) + ListPiece(fs[1]) + ListPiece(fs[2]) + ListPiece(fs[3])
    ensures FilterParams(fs) == ParamPiece(fs[0]) + ParamPiece(fs[1]) + ParamPiece(fs[2]) + ParamPiece(fs[3])
  {
    assert fs[..0] == [];
    assert fs[..1] == fs[..0] + [fs[0]];
    assert fs[..2] == fs[..1] + [fs[1]];
    assert fs[..3] == fs[..2] + [fs[2]];
    assert fs == fs[..3] + [fs[3]];
    ListStep(head, fs[..0], fs[0]);
    ListStep(head, fs[..1], fs[1]);
    ListStep(head, fs[..2], fs[2]);
    ListStep(head, fs[..3], fs[3]);
    assert head + ListWhere(fs[..0]) == head;
    assert [] + ParamPiece(fs[0]) == ParamPiece(fs[0]);
  }

  /** One more filter adds its condition to the query text after `head`, and
      its bound value to the parameters, at the end. */
  lemma ListStep(head: string, fs: seq<Filter>, f: Filter)
    ensures head + ListWhere(fs + [f]) == head + ListWhere(fs) + ListPiece(f)
    ensures FilterParams(fs + [f]) == FilterParams(fs) + ParamPiece(f)
  {
    assert (fs + [f])[..|fs|] == fs;
    assert head + (ListWhere(fs) + ListPiece(f)) == head + ListWhere(fs) + ListPiece(f);
  }

  /** The list handler's WHERE text has one placeholder per bound filter value. */
  lemma {:induction false} ListWherePlaceholders(fs: seq<Filter>)
    requires forall i :: 0 <= i < |fs| ==> '?' !in fs[i].column
    ensures Placeholders(ListWhere(fs)) == |FilterParams(fs)|
    decreases |fs|
  {
    if fs != [] {
      var f := fs[|fs| - 1];
      var init := fs[..|fs| - 1];
      ListWherePlaceholders(init);
      PlaceholdersAppend(ListWhere(init), ListPiece(f));
      if Active(f) {
        ConditionPlaceholders(f);
      }
    }
  }

  /** The count query's WHERE text has one placeholder per bound filter value. */
  lemma {:induction false} CountWherePlaceholders(fs: seq<Filter>)
    requires forall i :: 0 <= i < |fs| ==> '?' !in fs[i].column
    ensures Placeholders(CountWhere(fs)) == |FilterParams(fs)|
    decreases |fs|
  {
    if fs != [] {
      var f := fs[|fs| - 1];
      var init := fs[..|fs| - 1];
      CountWherePlaceholders(init);
      var piece := if Active(f) then Condition(f.column, f.mode) else "";
      PlaceholdersAppend(CountWhere(init) + " ", piece);
      PlaceholdersAppend(CountWhere(init), " ");
      NoPlaceholders(" ");
      if Active(f) {
        ConditionPlaceholders(f);
      }
    }
  }

  lemma HeadPlaceholders(table: string)
    requires '?' !in table
    ensures Placeholders(ListHead(table)) == 0
    ensures Placeholders("SELECT COUNT(*) as total FROM " + table + " WHERE 1=1") == 0
  {
    assert '?' !in ListHead(table) by {
      assert '?' !in "SELECT * FROM ";
      assert '?' !in " WHERE 1=1";
    }
    NoPlaceholders(ListHead(table));
    assert '?' !in "SELECT COUNT(*) as total FROM " + table + " WHERE 1=1" by {
      assert '?' !in "SELECT COUNT(*) as total FROM ";
      assert '?' !in " WHERE 1=1";
    }
    NoPlaceholders("SELECT COUNT(*) as total FROM " + table + " WHERE 1=1");
  }

  lemma PageWindowPlaceholders()
    ensures Placeholders(" LIMIT ? OFFSET ?") == 2
  {
    OnePlaceholder(" LIMIT ");
    OnePlaceholder(" OFFSET ");
    assert " LIMIT ? OFFSET ?" == (" LIMIT " + "?") + (" OFFSET " + "?");
    PlaceholdersAppend(" LIMIT " + "?", " OFFSET " + "?");
  }

  /** Every `?` of a list query has exactly one parameter, and vice versa. */
  lemma ListQueryPlaceholders(table: string, fs: seq<Filter>, limit: int, offset: int)
    requires Plain(table, fs)
    ensures Placeholders(ListQuery(table, fs)) == |ListParams(fs, limit, offset)|
  {
    ListWherePlaceholders(fs);
    HeadPlaceholders(table);
    PageWindowPlaceholders();
    PlaceholdersAppend(ListHead(table), ListWhere(fs));
    PlaceholdersAppend(ListHead(table) + ListWhere(fs), " LIMIT ? OFFSET ?");
  }

  /** Every `?` of a count query has exactly one filter parameter, and vice versa. */
  lemma CountQueryPlaceholders(table: string, fs: seq<Filter>)
    requires Plain(table, fs)
    ensures Placeholders(CountQuery(table, fs)) == |FilterParams(fs)|
  {
    CountWherePlaceholders(fs);
    HeadPlaceholders(table);
    PlaceholdersAppend("SELECT COUNT(*) as total FROM " + table + " WHERE 1=1", CountWhere(fs));
  }

  lemma StripLeadingSpace(c: string)
    ensures StripSpaces(" " + c) == StripSpaces(c)
    ensures StripSpaces(" ") == ""
  {
    assert " "[..0] == "";
    StripSpacesAppend(" ", c);
  }

  /** The count query filters on the same conditions, in the same order, as the
      list query: the two WHERE texts differ only in spacing. */
  lemma SameConditionsStep(lw: string, cw: string, active: bool, c: string)
    requires StripSpaces(cw) == StripSpaces(lw)
    ensures StripSpaces(cw + " " + (if active then c else "")) == StripSpaces(lw + (if active then " " + c else ""))
  {
    StripLeadingSpace(c);
    StripSpacesAppend(cw, " ");
    if active {
      StripSpacesAppend(cw + " ", c);
      StripSpacesAppend(lw, " " + c);
      calc {
        StripSpaces(cw + " " + c);
        StripSpaces(cw + " ") + StripSpaces(c);
        StripSpaces(cw) + StripSpaces(" ") + StripSpaces(c);
        { assert StripSpaces(cw) + "" == StripSpaces(cw); }
        StripSpaces(lw) + StripSpaces(" " + c);
        StripSpaces(lw + (" " + c));
      }
    } else {
      assert cw + " " + "" == cw + " ";
      assert lw + "" == lw;
      assert StripSpaces(cw) + "" == StripSpaces(cw);
    }
  }

  lemma {:induction false} SameConditions(fs: seq<Filter>)
    ensures StripSpaces(CountWhere(fs)) == StripSpaces(ListWhere(fs))
    decreases |fs|
  {
    if fs != [] {
      var f := fs[|fs| - 1];
      var init := fs[..|fs| - 1];
      SameConditions(init);
      SameConditionsStep(ListWhere(init), CountWhere(init), Active(f), Condition(f.column, f.mode));
    }
  }
}
