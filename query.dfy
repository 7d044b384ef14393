/** The default filter of Entity.list: one `IN (...)` clause per recognised query
    parameter, plus the soft-delete clause, AND-joined with their parameters. */
module Query {
  import opened Wrappers
  import opened Text
  import opened Columns

  /** One SQL predicate, by structure: `db_column in (%s,...,%s)` or `deleted_at IS NULL`. */
  datatype Clause = In(dbColumn: string, placeholders: nat) | DeletedAtIsNull

  /** An entry of filter_data: a clause and the parameters it binds. */
  datatype Condition = Condition(clause: Clause, values: seq<Value>)

  /** The transform filter values are encoded with: the column's write, else identity. */
  function Encoder(c: Column): Transform
  {
    if c.write.Some? then c.write.value else Identity
  }

  /** Entity._format_column_filter */
  function FormatColumnFilter(c: Column, values: seq<string>): (f: Condition)
    ensures f.clause == In(c.dbColumn, |values|) && |f.values| == |values|
    ensures forall i :: 0 <= i < |values| ==> f.values[i] == Apply(Encoder(c), Text(values[i]))
  {
    Condition(In(c.dbColumn, |values|), seq(|values|, i requires 0 <= i < |values| => Apply(Encoder(c), Text(values[i]))))
  }

  /** `{c.exposed_name: c for c in cs}`: later columns win. */
  function ByExposedName(cs: seq<Column>): (m: map<string, Column>)
    ensures m.Keys == set c | c in cs :: c.exposedName
    ensures forall k :: k in m ==> m[k] in cs && m[k].exposedName == k
    // the last column of each exposed name is the one kept
    ensures forall i :: 0 <= i < |cs| && LastExposed(cs, i) ==> m[cs[i].exposedName] == cs[i]
  {
    if cs == [] then map[]
    else
      var last := cs[|cs| - 1];
      assert cs == cs[..|cs| - 1] + [last];
      LastExposedInPrefix(cs);
      ByExposedName(cs[..|cs| - 1])[last.exposedName := last]
  }

  /** `{c.alias: c for c in cs if c.alias is not None}`: later columns win. */
  function ByAlias(cs: seq<Column>): (m: map<string, Column>)
    ensures m.Keys == set c | c in cs && c.alias.Some? :: c.alias.value
    ensures forall k :: k in m ==> m[k] in cs && m[k].alias == Some(k)
    // the last column of each alias is the one kept
    ensures forall i :: 0 <= i < |cs| && cs[i].alias.Some? && LastAlias(cs, i) ==> m[cs[i].alias.value] == cs[i]
  {
    if cs == [] then map[]
    else
      var last := cs[|cs| - 1];
      var earlier := ByAlias(cs[..|cs| - 1]);
      assert cs == cs[..|cs| - 1] + [last];
      LastAliasInPrefix(cs);
      if last.alias.Some? then earlier[last.alias.value := last] else earlier
  }

  /** name2col of Entity.list: exposed names, then aliases overriding them. */
  function NameToColumn(readable: seq<Column>): (m: map<string, Column>)
    ensures m.Keys == (set c | c in readable :: c.exposedName) + (set c | c in readable && c.alias.Some? :: c.alias.value)
    ensures forall k :: k in m ==> m[k] in readable && (m[k].exposedName == k || m[k].alias == Some(k))
    // an alias takes precedence over an exposed name that collides with it
    ensures forall c :: c in readable && c.alias.Some? ==> m[c.alias.value].alias == c.alias
  {
    ByExposedName(readable) + ByAlias(readable)
  }

  /** Which column a recognised name selects: the last column with that alias;
      for an exposed name nobody uses as alias, the last column exposed under it. */
  lemma NameToColumnLast(readable: seq<Column>, i: int)
    requires 0 <= i < |readable|
    ensures readable[i].alias.Some? && LastAlias(readable, i) ==>
              NameToColumn(readable)[readable[i].alias.value] == readable[i]
    ensures LastExposed(readable, i) && (forall c :: c in readable ==> c.alias != Some(readable[i].exposedName)) ==>
              NameToColumn(readable)[readable[i].exposedName] == readable[i]
  {
    var name := readable[i].exposedName;
    if forall c :: c in readable ==> c.alias != Some(name) {
      assert name !in ByAlias(readable);
    }
  }

  /** The query parameters list acts on, in order. */
  function Recognised(m: map<string, Column>, args: seq<(string, string)>): (r: seq<(string, string)>)
    ensures forall i :: 0 <= i < |r| ==> r[i].0 in m
    ensures forall p :: p in r <==> p in args && p.0 in m
  {
    if args == [] then []
    else (if args[0].0 in m then [args[0]] else []) + Recognised(m, args[1..])
  }

  lemma {:induction false} RecognisedAppend(m: map<string, Column>, a: seq<(string, string)>, b: seq<(string, string)>)
    ensures Recognised(m, a + b) == Recognised(m, a) + Recognised(m, b)
  {
    if a == [] {
      assert a + b == b;
    } else {
      assert (a + b)[1..] == a[1..] + b;
      RecognisedAppend(m, a[1..], b);
    }
  }

  /** The value a query string gives a key first, if any. */
  function FirstValue(query: seq<(string, string)>, key: string): (v: Option<string>)
    ensures v.Some? <==> exists i :: 0 <= i < |query| && query[i].0 == key
    ensures v.Some? ==> exists i :: (0 <= i < |query| && query[i] == (key, v.value) &&
              forall j :: 0 <= j < i ==> query[j].0 != key)
  {
    if query == [] then None
    else if query[0].0 == key then Some(query[0].1)
    else
      var v := FirstValue(query[1..], key);
      assert forall i :: 1 <= i < |query| ==> query[i] == query[1..][i - 1];
      v
  }

  /** request.args.items() of the query string `query` (a list of key=value
      pairs in order), skipping keys in `seen`: each key once, with its first value. */
  function ItemsExcept(query: seq<(string, string)>, seen: set<string>): (items: seq<(string, string)>)
    ensures forall p :: p in items <==> p.0 !in seen && FirstValue(query, p.0) == Some(p.1)
    ensures forall i, j :: 0 <= i < j < |items| ==> items[i].0 != items[j].0
  {
    if query == [] then []
    else if query[0].0 in seen then ItemsExcept(query[1..], seen)
    else
      var rest := ItemsExcept(query[1..], seen + {query[0].0});
      assert forall j :: 0 <= j < |rest| ==> rest[j].0 != query[0].0 by {
        forall j | 0 <= j < |rest|
          ensures rest[j].0 != query[0].0
        {
          assert rest[j] in rest;
        }
      }
      [query[0]] + rest
  }

  /** request.args.items(): each key of the query string once, with its first value. */
  function ArgItems(query: seq<(string, string)>): (items: seq<(string, string)>)
    ensures forall p :: p in items <==> FirstValue(query, p.0) == Some(p.1)
    ensures forall i, j :: 0 <= i < j < |items| ==> items[i].0 != items[j].0
  {
    ItemsExcept(query, {})
  }

  /** `?x=1&x=2` filters on "1" only. */
  lemma RepeatedKeyFirstValue(key: string, first: string, second: string)
    ensures ArgItems([(key, first), (key, second)]) == [(key, first)]
  {
    var q := [(key, first), (key, second)];
    assert q[1..][1..] == [];
    assert ItemsExcept(q[1..], {key}) == ItemsExcept(q[1..][1..], {key}) == [];
    assert ItemsExcept(q, {}) == [q[0]] + ItemsExcept(q[1..], {} + {key});
  }

  /** The comprehension over request.args in Entity.list. */
  function ColumnConditions(m: map<string, Column>, args: seq<(string, string)>): (fd: seq<Condition>)
    ensures forall i :: 0 <= i < |fd| ==> fd[i].clause.In?
  {
    if args == [] then []
    else
      var rest := ColumnConditions(m, args[1..]);
      if args[0].0 in m then [FormatColumnFilter(m[args[0].0], Split(args[0].1, ','))] + rest else rest
  }

  /** The i-th clause comes from the i-th recognised parameter: its column, its
      comma-split values. */
  lemma {:induction false} ColumnConditionsMatch(m: map<string, Column>, args: seq<(string, string)>)
    ensures var fd := ColumnConditions(m, args);
            var rec := Recognised(m, args);
            |fd| == |rec| &&
            forall i :: 0 <= i < |fd| ==> fd[i] == FormatColumnFilter(m[rec[i].0], Split(rec[i].1, ','))
  {
    if args != [] {
      ColumnConditionsMatch(m, args[1..]);
      var fd, rec := ColumnConditions(m, args), Recognised(m, args);
      var rest, rrec := ColumnConditions(m, args[1..]), Recognised(m, args[1..]);
      if args[0].0 in m {
        assert fd == [FormatColumnFilter(m[args[0].0], Split(args[0].1, ','))] + rest;
        assert rec == [args[0]] + rrec;
        forall i | 0 <= i < |fd|
          ensures fd[i] == FormatColumnFilter(m[rec[i].0], Split(rec[i].1, ','))
        {
          if i > 0 {
            assert fd[i] == rest[i - 1] && rec[i] == rrec[i - 1];
          }
        }
      } else {
        assert fd == rest && rec == rrec;
      }
    }
  }

  /** filter_data of Entity.list with the default `where`. */
  function BuildFilter(readable: seq<Column>, args: seq<(string, string)>, allowDelete: bool): (fd: seq<Condition>)
    ensures |fd| == |ColumnConditions(NameToColumn(readable), args)| + (if allowDelete then 1 else 0)
    ensures |fd| == |Recognised(NameToColumn(readable), args)| + (if allowDelete then 1 else 0)
    ensures allowDelete ==> fd[|fd| - 1] == Condition(DeletedAtIsNull, [])
    ensures (exists i :: 0 <= i < |fd| && fd[i].clause == DeletedAtIsNull) <==> allowDelete
  {
    FilterFor(NameToColumn(readable), args, allowDelete)
  }

  /** filter_data for a given name2col. */
  function FilterFor(m: map<string, Column>, args: seq<(string, string)>, allowDelete: bool): (fd: seq<Condition>)
    ensures |fd| == |ColumnConditions(m, args)| + (if allowDelete then 1 else 0)
    ensures |fd| == |Recognised(m, args)| + (if allowDelete then 1 else 0)
    ensures fd[..|ColumnConditions(m, args)|] == ColumnConditions(m, args)
    ensures allowDelete ==> fd[|fd| - 1] == Condition(DeletedAtIsNull, [])
    ensures (exists i :: 0 <= i < |fd| && fd[i].clause == DeletedAtIsNull) <==> allowDelete
  {
    var fd := ColumnConditions(m, args) + (if allowDelete then [Condition(DeletedAtIsNull, [])] else []);
    ColumnConditionsMatch(m, args);
    assert allowDelete ==> fd[|fd| - 1].clause == DeletedAtIsNull;
    fd
  }

  /** The placeholders the clauses hold, in order. */
  function Placeholders(fd: seq<Condition>): nat
  {
    if fd == [] then 0
    else (if fd[0].clause.In? then fd[0].clause.placeholders else 0) + Placeholders(fd[1..])
  }

  /** where_values: the parameters of all clauses, flattened in order. */
  function WhereValues(fd: seq<Condition>): seq<Value>
  {
    if fd == [] then [] else fd[0].values + WhereValues(fd[1..])
  }

  /** A clause binds exactly as many parameters as it has placeholders. */
  predicate WellFormed(c: Condition)
  {
    match c.clause
    case In(_, n) => n == |c.values|
    case DeletedAtIsNull => c.values == []
  }

  lemma {:induction false} PlaceholdersCount(fd: seq<Condition>)
    requires forall i :: 0 <= i < |fd| ==> WellFormed(fd[i])
    ensures Placeholders(fd) == |WhereValues(fd)|
  {
    if fd != [] {
      PlaceholdersCount(fd[1..]);
    }
  }

  /** The statement's placeholders and its parameters agree in number, and each
      recognised parameter contributes one placeholder per comma-separated value. */
  lemma PlaceholdersMatchValues(readable: seq<Column>, args: seq<(string, string)>, allowDelete: bool)
    ensures Placeholders(BuildFilter(readable, args, allowDelete)) == |WhereValues(BuildFilter(readable, args, allowDelete))|
    ensures var fd := BuildFilter(readable, args, allowDelete);
            var rec := Recognised(NameToColumn(readable), args);
            forall i :: 0 <= i < |rec| ==>
              fd[i].clause.In? && fd[i].clause.placeholders == Count(rec[i].1, ',') + 1
  {
    FilterForPlaceholders(NameToColumn(readable), args, allowDelete);
  }

  lemma FilterForPlaceholders(m: map<string, Column>, args: seq<(string, string)>, allowDelete: bool)
    ensures Placeholders(FilterFor(m, args, allowDelete)) == |WhereValues(FilterFor(m, args, allowDelete))|
    ensures var fd := FilterFor(m, args, allowDelete);
            var rec := Recognised(m, args);
            forall i :: 0 <= i < |rec| ==>
              fd[i].clause.In? && fd[i].clause.placeholders == Count(rec[i].1, ',') + 1
  {
    var fd := FilterFor(m, args, allowDelete);
    var cc := ColumnConditions(m, args);
    ColumnConditionsMatch(m, args);
    assert forall i :: 0 <= i < |cc| ==> fd[i] == cc[i];
    assert forall i :: 0 <= i < |fd| ==> WellFormed(fd[i]) by {
      forall i | 0 <= i < |fd|
        ensures WellFormed(fd[i])
      {
        if i < |cc| {
          assert fd[i] == cc[i];
        }
      }
    }
    PlaceholdersCount(fd);
  }

  lemma {:induction false} ColumnConditionsAppend(m: map<string, Column>, a: seq<(string, string)>, b: seq<(string, string)>)
    ensures ColumnConditions(m, a + b) == ColumnConditions(m, a) + ColumnConditions(m, b)
  {
    if a == [] {
      assert a + b == b;
    } else {
      assert (a + b)[1..] == a[1..] + b;
      ColumnConditionsAppend(m, a[1..], b);
    }
  }

  /** A query parameter that names no readable column changes nothing. */
  lemma UnrecognisedIgnored(readable: seq<Column>, a: seq<(string, string)>, b: seq<(string, string)>,
                            key: string, value: string, allowDelete: bool)
    requires key !in NameToColumn(readable)
    ensures BuildFilter(readable, a + [(key, value)] + b, allowDelete) == BuildFilter(readable, a + b, allowDelete)
  {
    var m := NameToColumn(readable);
    var x := [(key, value)];
    ColumnConditionsAppend(m, a + x, b);
    ColumnConditionsAppend(m, a, x);
    ColumnConditionsAppend(m, a, b);
    assert ColumnConditions(m, x) == [] by {
      assert x[1..] == [];
    }
    assert ColumnConditions(m, a + x + b) == ColumnConditions(m, a + b);
  }

  /** The WHERE part of the SELECT: absent when there is no clause. */
  function Where(fd: seq<Condition>): (w: Option<seq<Clause>>)
    ensures w.None? <==> fd == []
    ensures w.Some? ==> |w.value| == |fd| && forall i :: 0 <= i < |fd| ==> w.value[i] == fd[i].clause
  {
    if fd == [] then None else Some(seq(|fd|, i requires 0 <= i < |fd| => fd[i].clause))
  }

  /** The listing has no WHERE exactly when no parameter is recognised and
      deletion is not allowed. */
  lemma NoWhereIff(readable: seq<Column>, args: seq<(string, string)>, allowDelete: bool)
    ensures Where(BuildFilter(readable, args, allowDelete)).None? <==>
            Recognised(NameToColumn(readable), args) == [] && !allowDelete
  {
  }
}
