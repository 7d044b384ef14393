/** Entity: one table mapped to get/put/post/delete/list. The table is the
    `rows` map, keyed by the auto-increment id; `deleted_at` is an ordinary cell. */
module Entities {
  import opened Wrappers
  import opened Text
  import opened Columns
  import opened Query
  import opened Http
  import opened Services

  /** The cells of one stored row other than its id; a cell never set is NULL. */
  type Row = map<string, Value>

  /** A row as the API shows or receives it, keyed by exposed name. */
  type Dict = map<string, Value>

  datatype EntityError =
    | NotFound(message: string)   // werkzeug NotFound
    | MethodNotAllowed            // the MethodNotAllowed() delete returns
    | MissingKey(key: string)     // KeyError from data[exposed_name]
    | EmptyUpdate                 // UPDATE with an empty SET list is not valid SQL
    | EmptySelect                 // SELECT with an empty field list is not valid SQL

  /** The value a SELECT gives for one column of the row stored under id. */
  function Lookup(id: int, row: Row, dbColumn: string): (v: Value)
    ensures dbColumn == "id" ==> v == Int(id)
    ensures dbColumn != "id" && dbColumn !in row ==> v == Null
    ensures dbColumn != "id" && dbColumn in row ==> v == row[dbColumn]
  {
    if dbColumn == "id" then Int(id) else if dbColumn in row then row[dbColumn] else Null
  }

  /** `SELECT <fields> ... WHERE id=%s`, one value per column. */
  function Fetch(id: int, row: Row, cols: seq<Column>): (vals: seq<Value>)
    ensures |vals| == |cols|
    ensures forall i :: 0 <= i < |cols| ==> vals[i] == Lookup(id, row, cols[i].dbColumn)
  {
    seq(|cols|, i requires 0 <= i < |cols| => Lookup(id, row, cols[i].dbColumn))
  }

  function ExposedNames(cols: seq<Column>): set<string>
  {
    set c | c in cols :: c.exposedName
  }

  /** No later column shares the storage name of column i. */
  predicate LastStored(cols: seq<Column>, i: int)
    requires 0 <= i < |cols|
  {
    forall j :: i < j < |cols| ==> cols[j].dbColumn != cols[i].dbColumn
  }

  predicate AllReadable(cols: seq<Column>)
  {
    forall i :: 0 <= i < |cols| ==> cols[i].read.Some?
  }

  predicate AllWriteable(cols: seq<Column>)
  {
    forall i :: 0 <= i < |cols| ==> cols[i].write.Some?
  }

  /** Entity._convert_to_dict: each value through its column's read, under its
      exposed name; a later column with the same name wins. */
  function ConvertToDict(cols: seq<Column>, vals: seq<Value>): (d: Dict)
    requires |vals| == |cols| && AllReadable(cols)
    ensures d.Keys == ExposedNames(cols)
    ensures forall i :: 0 <= i < |cols| && LastExposed(cols, i) ==>
              d[cols[i].exposedName] == Apply(cols[i].read.value, vals[i])
    decreases |cols|
  {
    if cols == [] then map[]
    else
      var n := |cols| - 1;
      var prefix := ConvertToDict(cols[..n], vals[..n]);
      ExposedNamesLast(cols);
      LastExposedInPrefix(cols);
      prefix[cols[n].exposedName := Apply(cols[n].read.value, vals[n])]
  }

  lemma ExposedNamesLast(cols: seq<Column>)
    requires |cols| > 0
    ensures ExposedNames(cols) == ExposedNames(cols[..|cols| - 1]) + {cols[|cols| - 1].exposedName}
  {
    var n := |cols| - 1;
    forall c | c in cols
      ensures c in cols[..n] || c == cols[n]
    {
      var k :| 0 <= k < |cols| && cols[k] == c;
      if k < n {
        assert cols[..n][k] == c;
      }
    }
  }

  /** Entity._convert_to_row: data[exposed_name] through write, in column order;
      the first missing key raises. */
  function ConvertToRow(cols: seq<Column>, data: Dict): (r: Result<seq<Value>, EntityError>)
    requires AllWriteable(cols)
    ensures r.Success? <==> forall i :: 0 <= i < |cols| ==> cols[i].exposedName in data
    ensures r.Success? ==> |r.value| == |cols|
    ensures r.Success? ==> forall i :: 0 <= i < |cols| ==>
              r.value[i] == Apply(cols[i].write.value, data[cols[i].exposedName])
    ensures r.Failure? ==> exists i :: (0 <= i < |cols| && r.error == MissingKey(cols[i].exposedName) &&
              cols[i].exposedName !in data && forall j :: 0 <= j < i ==> cols[j].exposedName in data)
  {
    if cols == [] then Success([])
    else if cols[0].exposedName !in data then Failure(MissingKey(cols[0].exposedName))
    else
      var rest := ConvertToRow(cols[1..], data);
      if rest.Failure? then
        assert exists i :: (1 <= i < |cols| && rest.error == MissingKey(cols[i].exposedName) &&
               cols[i].exposedName !in data && forall j :: 0 <= j < i ==> cols[j].exposedName in data) by {
          var k :| 0 <= k < |cols| - 1 && rest.error == MissingKey(cols[1..][k].exposedName) &&
                   cols[1..][k].exposedName !in data && forall j :: 0 <= j < k ==> cols[1..][j].exposedName in data;
          assert forall j :: 1 <= j < k + 1 ==> cols[j] == cols[1..][j - 1];
        }
        Failure(rest.error)
      else Success([Apply(cols[0].write.value, data[cols[0].exposedName])] + rest.value)
  }

  /** Keys that no writeable column is exposed under are never read. */
  lemma {:induction false} ExtraKeysIgnored(cols: seq<Column>, data: Dict, key: string, v: Value)
    requires AllWriteable(cols)
    requires forall i :: 0 <= i < |cols| ==> cols[i].exposedName != key
    ensures ConvertToRow(cols, data[key := v]) == ConvertToRow(cols, data)
  {
    if cols != [] {
      ExtraKeysIgnored(cols[1..], data, key, v);
    }
  }

  /** The storage names of a column list. */
  function StoredNames(cols: seq<Column>): set<string>
  {
    set n | n in DbNames(cols)
  }

  lemma StoredNamesCons(cols: seq<Column>)
    requires cols != []
    ensures StoredNames(cols) == {cols[0].dbColumn} + StoredNames(cols[1..])
  {
    assert cols == [cols[0]] + cols[1..];
  }

  /** `UPDATE ... SET c1=%s, c2=%s, ...` on one row: assignments run left to right. */
  function Assign(row: Row, cols: seq<Column>, vals: seq<Value>): (r: Row)
    requires |vals| == |cols|
    // only the listed columns are set: no other cell appears
    ensures r.Keys == row.Keys + StoredNames(cols)
    ensures forall k :: k in row && k !in StoredNames(cols) ==> r[k] == row[k]
    ensures forall i :: 0 <= i < |cols| && LastStored(cols, i) ==>
              cols[i].dbColumn in r && r[cols[i].dbColumn] == vals[i]
    decreases |cols|
  {
    if cols == [] then row
    else
      var row1 := row[cols[0].dbColumn := vals[0]];
      var r := Assign(row1, cols[1..], vals[1..]);
      StoredNamesCons(cols);
      assert forall i :: 1 <= i < |cols| ==> cols[i] == cols[1..][i - 1];
      r
  }

  /** The table after the UPDATE of put: only the row with that id changes, and
      an absent id changes nothing. */
  function Updated(rows: map<int, Row>, id: int, cols: seq<Column>, vals: seq<Value>): (r: map<int, Row>)
    requires |vals| == |cols|
    ensures r.Keys == rows.Keys
    ensures forall j :: j in rows && j != id ==> r[j] == rows[j]
    ensures id in rows ==> r[id] == Assign(rows[id], cols, vals)
  {
    if id in rows then rows[id := Assign(rows[id], cols, vals)] else rows
  }

  /** The table after delete's `UPDATE ... SET deleted_at=CURRENT_TIMESTAMP WHERE id=%s`. */
  function SoftDeleted(rows: map<int, Row>, id: int, now: int): (r: map<int, Row>)
    ensures r.Keys == rows.Keys
    ensures forall j :: j in rows && j != id ==> r[j] == rows[j]
    ensures id in rows ==> r[id] == rows[id]["deleted_at" := Time(now)]
  {
    if id in rows then rows[id := rows[id]["deleted_at" := Time(now)]] else rows
  }

  /** Deleting again keeps the row deleted; only the timestamp moves to the later call. */
  lemma DeleteTwice(rows: map<int, Row>, id: int, first: int, second: int)
    ensures SoftDeleted(SoftDeleted(rows, id, first), id, second) == SoftDeleted(rows, id, second)
    ensures id in rows ==> Lookup(id, SoftDeleted(SoftDeleted(rows, id, first), id, second)[id], "deleted_at") == Time(second)
  {
    if id in rows {
      assert rows[id]["deleted_at" := Time(first)]["deleted_at" := Time(second)] == rows[id]["deleted_at" := Time(second)];
    }
  }

  /** SQL `x IN (...)` under the engine's comparison; NULL is in no list. */
  predicate InList(x: Value, vs: seq<Value>, equals: (Value, Value) -> bool)
  {
    x != Null && exists v :: v in vs && equals(x, v)
  }

  predicate Holds(id: int, row: Row, c: Condition, equals: (Value, Value) -> bool)
  {
    match c.clause
    case In(col, _) => InList(Lookup(id, row, col), c.values, equals)
    case DeletedAtIsNull => Lookup(id, row, "deleted_at") == Null
  }

  /** The row satisfies every AND-joined clause. */
  predicate Matches(id: int, row: Row, fd: seq<Condition>, equals: (Value, Value) -> bool)
  {
    forall i :: 0 <= i < |fd| ==> Holds(id, row, fd[i], equals)
  }

  /** The ids in [lo, hi) whose rows satisfy the filter, in ascending order: the
      order the database returns rows in is assumed to be by id. */
  function MatchingIds(rows: map<int, Row>, fd: seq<Condition>, equals: (Value, Value) -> bool, lo: int, hi: int): (ids: seq<int>)
    ensures forall id :: id in ids <==> lo <= id < hi && id in rows && Matches(id, rows[id], fd, equals)
    ensures forall i, j :: 0 <= i < j < |ids| ==> ids[i] < ids[j]
    decreases hi - lo
  {
    if lo >= hi then []
    else
      var rest := MatchingIds(rows, fd, equals, lo + 1, hi);
      assert forall k :: 0 <= k < |rest| ==> lo < rest[k] by {
        forall k | 0 <= k < |rest|
          ensures lo < rest[k]
        {
          assert rest[k] in rest;
        }
      }
      (if lo in rows && Matches(lo, rows[lo], fd, equals) then [lo] else []) + rest
  }

  /** With deletion allowed, the default filter never lists a soft-deleted row. */
  lemma SoftDeletedNeverListed(rows: map<int, Row>, readable: seq<Column>, query: seq<(string, string)>,
                               equals: (Value, Value) -> bool, hi: int, id: int)
    requires id in MatchingIds(rows, BuildFilter(readable, query, true), equals, 1, hi)
    ensures id in rows && Lookup(id, rows[id], "deleted_at") == Null
  {
    var fd := BuildFilter(readable, query, true);
    assert Holds(id, rows[id], fd[|fd| - 1], equals);
  }

  /** Without deletion, a query that names no readable column lists every row. */
  lemma UnfilteredListsAll(rows: map<int, Row>, readable: seq<Column>, query: seq<(string, string)>,
                           equals: (Value, Value) -> bool, hi: int, id: int)
    requires Recognised(NameToColumn(readable), query) == []
    requires 1 <= id < hi && id in rows
    ensures id in MatchingIds(rows, BuildFilter(readable, query, false), equals, 1, hi)
  {
    assert BuildFilter(readable, query, false) == [];
  }

  /** Exposed and storage names are unique within the list. */
  predicate DistinctNames(cols: seq<Column>)
  {
    forall i, j :: 0 <= i < j < |cols| ==> cols[i].exposedName != cols[j].exposedName && cols[i].dbColumn != cols[j].dbColumn
  }

  lemma {:induction false} ReadableDistinct(cols: seq<Column>)
    requires DistinctNames(cols)
    ensures DistinctNames(Readable(cols))
  {
    if cols != [] {
      ReadableDistinct(cols[1..]);
      var rest := Readable(cols[1..]);
      forall c | c in rest
        ensures c.exposedName != cols[0].exposedName && c.dbColumn != cols[0].dbColumn
      {
        var k :| 0 <= k < |cols| - 1 && cols[1..][k] == c;
        assert cols[k + 1] == c;
      }
    }
  }

  lemma {:induction false} WriteableDistinct(cols: seq<Column>)
    requires DistinctNames(cols)
    ensures DistinctNames(Writeable(cols))
  {
    if cols != [] {
      WriteableDistinct(cols[1..]);
      var rest := Writeable(cols[1..]);
      forall c | c in rest
        ensures c.exposedName != cols[0].exposedName && c.dbColumn != cols[0].dbColumn
      {
        var k :| 0 <= k < |cols| - 1 && cols[1..][k] == c;
        assert cols[k + 1] == c;
      }
    }
  }

  /** What post stores and get then reads back: for a column both readable and
      writeable, the read of the write of the submitted value. */
  lemma PostThenGet(cols: seq<Column>, data: Dict, id: int, c: Column)
    requires DistinctNames(cols)
    requires c in cols && c.read.Some? && c.write.Some? && c.dbColumn != "id"
    requires ConvertToRow(Writeable(cols), data).Success?
    ensures var stored := Assign(map[], Writeable(cols), ConvertToRow(Writeable(cols), data).value);
            var readable := Readable(cols);
            c.exposedName in ConvertToDict(readable, Fetch(id, stored, readable)) &&
            ConvertToDict(readable, Fetch(id, stored, readable))[c.exposedName] ==
              Apply(c.read.value, Apply(c.write.value, data[c.exposedName]))
  {
    var readable, writeable := Readable(cols), Writeable(cols);
    var vals := ConvertToRow(writeable, data).value;
    var stored := Assign(map[], writeable, vals);
    ReadableDistinct(cols);
    WriteableDistinct(cols);
    var i :| 0 <= i < |readable| && readable[i] == c;
    var j :| 0 <= j < |writeable| && writeable[j] == c;
    assert LastExposed(readable, i);
    assert LastStored(writeable, j);
    assert stored[c.dbColumn] == vals[j];
    assert Fetch(id, stored, readable)[i] == stored[c.dbColumn];
  }

  /** The route of a single item under an endpoint: `<int:id>` after an empty
      endpoint, `/<int:id>` after any other. */
  function IdPath(endpoint: string): (p: string)
    ensures |p| > |endpoint| && p[..|endpoint|] == endpoint
  {
    endpoint + (if endpoint == "" then "<int:id>" else "/<int:id>")
  }

  /** Get and list are guarded by the read permission; the others by the write one. */
  predicate IsRead(op: EntityOp)
  {
    op == GetOp || op == ListOp
  }

  /** Post and list address the whole collection; the others one item. */
  predicate OnCollection(op: EntityOp)
  {
    op == PostOp || op == ListOp
  }

  /** The HTTP method, the Flask endpoint suffix and the envelope status of each route. */
  function Verb(op: EntityOp): string
  {
    match op
    case GetOp => "GET"
    case PutOp => "PUT"
    case DeleteOp => "DELETE"
    case PostOp => "POST"
    case ListOp => "GET"
  }

  function EndpointSuffix(op: EntityOp): string
  {
    match op
    case GetOp => ".get"
    case PutOp => ".put"
    case DeleteOp => ".delete"
    case PostOp => ".post"
    case ListOp => ".list"
  }

  function Status(op: EntityOp): string
  {
    match op
    case GetOp => "ok"
    case PutOp => "updated"
    case DeleteOp => "deleted"
    case PostOp => "created"
    case ListOp => "ok"
  }

  class Entity {
    const table: string
    const columns: seq<Column>
    const readable: seq<Column>
    const writeable: seq<Column>
    const allowDelete: bool
    /** The backing table. */
    var rows: map<int, Row>
    /** The table's next auto-increment id. */
    var nextId: int

    ghost predicate Valid()
      reads this
    {
      && readable == Readable(columns)
      && writeable == Writeable(columns)
      && (forall c :: c in writeable ==> c.dbColumn != "id")
      && 1 <= nextId
      && (forall id :: id in rows <==> 1 <= id < nextId)
    }

    /** Entity.__init__ over an empty table. */
    constructor (table: string, args: seq<ColumnArg>, allowDelete: bool)
      ensures Valid()
      ensures this.table == table && this.allowDelete == allowDelete
      ensures columns == EntityColumns(args)
      ensures rows == map[] && nextId == 1
    {
      var cs := Materialise(args);
      if "id" !in DbNames(cs) {
        cs := [PlainColumn("id")] + cs;
      }
      ghost var given := cs;
      var i := 0;
      while i < |cs|
        invariant 0 <= i <= |cs| == |given|
        invariant forall k :: 0 <= k < i ==> cs[k] == Settle(given[k])
        invariant forall k :: i <= k < |cs| ==> cs[k] == given[k]
      {
        cs := cs[i := Settle(cs[i])];
        i := i + 1;
      }
      assert cs == SettleAll(given);
      IdNeverWriteable(args);
      this.table := table;
      columns := cs;
      readable := Readable(cs);
      writeable := Writeable(cs);
      this.allowDelete := allowDelete;
      rows := map[];
      nextId := 1;
    }

    /** Entity.get: the readable columns of the row, soft-deleted or not. */
    function Get(id: int): (r: Result<Dict, EntityError>)
      requires Valid()
      reads this
      ensures r.Failure? <==> readable == [] || id !in rows
      ensures readable == [] ==> r == Failure(EmptySelect)
      ensures readable != [] && id !in rows ==>
                r == Failure(NotFound("No item with id '" + IntToString(id) + "' in table " + table))
      ensures r.Success? ==> r.value.Keys == ExposedNames(readable)
      ensures r.Success? ==> forall i :: 0 <= i < |readable| && LastExposed(readable, i) ==>
                r.value[readable[i].exposedName] == Apply(readable[i].read.value, Lookup(id, rows[id], readable[i].dbColumn))
    {
      if readable == [] then Failure(EmptySelect)
      else if id !in rows then Failure(NotFound("No item with id '" + IntToString(id) + "' in table " + table))
      else Success(ConvertToDict(readable, Fetch(id, rows[id], readable)))
    }

    /** Entity.put */
    method Put(data: Dict, id: int) returns (r: Result<(), EntityError>)
      requires Valid()
      modifies this
      ensures Valid() && nextId == old(nextId)
      ensures ConvertToRow(writeable, data).Failure? ==>
                r == Failure(ConvertToRow(writeable, data).error) && rows == old(rows)
      ensures ConvertToRow(writeable, data).Success? && writeable == [] ==> r == Failure(EmptyUpdate) && rows == old(rows)
      ensures r.Success? <==> ConvertToRow(writeable, data).Success? && writeable != []
      ensures r.Success? ==> rows == Updated(old(rows), id, writeable, ConvertToRow(writeable, data).value)
    {
      var values := ConvertToRow(writeable, data);
      if values.Failure? {
        return Failure(values.error);
      }
      if writeable == [] {
        return Failure(EmptyUpdate);
      }
      rows := Updated(rows, id, writeable, values.value);
      return Success(());
    }

    /** Entity.post: insert under the next id, then get that row. */
    method Post(data: Dict) returns (r: Result<Dict, EntityError>)
      requires Valid()
      modifies this
      ensures Valid()
      ensures ConvertToRow(writeable, data).Failure? ==>
                r == Failure(ConvertToRow(writeable, data).error) && rows == old(rows) && nextId == old(nextId)
      ensures ConvertToRow(writeable, data).Success? ==>
                && nextId == old(nextId) + 1
                && old(nextId) !in old(rows)
                && rows == old(rows)[old(nextId) := Assign(map[], writeable, ConvertToRow(writeable, data).value)]
                && r == Get(old(nextId)) && (r.Success? <==> readable != [])
    {
      var values := ConvertToRow(writeable, data);
      if values.Failure? {
        return Failure(values.error);
      }
      var id := nextId;
      rows := rows[id := Assign(map[], writeable, values.value)];
      nextId := nextId + 1;
      assert forall k :: k in rows <==> 1 <= k < nextId;
      r := Get(id);
    }

    /** Entity.delete: `now` is the database's CURRENT_TIMESTAMP. */
    method Delete(id: int, now: int) returns (r: Option<EntityError>)
      requires Valid()
      modifies this
      ensures Valid() && nextId == old(nextId)
      ensures !allowDelete ==> r == Some(MethodNotAllowed) && rows == old(rows)
      ensures allowDelete ==> r == None && rows == SoftDeleted(old(rows), id, now)
    {
      if !allowDelete {
        return Some(MethodNotAllowed);
      }
      rows := SoftDeleted(rows, id, now);
      return None;
    }

    /** The ids Entity.list returns with the default filter, for the query
        string `query` (its key=value pairs in order). */
    function ListedIds(query: seq<(string, string)>, equals: (Value, Value) -> bool): (ids: seq<int>)
      reads this
      ensures forall id :: id in ids <==>
                id in rows && 1 <= id < nextId && Matches(id, rows[id], BuildFilter(readable, ArgItems(query), allowDelete), equals)
      ensures forall i, j :: 0 <= i < j < |ids| ==> ids[i] < ids[j]
    {
      MatchingIds(rows, BuildFilter(readable, ArgItems(query), allowDelete), equals, 1, nextId)
    }

    /** Entity.list with the default filter: the matching rows, each as get shows it. */
    function List(query: seq<(string, string)>, equals: (Value, Value) -> bool): (r: Result<seq<Dict>, EntityError>)
      requires Valid()
      reads this
      ensures r.Failure? <==> readable == []
      ensures r.Failure? ==> r.error == EmptySelect
      ensures r.Success? ==> |r.value| == |ListedIds(query, equals)|
      ensures r.Success? ==> forall i :: 0 <= i < |r.value| ==> Get(ListedIds(query, equals)[i]) == Success(r.value[i])
    {
      if readable == [] then Failure(EmptySelect) else Success(GetAll(ListedIds(query, equals)))
    }

    /** Each id's row as get shows it. */
    function GetAll(ids: seq<int>): (r: seq<Dict>)
      requires Valid() && readable != [] && forall id :: id in ids ==> id in rows
      reads this
      ensures |r| == |ids|
      ensures forall i :: 0 <= i < |r| ==> Get(ids[i]) == Success(r[i])
    {
      if ids == [] then [] else [Get(ids[0]).value] + GetAll(ids[1..])
    }

    /** The rule add_routes registers for one operation, by the operation's
        table of verb, endpoint suffix, guard, path, json flag and status. */
    function OpRule(service: Service, endpoint: string, op: EntityOp, readPermission: PermissionArg,
                    writePermission: PermissionArg): (r: Rule)
      ensures r.handler.EntityHandler? && r.handler.op == op && r.handler.table == table
    {
      Rule(service.FullPath(if OnCollection(op) then endpoint else IdPath(endpoint)), endpoint + EndpointSuffix(op), [Verb(op)],
           EffectivePermission(service.frontend, if IsRead(op) then readPermission else writePermission),
           EntityHandler(table, op, op == PutOp || op == PostOp, Status(op)))
    }

    /** The rules Entity.add_routes registers, in order. */
    function EntityRules(service: Service, endpoint: string, readPermission: PermissionArg,
                         writePermission: PermissionArg): (rules: seq<Rule>)
      ensures |rules| == if allowDelete then 5 else 4
      ensures (exists i :: 0 <= i < |rules| && rules[i].methods == ["DELETE"]) <==> allowDelete
      ensures forall i :: 0 <= i < |rules| ==> rules[i].handler.EntityHandler? && rules[i].handler.table == table
      // get, put, [delete,] post, list
      ensures rules[0].handler.op == GetOp && rules[1].handler.op == PutOp
      ensures allowDelete ==> rules[2].handler.op == DeleteOp
      ensures rules[|rules| - 2].handler.op == PostOp && rules[|rules| - 1].handler.op == ListOp
    {
      var idPath := IdPath(endpoint);
      var read := EffectivePermission(service.frontend, readPermission);
      var write := EffectivePermission(service.frontend, writePermission);
      var get := Rule(service.FullPath(idPath), endpoint + ".get", ["GET"], read, EntityHandler(table, GetOp, false, "ok"));
      var put := Rule(service.FullPath(idPath), endpoint + ".put", ["PUT"], write, EntityHandler(table, PutOp, true, "updated"));
      var delete := Rule(service.FullPath(idPath), endpoint + ".delete", ["DELETE"], write, EntityHandler(table, DeleteOp, false, "deleted"));
      var post := Rule(service.FullPath(endpoint), endpoint + ".post", ["POST"], write, EntityHandler(table, PostOp, true, "created"));
      var list := Rule(service.FullPath(endpoint), endpoint + ".list", ["GET"], read, EntityHandler(table, ListOp, false, "ok"));
      var rules := if allowDelete then [get, put, delete, post, list] else [get, put, post, list];
      assert allowDelete ==> rules[2].methods == ["DELETE"];
      rules
    }

    /** Which permission guards each rule of add_routes, where it lives, and
        what its envelope says. */
    lemma EntityRulesTable(service: Service, endpoint: string, readPermission: PermissionArg,
                           writePermission: PermissionArg, rules: seq<Rule>)
      requires rules == EntityRules(service, endpoint, readPermission, writePermission)
      // reads are guarded by the read permission, everything else by the write permission
      ensures forall i :: 0 <= i < |rules| ==>
                rules[i].permission == EffectivePermission(service.frontend, if IsRead(rules[i].handler.op) then readPermission else writePermission)
      // post and list live on the endpoint itself, the others under its id path
      ensures forall i :: 0 <= i < |rules| ==>
                rules[i].path == service.FullPath(if OnCollection(rules[i].handler.op) then endpoint else IdPath(endpoint))
      ensures forall i :: 0 <= i < |rules| ==>
                && rules[i].methods == [Verb(rules[i].handler.op)]
                && rules[i].endpoint == endpoint + EndpointSuffix(rules[i].handler.op)
                && rules[i].handler.status == Status(rules[i].handler.op)
                && (rules[i].handler.json <==> rules[i].handler.op in {PutOp, PostOp})
    {
      var get, put, post, list :=
        OpRule(service, endpoint, GetOp, readPermission, writePermission),
        OpRule(service, endpoint, PutOp, readPermission, writePermission),
        OpRule(service, endpoint, PostOp, readPermission, writePermission),
        OpRule(service, endpoint, ListOp, readPermission, writePermission);
      if allowDelete {
        assert rules == [get, put, OpRule(service, endpoint, DeleteOp, readPermission, writePermission), post, list];
      } else {
        assert rules == [get, put, post, list];
      }
    }

    /** Entity.add_routes */
    method AddRoutes(service: Service, endpoint: string, readPermission: PermissionArg, writePermission: PermissionArg)
      modifies service
      ensures service.routes == old(service.routes) + EntityRules(service, endpoint, readPermission, writePermission)
      ensures service.usedPermissions == old(service.usedPermissions)
                + Recorded(EffectivePermission(service.frontend, readPermission))
                + Recorded(EffectivePermission(service.frontend, writePermission))
    {
      ghost var rules := EntityRules(service, endpoint, readPermission, writePermission);
      ghost var routes := service.routes;
      var idPath := IdPath(endpoint);
      var _ := service.Route(idPath, readPermission, endpoint + ".get", ["GET"], EntityHandler(table, GetOp, false, "ok"));
      var _ := service.Route(idPath, writePermission, endpoint + ".put", ["PUT"], EntityHandler(table, PutOp, true, "updated"));
      if allowDelete {
        var _ := service.Route(idPath, writePermission, endpoint + ".delete", ["DELETE"], EntityHandler(table, DeleteOp, false, "deleted"));
      }
      ghost var item := service.routes;
      assert item == routes + rules[..|rules| - 2];
      var _ := service.Route(endpoint, writePermission, endpoint + ".post", ["POST"], EntityHandler(table, PostOp, true, "created"));
      var _ := service.Route(endpoint, readPermission, endpoint + ".list", ["GET"], EntityHandler(table, ListOp, false, "ok"));
      assert service.routes == item + rules[|rules| - 2..];
      assert rules == rules[..|rules| - 2] + rules[|rules| - 2..];
    }
  }
}
