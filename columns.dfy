/** Column codecs of the table-to-REST framework: per-field storage name, exposed
    name, filter alias and read/write transforms, and the normalisation an Entity
    applies to its column list when it is built. */
module Columns {
  import opened Wrappers

  /** The declared dtype of a column; only datetime and Decimal select default codecs. */
  datatype DType = Untyped | DateTime | Decimal

  /** The callables a column may carry as read or write transform. The library
      conversions are kept symbolic: applying one yields a `Converted` term. */
  datatype Transform =
    | Identity          // the module-level identity(), default for both directions
    | IsoFormat         // datetime read default: None stays None, else x.isoformat()
    | IsoParse          // datetime write default: None stays None, else parser.parse(x)
    | DecimalToText     // Decimal read default: str(x)
    | TextToDecimal     // Decimal write default: Decimal(str(x))
    | Custom(tag: nat)  // any callable supplied by the caller

  /** A value stored in a table cell or carried in a request. */
  datatype Value =
    | Null
    | Int(i: int)
    | Text(s: string)
    | Time(micros: int)
    | Converted(via: Transform, arg: Value)

  predicate IsDateTimeCodec(t: Transform)
  {
    t == IsoFormat || t == IsoParse
  }

  /** Runs a transform on a value. */
  function Apply(t: Transform, v: Value): (r: Value)
    ensures t == Identity ==> r == v
    ensures IsDateTimeCodec(t) && v == Null ==> r == Null
    ensures t != Identity && !(IsDateTimeCodec(t) && v == Null) ==> r == Converted(t, v)
  {
    match t
    case Identity => v
    case IsoFormat => if v == Null then Null else Converted(t, v)
    case IsoParse => if v == Null then Null else Converted(t, v)
    case _ => Converted(t, v)
  }

  /** A column after construction. A `None` read excludes the column from reads,
      a `None` write excludes it from writes. */
  datatype Column = Column(
    dbColumn: string,
    dtype: DType,
    read: Option<Transform>,
    write: Option<Transform>,
    exposedName: string,
    alias: Option<string>)

  /** The read codec a dtype installs in place of `identity`. */
  function DefaultRead(dtype: DType): Transform
  {
    match dtype
    case Untyped => Identity
    case DateTime => IsoFormat
    case Decimal => DecimalToText
  }

  /** The write codec a dtype installs in place of `identity`. */
  function DefaultWrite(dtype: DType): Transform
  {
    match dtype
    case Untyped => Identity
    case DateTime => IsoParse
    case Decimal => TextToDecimal
  }

  /** Python's `a or b` for an optional string. */
  function OrText(a: Option<string>, b: string): string
  {
    if a.Some? && a.value != "" then a.value else b
  }

  /** The dataclass constructor followed by `__post_init__`. */
  function NewColumn(
    dbColumn: string, dtype: DType, read: Option<Transform>, write: Option<Transform>,
    exposedName: Option<string>, alias: Option<string>): (c: Column)
    ensures c.dbColumn == dbColumn && c.dtype == dtype && c.alias == alias
    ensures c.exposedName == (if exposedName.Some? && exposedName.value != "" then exposedName.value else dbColumn)
    ensures c.exposedName == "" ==> dbColumn == ""
    // a custom transform, or None, is kept as given
    ensures read != Some(Identity) ==> c.read == read
    ensures write != Some(Identity) ==> c.write == write
    // a transform still equal to identity gets the dtype's default
    ensures read == Some(Identity) ==> c.read == Some(DefaultRead(dtype))
    ensures write == Some(Identity) ==> c.write == Some(DefaultWrite(dtype))
  {
    var exposed := OrText(exposedName, dbColumn);
    if dtype == DateTime then
      Column(dbColumn, dtype,
             if read == Some(Identity) then Some(IsoFormat) else read,
             if write == Some(Identity) then Some(IsoParse) else write,
             exposed, alias)
    else if dtype == Decimal then
      Column(dbColumn, dtype,
             if read == Some(Identity) then Some(DecimalToText) else read,
             if write == Some(Identity) then Some(TextToDecimal) else write,
             exposed, alias)
    else
      Column(dbColumn, dtype, read, write, exposed, alias)
  }

  /** `Column(name)` with every default. */
  function PlainColumn(name: string): Column
  {
    NewColumn(name, Untyped, Some(Identity), Some(Identity), None, None)
  }

  /** An entry of the column list given to Entity: a bare name or a Column. */
  datatype ColumnArg = Name(name: string) | Given(column: Column)

  /** `[Column(c) if isinstance(c, str) else c for c in columns]` */
  function Materialise(args: seq<ColumnArg>): (cs: seq<Column>)
    ensures |cs| == |args|
    ensures forall i :: 0 <= i < |args| && args[i].Name? ==> cs[i] == PlainColumn(args[i].name)
    ensures forall i :: 0 <= i < |args| && args[i].Given? ==> cs[i] == args[i].column
  {
    seq(|args|, i requires 0 <= i < |args| =>
      match args[i]
      case Name(n) => PlainColumn(n)
      case Given(c) => c)
  }

  function DbNames(cs: seq<Column>): (names: seq<string>)
    ensures |names| == |cs|
    ensures forall i :: 0 <= i < |cs| ==> names[i] == cs[i].dbColumn
  {
    seq(|cs|, i requires 0 <= i < |cs| => cs[i].dbColumn)
  }

  /** The implicit id column inserted when none is given. */
  function WithId(cs: seq<Column>): (r: seq<Column>)
    ensures "id" in DbNames(r)
    ensures "id" in DbNames(cs) ==> r == cs
    ensures "id" !in DbNames(cs) ==> r[0] == PlainColumn("id") && r[1..] == cs
  {
    if "id" in DbNames(cs) then cs
    else
      var r := [PlainColumn("id")] + cs;
      assert DbNames(r)[0] == "id";
      r
  }

  /** The body of the loop in Entity.__init__: exposed name defaulting, and for
      the id column no write and an alias defaulting to "entity_id". */
  function Settle(c: Column): (d: Column)
    ensures d.dbColumn == c.dbColumn && d.dtype == c.dtype && d.read == c.read
    ensures d.exposedName == OrText(Some(c.exposedName), c.dbColumn)
    ensures c.dbColumn == "id" ==> d.write == None && d.alias == Some(OrText(c.alias, "entity_id"))
    ensures c.dbColumn != "id" ==> d.write == c.write && d.alias == c.alias
  {
    var c1 := c.(exposedName := OrText(Some(c.exposedName), c.dbColumn));
    if c1.dbColumn == "id" then c1.(write := None, alias := Some(OrText(c1.alias, "entity_id"))) else c1
  }

  function SettleAll(cs: seq<Column>): (ds: seq<Column>)
    ensures |ds| == |cs|
    ensures forall i :: 0 <= i < |cs| ==> ds[i] == Settle(cs[i])
  {
    seq(|cs|, i requires 0 <= i < |cs| => Settle(cs[i]))
  }

  /** The column list an Entity holds once constructed. */
  function EntityColumns(args: seq<ColumnArg>): (cs: seq<Column>)
    ensures "id" in DbNames(cs)
    ensures |cs| == |args| + (if "id" in DbNames(Materialise(args)) then 0 else 1)
    ensures forall i :: 0 <= i < |cs| && cs[i].dbColumn == "id" ==> cs[i].write.None? && cs[i].alias.Some?
  {
    var given := WithId(Materialise(args));
    var cs := SettleAll(given);
    assert DbNames(cs) == DbNames(given);
    cs
  }

  /** Number of columns stored as "id". */
  function CountId(cs: seq<Column>): nat
  {
    if cs == [] then 0 else (if cs[0].dbColumn == "id" then 1 else 0) + CountId(cs[1..])
  }

  lemma {:induction false} CountIdPositive(cs: seq<Column>)
    ensures CountId(cs) > 0 <==> "id" in DbNames(cs)
  {
    if cs != [] {
      CountIdPositive(cs[1..]);
      assert DbNames(cs) == [cs[0].dbColumn] + DbNames(cs[1..]);
    }
  }

  lemma {:induction false} CountIdSettled(cs: seq<Column>)
    ensures CountId(SettleAll(cs)) == CountId(cs)
  {
    if cs != [] {
      CountIdSettled(cs[1..]);
      assert SettleAll(cs)[1..] == SettleAll(cs[1..]);
    }
  }

  /** Entity construction leaves exactly one id column unless the caller gave
      several; it never removes one. */
  lemma IdColumnCount(args: seq<ColumnArg>)
    ensures CountId(EntityColumns(args)) ==
            if CountId(Materialise(args)) == 0 then 1 else CountId(Materialise(args))
  {
    var m := Materialise(args);
    CountIdPositive(m);
    CountIdSettled(WithId(m));
    if "id" !in DbNames(m) {
      assert ([PlainColumn("id")] + m)[1..] == m;
    }
  }

  /** Without a given id column, the implicit one comes first: readable with
      identity, not writeable, filterable as "entity_id"; the given columns follow. */
  lemma ImplicitIdColumn(args: seq<ColumnArg>)
    requires forall i :: 0 <= i < |args| ==> Materialise(args)[i].dbColumn != "id"
    ensures |EntityColumns(args)| == |args| + 1
    ensures EntityColumns(args)[0] == Column("id", Untyped, Some(Identity), None, "id", Some("entity_id"))
    ensures forall i :: 0 < i <= |args| ==> EntityColumns(args)[i] == Settle(Materialise(args)[i - 1])
  {
    var m := Materialise(args);
    assert "id" !in DbNames(m);
  }

  /** Every id column ends up not writeable and with a non-empty alias, the
      given one if it was non-empty; other columns keep write and alias. */
  lemma IdColumnSettled(args: seq<ColumnArg>, i: int)
    requires 0 <= i < |EntityColumns(args)|
    ensures var c := EntityColumns(args)[i];
            c.dbColumn == "id" ==> c.write.None? && c.alias.Some? && c.alias.value != ""
    ensures var c := EntityColumns(args)[i];
            var given := WithId(Materialise(args))[i];
            c.dbColumn == "id" && given.alias.Some? && given.alias.value != "" ==> c.alias == given.alias
    ensures var c := EntityColumns(args)[i];
            var given := WithId(Materialise(args))[i];
            c.dbColumn != "id" ==> c.write == given.write && c.alias == given.alias && c.read == given.read
  {
  }

  /** No later column shares the exposed name of column i. */
  predicate LastExposed(cs: seq<Column>, i: int)
    requires 0 <= i < |cs|
  {
    forall j :: i < j < |cs| ==> cs[j].exposedName != cs[i].exposedName
  }

  /** No later column shares the alias of column i. */
  predicate LastAlias(cs: seq<Column>, i: int)
    requires 0 <= i < |cs|
  {
    forall j :: i < j < |cs| ==> cs[j].alias != cs[i].alias
  }

  /** A column last of its exposed name in the whole list is last of it in the
      list without the final column, and differs from the final column in it. */
  lemma LastExposedInPrefix(cs: seq<Column>)
    requires |cs| > 0
    ensures forall i :: 0 <= i < |cs| - 1 && LastExposed(cs, i) ==>
              LastExposed(cs[..|cs| - 1], i) && cs[i].exposedName != cs[|cs| - 1].exposedName
  {
    var n := |cs| - 1;
    forall i, j | 0 <= i < j < n
      ensures cs[..n][j] == cs[j] && cs[..n][i] == cs[i]
    {
    }
  }

  /** The same for aliases. */
  lemma LastAliasInPrefix(cs: seq<Column>)
    requires |cs| > 0
    ensures forall i :: 0 <= i < |cs| - 1 && LastAlias(cs, i) ==>
              LastAlias(cs[..|cs| - 1], i) && cs[i].alias != cs[|cs| - 1].alias
  {
    var n := |cs| - 1;
    forall i, j | 0 <= i < j < n
      ensures cs[..n][j] == cs[j] && cs[..n][i] == cs[i]
    {
    }
  }

  /** `[c for c in columns if c.read is not None]` */
  function Readable(cs: seq<Column>): (r: seq<Column>)
    ensures forall c :: c in r <==> c in cs && c.read.Some?
    ensures |r| <= |cs|
  {
    if cs == [] then [] else (if cs[0].read.Some? then [cs[0]] else []) + Readable(cs[1..])
  }

  /** `[c for c in columns if c.write is not None]` */
  function Writeable(cs: seq<Column>): (r: seq<Column>)
    ensures forall c :: c in r <==> c in cs && c.write.Some?
    ensures |r| <= |cs|
  {
    if cs == [] then [] else (if cs[0].write.Some? then [cs[0]] else []) + Writeable(cs[1..])
  }

  /** Filtering keeps the order: it distributes over concatenation. */
  lemma {:induction false} ReadableAppend(a: seq<Column>, b: seq<Column>)
    ensures Readable(a + b) == Readable(a) + Readable(b)
  {
    if a == [] {
      assert a + b == b;
    } else {
      assert (a + b)[1..] == a[1..] + b;
      ReadableAppend(a[1..], b);
    }
  }

  lemma {:induction false} WriteableAppend(a: seq<Column>, b: seq<Column>)
    ensures Writeable(a + b) == Writeable(a) + Writeable(b)
  {
    if a == [] {
      assert a + b == b;
    } else {
      assert (a + b)[1..] == a[1..] + b;
      WriteableAppend(a[1..], b);
    }
  }

  /** No settled column list lets the id column be written. */
  lemma IdNeverWriteable(args: seq<ColumnArg>)
    ensures forall c :: c in Writeable(EntityColumns(args)) ==> c.dbColumn != "id"
  {
    var cs := EntityColumns(args);
    forall c | c in Writeable(cs) ensures c.dbColumn != "id" {
      var i :| 0 <= i < |cs| && cs[i] == c;
      IdColumnSettled(args, i);
    }
  }
}
