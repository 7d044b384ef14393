# Membership services: table-to-REST framework and shop purchase filters

This project models two parts of the membership system in Dafny.

The first is the shared service framework of the `currentmember` services. It has five pieces.

- **Columns.** A column holds a storage name, an exposed name, a filter alias and optional read and write transforms. datetime and Decimal columns get default codecs where the caller left `identity`.
- **Entities.** An entity maps one table to get, put, post, delete and list. Its construction normalises the column list: it adds an implicit id column when none is given, makes the id column not writeable, and gives it the alias `entity_id` unless it already has a non-empty alias.
- **The list filter.** `list` builds its default filter from the query parameters. Each parameter that names a readable column, by exposed name or by alias, becomes an `IN (...)` clause with one placeholder per comma-separated value. When deletion is allowed, a soft-delete clause is added.
- **Services.** A service registers routes behind a permission guard, checked against the `X-User-Permissions` header, and reads its configuration from the environment. The handlers that `Entity.add_routes` registers are wrapped in the JSON envelope of `route_helper` by `add_routes` itself.
- **The start-up handshake.** Before registering, a service unregisters from the API gateway, with one retry.

The second is the shop's start-package purchase filter and the `PRODUCT_FILTERS` table.

The modules are listed below.

- `wrappers.dfy`: Option and Result.
- `text.dfy`: `str.split`/`join` on one separator and their round trips, ASCII lower-casing, and integer formatting.
- `columns.dfy`: `Column`, `__post_init__` (`NewColumn`) and the column normalisation of `Entity.__init__`.
- `query.dfy`: the default filter of `Entity.list`, with clauses and parameters as data.
- `http.dfy`: the permission guard, `route_helper`, the 4xx error rendering and `assert_get`.
- `services.dfy`:
  - the `APIGateway` value;
  - a `GatewayLink` class standing for the network, with the gateway's replies given in advance;
  - the `Service` class, whose route table and used-permission set are fields updated in place;
  - `read_config`;
  - `create` and `create_frontend`.
- `entities.dfy`: the `Entity` class. The backing table is a field `rows: map<int, Row>` plus the next auto-increment id.
- `shop.dfy`: `filter_start_package` and `PRODUCT_FILTERS`.

Modelling choices:

- **Values and transforms.** Table cells and request values are a `Value` datatype. The library conversions (`isoformat`, `dateutil.parser.parse`, `str`, `Decimal(str(x))`) are kept symbolic: applying one yields a `Converted(t, v)` term. The only behaviour of those lambdas that is modelled is that `None` stays `None` in the datetime codecs.
- **Rows and ids.** A row is a map from storage column to value. A column that was never set reads as NULL, and the `id` column reads as the row's key.
- **Auto-increment and listing order.** Ids are assigned 1, 2, 3, … from an initially empty table. The `SELECT` of `list` has no `ORDER BY`, so SQL fixes no row order; the model assumes the rows come back in ascending id order.
- **SQL comparison.** The comparison SQL uses for `IN` is a parameter `equals`. NULL is never in a list.
- **Injected inputs.** The database clock (`CURRENT_TIMESTAMP`), the host name, the environment and the gateway's replies are parameters. Times are integers in microseconds.

Three behaviours of the code worth noting:

- `Entity.get` returns soft-deleted rows too. It selects by id with no `deleted_at` test (service.py:324-331). Only `list` hides them, and only when deletion is allowed.
- The `id` column is readable only if its read transform is not None. A caller-supplied `Column("id", read=None)` leaves it out of reads; with no readable column at all, get and list build a SELECT with an empty field list, which fails (`EmptySelect`).
- `Entity.delete` *returns* a `MethodNotAllowed` instance rather than raising it (service.py:356). `Delete` returns it as its result.

## Model

| member | source | states |
|---|---|---|
| Text.Split | currentmember/common/service.py:97 | `str.split` on one character: one more part than separators, and no part contains the separator |
| Text.JoinSplit | currentmember/common/service.py:97 | joining the parts of a split with the separator gives back the string |
| Text.SplitJoin | currentmember/common/service.py:97 | splitting a join of separator-free parts gives back the parts |
| Text.Lower | currentmember/common/service.py:191 | each letter lower-cased, the length kept; no upper-case ASCII letter remains |
| Text.IntToString | currentmember/common/service.py:329 | `str` of an int: a leading minus exactly for negatives, then decimal digits whose value is the magnitude |
| Text.NatToString | currentmember/common/service.py:112 | `str` of a non-negative int: non-empty decimal digits with no leading zero, whose value is the number |
| Text.IntToStringInjective | currentmember/common/service.py:329 | different integers give different texts, so the id in the NotFound message and the port in the endpoint determine the number |
| Text.LowerMatches | currentmember/common/service.py:191 | lower-casing gives a given lower-case word iff the string spells it in any case |
| Columns.Apply | currentmember/common/service.py:268-294 | identity returns its argument; the datetime codecs map None to None; every other transform yields its converted value |
| Columns.NewColumn | currentmember/common/service.py:287-294 | the exposed name defaults to the storage name; a transform still equal to identity becomes the dtype's default codec; custom transforms and None are kept; storage name, dtype and alias unchanged |
| Columns.Materialise | currentmember/common/service.py:305 | a bare name becomes a plain `Column(name)`, a given Column is kept, position by position |
| Columns.WithId | currentmember/common/service.py:307-308 | the list always has an id column: unchanged if it had one, otherwise a plain id column is inserted at the front |
| Columns.EntityColumns | currentmember/common/service.py:305-315 | the constructed column list has an id column, one more column than given exactly when none was an id column, and every id column is not writeable and has an alias |
| Columns.Settle | currentmember/common/service.py:310-315 | the exposed name defaults to the storage name; an id column loses its write and gets alias "entity_id" unless it had a non-empty one; other columns keep write and alias |
| Columns.CountIdPositive | currentmember/common/service.py:307 | the count of id columns is positive iff "id" is among the storage names |
| Columns.CountIdSettled | currentmember/common/service.py:310-315 | settling the columns does not change how many are id columns |
| Columns.IdColumnCount | currentmember/common/service.py:305-315 | construction leaves exactly one id column when none was given, and otherwise as many as were given |
| Columns.ImplicitIdColumn | currentmember/common/service.py:305-315 | without a given id column, the implicit one comes first (readable with identity, not writeable, alias "entity_id"), followed by the given columns in order |
| Columns.IdColumnSettled | currentmember/common/service.py:310-315 | every id column of a constructed entity is not writeable and has a non-empty alias (the given one if non-empty); other columns keep read, write and alias |
| Columns.IdNeverWriteable | currentmember/common/service.py:313-318 | no writeable column of a constructed entity is the id column |
| Columns.Readable | currentmember/common/service.py:317 | a column is kept iff it has a read transform; never longer than the input |
| Columns.Writeable | currentmember/common/service.py:318 | a column is kept iff it has a write transform; never longer than the input |
| Columns.ReadableAppend | currentmember/common/service.py:317 | the readable filter keeps column order (distributes over concatenation) |
| Columns.WriteableAppend | currentmember/common/service.py:318 | the writeable filter keeps column order |
| Query.FormatColumnFilter | currentmember/common/service.py:361-362 | an `IN` clause on the storage column with one placeholder per value, each value encoded by the column's write, or left as is when it has none |
| Query.ByExposedName | currentmember/common/service.py:366 | the keys are exactly the exposed names; each maps to the last column with that exposed name |
| Query.ByAlias | currentmember/common/service.py:367 | the keys are exactly the aliases present; each maps to the last column with that alias |
| Query.NameToColumn | currentmember/common/service.py:366-367 | recognised names are the exposed names and the aliases; an alias takes precedence over a colliding exposed name |
| Query.NameToColumnLast | currentmember/common/service.py:366-367 | an alias selects the last column carrying it; an exposed name no column uses as alias selects the last column exposed under it |
| Query.Recognised | currentmember/common/service.py:369 | a query parameter is used iff its name is recognised |
| Query.RecognisedAppend | currentmember/common/service.py:369 | the recognised parameters keep their order and multiplicity: recognising distributes over concatenation |
| Query.FirstValue | currentmember/common/service.py:369 | the value of the first occurrence of a key in the query string, None iff the key does not occur |
| Query.ItemsExcept | currentmember/common/service.py:369 | the items of the query string whose key is not excluded: each key once, with its first value |
| Query.ArgItems | currentmember/common/service.py:369 | `request.args.items()`: a pair is an item iff its value is the key's first value; keys are distinct |
| Query.RepeatedKeyFirstValue | currentmember/common/service.py:369 | a key given twice filters on its first value only |
| Query.ColumnConditions | currentmember/common/service.py:369 | every clause built from the query parameters is an `IN` clause |
| Query.ColumnConditionsMatch | currentmember/common/service.py:369 | the i-th clause is the filter of the i-th recognised parameter's column over its comma-split value |
| Query.FilterFor | currentmember/common/service.py:366-375 | the filter for a given name-to-column map: one clause per recognised parameter, plus a final `deleted_at IS NULL` iff deletion is allowed; the column clauses come first, unchanged and in order |
| Query.BuildFilter | currentmember/common/service.py:365-375 | one clause per recognised parameter, plus a final `deleted_at IS NULL` iff deletion is allowed; that clause appears iff deletion is allowed |
| Query.PlaceholdersCount | currentmember/common/service.py:374-375 | when every clause binds as many values as it has placeholders, the statement's placeholders (`Placeholders`) equal its flattened parameters (`WhereValues`) |
| Query.PlaceholdersMatchValues | currentmember/common/service.py:362-375 | the default filter has exactly as many placeholders as parameters, and each recognised parameter contributes one per comma-separated value |
| Query.FilterForPlaceholders | currentmember/common/service.py:362-375 | the same for the filter of any name-to-column map |
| Query.ColumnConditionsAppend | currentmember/common/service.py:369 | the clauses of concatenated parameter lists are the concatenated clauses |
| Query.UnrecognisedIgnored | currentmember/common/service.py:369 | inserting a parameter that names no readable column anywhere leaves the filter unchanged |
| Query.Where | currentmember/common/service.py:374-378 | no WHERE part iff the filter is empty; otherwise the clauses in order |
| Query.NoWhereIff | currentmember/common/service.py:369-378 | the listing has no WHERE iff no parameter is recognised and deletion is not allowed |
| Http.EffectivePermission | currentmember/common/service.py:82-85 | a default permission is "service" on a backend and public on a frontend; an explicit one is kept |
| Http.Recorded | currentmember/common/service.py:87-88 | a named permission is recorded; a public route records nothing |
| Http.Tokens | currentmember/common/service.py:96-97 | a missing header reads as the single empty token; otherwise one token more than commas, none containing a comma |
| Http.Authorize | currentmember/common/service.py:94-101 | a request passes iff the route is public, or the header lists the permission or "service"; otherwise a 403 naming the permission |
| Http.MissingHeaderDenied | currentmember/common/service.py:96-99 | without the header, only public routes (or a route requiring the empty name) pass |
| Http.HeaderOfTokens | currentmember/common/service.py:96-98 | a header made of comma-free tokens grants a permission iff it lists it or "service" |
| Http.ServiceGrantsAll | currentmember/common/service.py:98 | a header listing "service" passes every guard |
| Http.Render | currentmember/common/service.py:129-141 | the response keeps the abort's code; it is JSON with the description as status iff the code is 4xx |
| Http.RouteHelper | currentmember/common/service.py:238-262 | a JSON route without a body gives 400 "missing json"; a NotFound (also a 404 abort) gives 404 "not found"; other aborts are rendered with their code, other errors give a 500; a result is wrapped with the route's status, without "data" when None |
| Http.Handle | currentmember/common/service.py:94-103 | a denied request gets the 403; an allowed one gets route_helper's response |
| Http.DeniedIgnoresHandler | currentmember/common/service.py:98-101 | a denied request never reaches its handler |
| Http.AssertGet | currentmember/common/service.py:173-177 | the value when the key is present; otherwise a 400 "Missing required parameter <key>" |
| Services.ApiGateway.FrontendUrl | currentmember/common/service.py:44-48 | the URL always starts with "http"; "http://" is prefixed exactly when the host lacks it |
| Services.ApiGateway.Url | currentmember/common/service.py:53-54 | `http://host/` followed by the path |
| Services.FrontendUrlScheme | currentmember/common/service.py:44-48 | a host without a scheme gives the same URL as the same host with "http://" |
| Services.GatewayLink.Post | currentmember/common/service.py:53-54 | the request goes to http://host/path with the bearer header; the next reply is consumed |
| Services.CallError | currentmember/common/service.py:116-127 | for a reply, "Failed to <what> service: " followed by the reply text (the register and unregister failures) |
| Services.RegisterRequest | currentmember/common/service.py:109-115 | a POST to service/register with the bearer header, carrying name, url, version and the endpoint `http://<hostname>:<port>/` |
| Services.UnregisterRequest | currentmember/common/service.py:121-125 | a POST to service/unregister with the bearer header, carrying url and version |
| Services.Service.constructor | currentmember/common/service.py:67-77 | the fields as given, no routes, no used permissions |
| Services.Service.FullPath | currentmember/common/service.py:79-80 | "/url" for the empty path, "/url/path" otherwise; always under "/url" |
| Services.FullPathInjective | currentmember/common/service.py:79-80 | distinct paths have distinct full paths |
| Services.Service.Route | currentmember/common/service.py:82-104 | the rule is appended under the full path with the effective permission, which is added to the used set when not public; nothing else changes |
| Services.Service.Register | currentmember/common/service.py:106-117 | a frontend sends nothing; a backend posts its name, url, `http://host:port/` endpoint and version, and fails with "Failed to register service: <text>" unless the reply is ok |
| Services.Service.Unregister | currentmember/common/service.py:119-127 | a frontend sends nothing; a backend posts url and version, and fails unless the reply is ok |
| Services.Service.AddRouteList | currentmember/common/service.py:143-147 | appends the "routes" rule (GET, default permission) and records "service" on a backend |
| Services.Service.ServeIndefinitely | currentmember/common/service.py:149-159 | adds the route list, then posts every used permission (including the route list's) to the membership service once, consuming one reply; fails exactly when the gateway is unreachable |
| Services.ParseDebug | currentmember/common/service.py:191-195 | accepted iff the lower-cased value is "true" or "false"; the flag is true iff it is "true" |
| Services.DebugFlagCaseInsensitive | currentmember/common/service.py:191-193 | APP_DEBUG is accepted iff it spells true or false in any letter case |
| Services.ReadConfig | currentmember/common/service.py:180-200 | succeeds iff all nine variables are set and APP_DEBUG parses; the database, gateway (with "Bearer " key) and debug flag come from them |
| Services.StartupHandshake | currentmember/common/service.py:213-222 | unregister first; registration is attempted iff one of the first two unregister calls succeeded, and it is the last call; start-up survives iff registration succeeded |
| Services.StartupHandshakeRetry | currentmember/common/service.py:213-222 | the second call is a repeated unregister exactly when the first unregister failed; every call but the last is an unregister, so there are at most two unregisters and one register; with three calls the register is among them (and, by `StartupHandshake`, last) |
| Services.UnregisterWithRetry | currentmember/common/service.py:213-219 | one unregister call when the first succeeds, otherwise a second whose result is final |
| Services.RunHandshake | currentmember/common/service.py:213-222 | the requests sent and the result follow the handshake the replies determine |
| Services.Create | currentmember/common/service.py:209-227 | a bad configuration sends nothing and consumes no reply; otherwise a new backend service exists iff the handshake succeeds, and the requests sent are exactly those the handshake determines, built from name, url, port, version and gateway |
| Services.CreateFrontend | currentmember/common/service.py:230-235 | a frontend named "frontend" without version, iff the configuration reads; no gateway calls |
| Entities.Lookup | currentmember/common/service.py:326-327 | the id column reads as the row's id; an unset cell reads as NULL; otherwise the stored cell |
| Entities.Fetch | currentmember/common/service.py:326-327 | one value per selected column: the row's cell, NULL when unset, the key for "id" |
| Entities.ConvertToDict | currentmember/common/service.py:336-338 | keys are exactly the exposed names; the last column of each name gives the read of its value |
| Entities.ConvertToRow | currentmember/common/service.py:333-334 | succeeds iff every writeable column's exposed name is in the data, giving each value through its write in column order; otherwise fails on the first missing key |
| Entities.ExtraKeysIgnored | currentmember/common/service.py:333-334 | data keys that no writeable column uses do not affect the row |
| Entities.Assign | currentmember/common/service.py:343-344 | the cells are the old ones plus the listed columns and no others; each column's cell holds its value (the last assignment wins); untouched cells keep their values |
| Entities.Updated | currentmember/common/service.py:344 | only the row with that id changes; an absent id changes nothing |
| Entities.SoftDeleted | currentmember/common/service.py:359 | only the row with that id changes: its `deleted_at` becomes the current time; an absent id changes nothing |
| Entities.DeleteTwice | currentmember/common/service.py:359 | deleting twice is deleting once at the later time; the row stays deleted |
| Entities.MatchingIds | currentmember/common/service.py:377-380 | an id is listed iff its row exists and satisfies every clause; ascending id order, the assumed row order of the database |
| Entities.SoftDeletedNeverListed | currentmember/common/service.py:371-379 | with deletion allowed, every listed row has `deleted_at` NULL |
| Entities.UnfilteredListsAll | currentmember/common/service.py:365-379 | without deletion, a query naming no readable column lists every row |
| Entities.ReadableDistinct | currentmember/common/service.py:317 | filtering to readable columns keeps names distinct |
| Entities.WriteableDistinct | currentmember/common/service.py:318 | filtering to writeable columns keeps names distinct |
| Entities.PostThenGet | currentmember/common/service.py:346-352 | with distinct names, what post stores reads back through get as the read of the write of the submitted value |
| Entities.Entity.constructor | currentmember/common/service.py:297-322 | the normalised column list of the settling loop, readable and writeable subsets, an empty table |
| Entities.Entity.Get | currentmember/common/service.py:322-331 | an empty field list fails (`EmptySelect`); otherwise NotFound "No item with id '<id>' in table <table>" iff the row is absent (soft-deleted rows are found); otherwise the readable columns of the row under their exposed names |
| Entities.Entity.Put | currentmember/common/service.py:340-344 | a missing key fails with no change; no writeable column fails with no change; otherwise only the row with that id changes, and only in its writeable columns |
| Entities.Entity.Post | currentmember/common/service.py:346-352 | a missing key fails with no change; otherwise a new row under the next id holding exactly the writeable columns' values, returned as get shows it |
| Entities.Entity.Delete | currentmember/common/service.py:354-359 | returns MethodNotAllowed and changes nothing when deletion is off; otherwise soft-deletes that row only |
| Entities.Entity.ListedIds | currentmember/common/service.py:369-380 | an id is listed iff its row exists and satisfies the filter built from `request.args.items()`; ascending id order (assumed, as for MatchingIds) |
| Entities.Entity.GetAll | currentmember/common/service.py:381 | each listed row as get shows it |
| Entities.Entity.List | currentmember/common/service.py:364-381 | an empty field list fails (`EmptySelect`); otherwise one dict per matching id, in ascending id order (assumed), each as get shows it |
| Entities.Entity.EntityRules | currentmember/common/service.py:383-392 | get, put, delete only when deletion is allowed, post, list, in that order; a DELETE rule exists iff deletion is allowed; every rule serves this table |
| Entities.Entity.EntityRulesTable | currentmember/common/service.py:386-392 | get and list are guarded by the effective read permission, the others by the write permission; post and list live on the endpoint and the others under its id path; each rule's verb, endpoint name, json flag and status ("ok", "updated", "deleted", "created") are those of its line |
| Entities.Entity.AddRoutes | currentmember/common/service.py:383-392 | the service gains exactly those rules and the effective read and write permissions |
| Shop.FilterStartPackage | api/src/shop/filters.py:7-18 | as written: no end date accepts; the date error iff the end date is before now + 270 days; otherwise the count error iff more than one item |
| Shop.AsWrittenRefusesPastAccess | api/src/shop/filters.py:13-15 | as written, a member whose access ended at any time in the past is refused |
| Shop.AsWrittenAcceptsFutureAccess | api/src/shop/filters.py:13-18 | as written, a member with access for 270 days or more to come buys one pack |
| Shop.FilterStartPackageIntended | api/src/shop/filters.py:7-18 | corrected: the date error iff access ended less than 270 days ago or runs on; otherwise the count check; no end date accepts |
| Shop.IntendedMatchesMessage | api/src/shop/filters.py:13-15 | the corrected filter refuses exactly members who had lab access at some instant of the last 270 days |
| Shop.InvertedDateTest | api/src/shop/filters.py:13-15 | on an access ended 1000 days ago and one running 300 more days, the two readings give opposite answers |
| Shop.BoundaryPasses | api/src/shop/filters.py:13 | the date test is strict: the boundary end date passes it |
| Shop.DateCheckFirst | api/src/shop/filters.py:13-18 | failing both checks reports the date error |
| Shop.ProductFiltersKeys | api/src/shop/filters.py:21-23 | `PRODUCT_FILTERS` has exactly the key "start_package", mapped to the start-package filter |
| Shop.CheckPurchase | api/src/shop/filters.py:21-23 | only "start_package" has a filter, the corrected start-package filter |

## Left out

- Database connection, `ping` and cursors (service.py:20-34): the table is the `rows` field.
- SQL text and quoting: clauses and parameters are data.
- The HTTP client of `APIGateway` (get, put, delete) and the transport: `GatewayLink.Post` stands for `post` with a scripted reply sequence; "no reply" stands for a connection error.
- `socket.gethostname()` is a parameter.
- Flask internals (the app, URL map matching, `jsonify`, the static route) are out of scope. The route table is a sequence of rules, and the site map's contents are not modelled.
- Signal handlers, `exit`, `sleep` and `eprint` are out of scope.
- `read_config` exiting the process is a `Failure`.
- The `_wrap_error_codes` registration loop is modelled only by its effect (`Render`).
- The library conversions (`isoformat`, date parsing, `Decimal`) and their parse errors are symbolic terms.
- `Text.Lower` lower-cases ASCII letters only; Python's `str.lower` also folds non-ASCII letters.
- `Entity.list` with a caller-supplied `where` string: only the default filter is modelled.
- `Entities.Entity.constructor`: `Entity.__init__` mutates the caller's `Column` objects in place (and an entity may share them). The model copies the columns, so that aliasing is not captured.
- `Services.Service.ServeIndefinitely`: the permissions are posted as a set. The comma-joined order follows Python's set iteration and is not modelled. The status of a reply is not checked by the source; only an unreachable gateway, which makes `requests.post` raise, is a failure.
- Flask's assertion against two rules with the same endpoint name is not modelled.
- `request.get_json()` errors on a malformed body are not modelled: only a missing body (None) is.
- Http.Render: assumes every abort code is one werkzeug knows. An unknown code makes `abort` itself raise a LookupError, which gives a 500. A 4xx code werkzeug does not know gets no JSON handler.
- Query.ArgItems: the contract fixes which (key, first value) pairs are items and that keys are distinct, but not their order. The order only affects the order of the AND-joined clauses, not which rows match.
- Entities.MatchingIds: the order in which the database returns the rows of the `SELECT` in `list` is not modelled; the listing is in ascending id order by assumption.
- `Entities.Entity.Put`: an UPDATE with no writeable column is invalid SQL. It is modelled as the `EmptyUpdate` failure rather than as the driver's error.
- `get_membership_summary` is outside this model: the lab-access end date is a parameter.
- `datetime.now()` is a parameter.

## Findings

| source | as written | input that shows it | evidently intended | confidence | as-written member | corrected member |
|---|---|---|---|---|---|---|
| api/src/shop/filters.py:13 | refuses when `end_date < now + 270 days`, so every member whose lab access has ended is refused, and a member with over 270 days of access still to come is accepted | access ended 1000 days ago, one item: refused; access ends in 300 days, one item: accepted | refuse iff lab access lasted into the last 270 days, i.e. `end_date > now - 270 days`, as the error message says | high, not executed | Shop.FilterStartPackage, Shop.InvertedDateTest | Shop.FilterStartPackageIntended, Shop.IntendedMatchesMessage, Shop.CheckPurchase |
