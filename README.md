# laravel-storedproc: the stored-procedure call builder, modelled in Dafny

The repository is a small Laravel helper: a fluent `StoredProcedure` builder
that turns a procedure name, a parameter source and the active database driver
into one `CALL`/`EXEC` statement, sends it to one of four database entry points
(default or named connection, with or without positional bindings) and
normalises the rows that come back.

The model has two modules:

- `Placeholders` (placeholders.dfy): `implode(', ', ...)` as `Join`, its
  inverse `Split`, the removal of the `_token` field and the `:field` prefixing.
  `Join` and `Split` are proved inverse to each other (`JoinSplit` for every
  string, `SplitJoin` for non-empty lists of tokens in which ", " does not occur).
- `StoredProcedures` (stored_procedure.dfy): the driver-to-dialect mapping,
  the clause `execute` appends, the choice of database entry point, result
  normalisation, and the class `StoredProcedure` itself. Its fields are the
  PHP class's protected fields. The setters are methods that may modify
  only their own field (their `modifies` frames say so) and return `this`.
  `command` is a `const` set by the constructor.
  Two client methods chain the calls end to end.

Unset PHP fields (`null`) are modelled as `""`, `[]` and `Rows.Unset`. PHP
string concatenation reads `null` as `""`. The loose comparisons in `execute`
(`null == ''`, `null == []`) hold too. So a builder whose connection or values
were never set goes to the default connection and the call without bindings.
The database facade is a parameter `db` of `Execute`, a function from the entry
point called to the rows returned. The call actually made is recorded in the
field `dispatched`.

`stored_procedure_result` (src/StoredProcedure.php:153-164) returns a plain
`[]` for zero rows and returns a non-empty plain array unchanged; only a
non-empty collection comes back as a collection. Its docblock describes a
`$return_type` parameter that the method does not have; the model follows the
code.

## Model

| member | source | states |
|---|---|---|
| `StoredProcedures.DialectFor` | src/StoredProcedure.php:38-48 | the dialect is EXEC exactly when the driver is `sqlsrv`; `mysql` and every other driver name, the empty one included, give CALL |
| `StoredProcedures.StoredProcedure.constructor` | src/StoredProcedure.php:33-49 | the command is the driver's dialect; every other field starts unset (empty), no call has been made |
| `StoredProcedures.StoredProcedure.SetProcedure` | src/StoredProcedure.php:56-62 | the statement becomes exactly the keyword, a space and the name, overwriting any earlier statement; only `query` may change; returns the same builder |
| `StoredProcedures.StoredProcedure.SetConnection` | src/StoredProcedure.php:69-73 | stores the connection name; only `connection` may change; returns the same builder |
| `StoredProcedures.StoredProcedure.SetParams` | src/StoredProcedure.php:82-110 | the placeholder list is that of the source: request fields other than `_token` as `:field` in request order, or raw tokens verbatim, joined by ", "; only `params` may change; returns the same builder |
| `StoredProcedures.StoredProcedure.SetValues` | src/StoredProcedure.php:117-121 | stores the bind values unchanged and in order; only `values` may change; returns the same builder |
| `StoredProcedures.StoredProcedure.Execute` | src/StoredProcedure.php:127-146 | the new statement is the old one followed by the dialect's clause (so the old one is a prefix); exactly one entry point, the one `Route` picks, is called with the new statement; its rows are kept as a plain array |
| `StoredProcedures.Clause` | src/StoredProcedure.php:129 | CALL appends " (", the list and ");", EXEC appends a space and the list; in both cases the list is recovered from the clause at fixed offsets |
| `StoredProcedures.Route` | src/StoredProcedure.php:132-144 | default connection exactly when the name is empty, a named connection otherwise, and then with that exact name; bindings exactly when values are non-empty, passed unchanged; the statement is passed unchanged |
| `StoredProcedures.RouteSeparatesConnections` | src/StoredProcedure.php:132-140 | the empty connection name and any non-empty one reach different entry points, the latter with the given name |
| `StoredProcedures.Normalised` | src/StoredProcedure.php:155-163 | zero rows give an empty plain array, never unset; a non-empty collection stays a collection and a non-empty array stays an array, with the same rows in the same order |
| `StoredProcedures.Count` | src/StoredProcedure.php:155 | the row count `collect(result)->count()` sees: 0 for an unset result, the number of rows otherwise; no contract of its own, it is the measure `Normalised` is stated with |
| `StoredProcedures.NormalisedIdempotent` | src/StoredProcedure.php:155-163 | normalising an already normalised result changes nothing |
| `StoredProcedures.StoredProcedure.Result` | src/StoredProcedure.php:153-164 | returns the normalised stored result |
| `StoredProcedures.PlaceholderList` | src/StoredProcedure.php:84-107 | the branch choice: a request yields `Join(Named(WithoutToken(keys)))`, raw tokens yield `Join(tokens)`; no contract of its own, it is the specification `SetParams` is proved against and `RequestExample`/`TokensExample` evaluate |
| `StoredProcedures.StatementParts` | src/StoredProcedure.php:59-130 | the final statement starts with the keyword and a space, then the procedure name, then the dialect's clause around the placeholder list |
| `StoredProcedures.RequestExample` | src/StoredProcedure.php:84-102 | a request with fields `_token`, `id`, `name` gives ":id, :name"; a request with only `_token` gives "" |
| `StoredProcedures.TokensExample` | src/StoredProcedure.php:104-107 | raw tokens `?`, `?` give "?, ?"; no tokens give "" |
| `StoredProcedures.StatementExamples` | src/StoredProcedure.php:129-130 | CALL on `get_user` with ":id, :name" is "CALL get_user (:id, :name);"; EXEC with "?, ?" is "EXEC get_user ?, ?" |
| `StoredProcedures.RequestCallOnMySql` | src/StoredProcedure.php:33-146 | the chained builder on `mysql` sends "CALL get_user (:id, :name);" to the default connection without bindings |
| `StoredProcedures.TokenCallOnSqlServer` | src/StoredProcedure.php:33-146 | the chained builder on `sqlsrv` with connection `reporting` and two values sends "EXEC get_user ?, ?" to that connection with those values |
| `Placeholders.WithoutToken` | src/StoredProcedure.php:87-90 | the remaining field names are exactly the request's names other than `_token`; without a `_token` field nothing is removed |
| `Placeholders.WithoutTokenAppend` | src/StoredProcedure.php:87-90 | removing `_token` distributes over concatenation, so the remaining names keep the request's order |
| `Placeholders.Named` | src/StoredProcedure.php:96-99 | one placeholder per field name, at the same position, equal to ":" followed by the name |
| `Placeholders.Join` | src/StoredProcedure.php:102-106 | `implode(', ', ...)`: the tokens in order separated by ", ". No contract of its own: it is the reference definition, tied to `Split` by `JoinSplit` and `SplitJoin` |
| `Placeholders.JoinSplit` | src/StoredProcedure.php:102 | every placeholder list is the join of the tokens read back from it |
| `Placeholders.SplitJoin` | src/StoredProcedure.php:106 | a non-empty list of tokens in which ", " does not occur is read back unchanged from its joined form, so nothing is prefixed, dropped or reordered |
| `Placeholders.RequestTokenCount` | src/StoredProcedure.php:84-102 | for field names in which ", " does not occur, the request-mode list reads back as one `:field` token per non-`_token` field, in order |

## Left out

- Query execution: `DB::select` and `DB::connection(...)->select` are foreign database calls. `Execute` takes the database as a total function from the call made to the rows returned. Driver errors (connection failure, syntax error, binding mismatch), which the source lets propagate, are not modelled.
- Driver lookup: `DB::getConfig("driver")` is a framework call. The driver name is a constructor parameter. The `$db` field, which only holds the facade's class name, is not modelled.
- Request detection: the `instanceof Request || instanceof FormRequest` test is replaced by the tag of `ParamSource`. Note that the imported `Request` is the HTTP client's request class. An incoming request that is not a `FormRequest` would therefore reach the array branch in PHP. That behaviour depends on framework types and is not modelled.
- Request mutation: `unset($params['_token'])` also changes the caller's request object. Only the exclusion of the field from the placeholder list is modelled.
- Request keys: PHP array keys are unique, so `_token` occurs at most once. `WithoutToken` removes every occurrence, which is the same on such inputs. Integer keys are modelled by their string form.
- Array-mode tokens: PHP would convert non-string elements to strings. Tokens are modelled as strings.
- Collections: `collect()` and `Collection::make` are library code. A result is a sequence of rows tagged as plain array or collection. A scalar result, which `DB::select` never returns, is not modelled.
- Bind values: a closed set of scalar kinds (null, bool, integer, string). Floating-point values are not modelled. Associative keys of the values array are not modelled; the values are an ordered sequence.
- Default arguments: the PHP setters default to `''` and `[]`. The model's callers pass those values explicitly.
- Dead code: `?? ''` after `implode` and `?? []` in `stored_procedure_values` can never apply, so they have no counterpart.
- Placeholders.SplitJoin: stated only for tokens in which ", " does not occur, because such a token makes the joined list ambiguous (`["a, b"]` and `["a", "b"]` join to the same string).
