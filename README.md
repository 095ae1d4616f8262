# Query-fragment builder of express-jobly, in Dafny

This project models `helpers/sql.js` of express-jobly. That file is the small builder that turns a
partial, arbitrarily shaped request object into a parameterised SQL fragment plus the list of
values to bind. The fragment uses positional placeholders `$1`, `$2`, …. It has four operations:

- `sqlForPartialUpdate(dataToUpdate, jsToSql)` builds the `SET` list of a partial update. Each key
  becomes one `"<column>"=$i` clause. The column is the override from `jsToSql` when that is a
  non-empty name, and the key itself otherwise. An empty object is refused.
- `sqlForPartialFilter(criteria)` builds the company filter. It recognises the keys `nameLike`,
  `minEmployees` and `maxEmployees`. It first refuses `minEmployees > maxEmployees`, then refuses
  empty criteria and any unknown key. The predicates are joined by ` AND `.
- `sqlForJobFilter(criteria)` builds the job filter. It works the same way, over the keys `title`,
  `minSalary` and `hasEquity`, and has no range check.
- `queryFilterConvert(queryString)` coerces text-valued query parameters before filtering. The three
  numeric keys go through `Number`. `hasEquity` becomes a positive threshold for `"true"` and 0
  otherwise. Every other value is wrapped as `%value%`.

Files:

- `js_runtime.dfy` (module `JsRuntime`) models the JavaScript the builder leans on:
  - an object is the list of its own properties in enumeration order, with distinct keys;
  - property read and write, and `Object.keys` / `Object.values`;
  - `Number(text)`;
  - the relational operator `>`, including `undefined` and string operands;
  - how `${n}` renders a non-negative integer;
  - `Array.prototype.join`.
- `sql.dfy` (module `Sql`) holds the four operations.
  - A thrown `BadRequestError` becomes the `BadRequest(message)` case of a `Result`.
  - The three builders are functions.
  - `queryFilterConvert` fills its result object one property at a time inside a loop. It is
    therefore a method with a loop invariant, proved against the function `Coerced`.
- `sql_properties.dfy` (module `SqlProperties`) holds the properties callers rely on and the
  concrete cases from the repository's tests.
  - `SplitPlaceholder` reads any clause back as its text and its placeholder number.
  - With it, the model proves that clause i carries `$(i+1)` and that placeholder `$p` binds the
    p-th value. So no clause's own placeholder is the id placeholder `$(n+1)` that the update-by-id
    query appends.

Details of the code that are easy to misread, each of which the model follows:

- The column override is used only when it is truthy (here: a non-empty string). Having a key in
  the table is not enough.
- An unknown filter key is refused with the same message as empty criteria (`"No data"`). There is
  no separate error kind for it.
- The company range check runs on whatever object it is given. It is done before coercion only if
  the caller does that. Without coercion, two text bounds compare as strings (see
  `TextBoundsCompareAsText`).
- Keys and overrides are interpolated into the quoted column without escaping. A key holding `"`
  and `$k` puts extra placeholders into `setCols` (see `QuotedKeyInjectsPlaceholder`), so the
  freshness of `$(n+1)` holds for the clauses' own placeholders, not for every `$` in the text.
- `queryFilterConvert` wraps every key it does not know as `%value%`, not only the text keys.

## Model

| member | source | states |
|---|---|---|
| `JsRuntime.Keys` | helpers/sql.js:15 | `Object.keys(o)` (also at lines 42 and 104): the keys of the own properties, in enumeration order. |
| `JsRuntime.Values` | helpers/sql.js:25 | `Object.values(o)` (also at lines 64 and 126): the values of the own properties, in the same order as the keys. |
| `JsRuntime.Get` | helpers/sql.js:38 | A property read is `undefined` exactly when no property has the key; otherwise it gives a value stored under that key. On an object (distinct keys) it is the value of that key's property. |
| `JsRuntime.Put` | helpers/sql.js:82-89 | Assigning a key the object does not have appends the property at the end, so for the non-integer keys the model covers, insertion order is enumeration order. |
| `JsRuntime.PutReplaces` | helpers/sql.js:82-89 | On an object, writing a key it already has replaces that property's value where it stands; every other property and the order are unchanged. |
| `JsRuntime.GetAfterPut` | helpers/sql.js:79-91 | After `o[k] = v`, reading `k` gives `v` and reading any other key gives what it gave before. |
| `JsRuntime.Decimal` | helpers/sql.js:20 | The placeholder numeral `${idx + 1}` is a non-empty string of decimal digits that denotes the number and has no leading zero. |
| `JsRuntime.NumberOfDecimal` | helpers/sql.js:81 | `Number` of the numeral of n is n, and of `-` followed by that numeral is -n. |
| `JsRuntime.StrLessOrder` | helpers/sql.js:38 | `>` on two strings is irreflexive and asymmetric; a proper prefix is below the longer string, and no string is below its own prefix. |
| `JsRuntime.StrLessTransitive` | helpers/sql.js:38 | `>` on two strings is transitive, so with `StrLessOrder` it is a strict order. |
| `JsRuntime.JoinShape` | helpers/sql.js:24 | `parts.join(sep)` (also at lines 63 and 125) of one or more parts starts with the first part, and its length is the parts' total length plus one separator per gap. |
| `JsRuntime.Greater` | helpers/sql.js:38 | `a > b` can be true only when both operands are defined, so a missing bound never trips the check. |
| `Sql.ColumnName` | helpers/sql.js:20 | The override-or-key fallback of the template: a non-empty override names the column; a missing override and an empty (falsy) one both give the key; the column is empty only when the key and its override both are. |
| `Sql.WithPlaceholder` | helpers/sql.js:20 | The `$${idx + 1}` suffix shared by every clause (also at lines 49, 52, 55, 111, 114 and 117): the text, a `$`, then the numeral of the placeholder index. |
| `Sql.Assignment` | helpers/sql.js:20 | One `"<column>"=$n` clause of the `SET` list. |
| `Sql.SetClauses` | helpers/sql.js:19-21 | The `keys.map` of the update: clause i is the assignment of key i's column with placeholder i+1. |
| `Sql.SqlForPartialUpdate` | helpers/sql.js:14-27 | Fails with "No data" exactly when the input has no keys, whatever the override table. Otherwise `values` has one entry per key, and entry i is the value of the i-th key in insertion order, unchanged. |
| `Sql.CompanyPredicate` | helpers/sql.js:47-59 | The company filter knows a predicate exactly for `nameLike`, `minEmployees` and `maxEmployees`. |
| `Sql.JobPredicate` | helpers/sql.js:109-121 | The job filter knows a predicate exactly for `title`, `minSalary` and `hasEquity`. |
| `Sql.FilterClauses` | helpers/sql.js:47-60 | The predicate list exists exactly when every key is in the table; otherwise the `map` throws. Then it has one predicate per key, and predicate i reads back, through `SplitPlaceholder`, as the table's text for key i with placeholder i+1. |
| `Sql.MinExceedsMax` | helpers/sql.js:38 | The guard `criteria['minEmployees'] > criteria['maxEmployees']`: both bounds read with `undefined` for a missing one, compared with JavaScript's `>`. |
| `Sql.SqlForPartialFilter` | helpers/sql.js:36-66 | With `minEmployees > maxEmployees` it fails with the range message, before any other check. Otherwise it succeeds exactly for non-empty criteria over the three company keys, and fails with "No data" in every other case. On success `values` lists the criteria values in order. |
| `Sql.SqlForJobFilter` | helpers/sql.js:102-128 | Succeeds exactly for non-empty criteria over the three job keys, and fails with "No data" otherwise. On success `values` lists the criteria values in order. |
| `Sql.Coerce` | helpers/sql.js:80-90 | The kind of the stored value follows the key. A numeric key gives a number or NaN. `hasEquity` gives a non-negative number. Any other key gives text two characters longer than the raw value. |
| `Sql.Coerced` | helpers/sql.js:77-93 | The object `queryFilterConvert` returns, as a value: each property of the query, in enumeration order, with its value coerced by its key. |
| `Sql.QueryFilterConvert` | helpers/sql.js:77-93 | The object built property by property equals `Coerced(queryString)`: the same keys in the same order, each value coerced by its key. |
| `Sql.SplitWithPlaceholder` | helpers/sql.js:20 | A clause `text + "$" + n` reads back as exactly `(text, n)`, whatever the text ends with. |
| `SqlProperties.UpdatePlaceholdersAligned` | helpers/sql.js:19-25 | For a non-empty update, `setCols` is the n clauses joined by `", "`. Clause i reads back as `"<column>"=` with placeholder i+1. The column is the truthy override or the key. The value bound to that placeholder is the i-th property's value. |
| `SqlProperties.UpdateByIdPlaceholderIsFresh` | models/jobs.js:89-100 | In `[...values, id]` the placeholder `$(values.length+1)` binds the id. Every clause's own trailing placeholder lies in 1..n, so none of them is `$(n+1)`. Each one binds its own property's value. |
| `SqlProperties.CompanyFilterAligned` | helpers/sql.js:47-64 | On success the company `sqlString` is the predicates joined by `" AND "`. Predicate i reads back as its key's fixed text (`name ILIKE`, `num_employees >=`, `num_employees <=`) with placeholder i+1. That placeholder binds the i-th criterion's value. |
| `SqlProperties.JobFilterAligned` | helpers/sql.js:109-126 | The same for the job filter, with `title ILIKE`, `salary >=` and `equity >=`. |
| `SqlProperties.MinExceedsMaxOnNumbers` | helpers/sql.js:38-40 | With two numeric bounds, the range check fires exactly when min > max. |
| `SqlProperties.CompanyFilterWithOneBound` | helpers/sql.js:38-59 | Without a `maxEmployees` bound, or without a `minEmployees` bound, the range check never fires. The company filter then succeeds exactly for non-empty criteria over its keys. |
| `SqlProperties.CoercedKeepsKeys` | helpers/sql.js:78-92 | Coercion keeps the keys, their order and their distinctness. |
| `SqlProperties.CoerceNumeral` | helpers/sql.js:80-82 | Under `minEmployees`, `maxEmployees` or `minSalary`, the numeral of n (optionally with `-`) becomes the number ±n, and the empty text becomes 0. |
| `SqlProperties.CoerceNonNumeral` | helpers/sql.js:81 | Under a numeric key, text made of one or more decimal digits followed by an ASCII letter other than b, e, o or x (either case) becomes NaN. That text is NaN for JavaScript's `Number` too: it cannot be a decimal, exponent or prefixed literal. |
| `SqlProperties.CoerceEquity` | helpers/sql.js:84-86 | `hasEquity` becomes a number. It is positive exactly for the text "true", and 0 for anything else. |
| `SqlProperties.CoerceWraps` | helpers/sql.js:88-89 | Every other key becomes `%` + value + `%`, and stripping the two `%` gives the raw text back. |
| `SqlProperties.JobSearchPipeline` | models/jobs.js:139-142 | Coercion followed by the job filter succeeds exactly for a non-empty query over the job keys. It then binds the coerced values in query order. |
| `SqlProperties.CoercedRangeCheck` | helpers/sql.js:38-40 | In any query object whose `minEmployees` and `maxEmployees` are decimal texts, wherever they stand, the coerced query passes the range check exactly when min <= max. |
| `SqlProperties.UpdateExample` | helpers/sql.test.js:10-18 | `{name, numEmployees, description}` with the override `numEmployees → num_employees` gives `"name"=$1, "num_employees"=$2, "description"=$3`, with the three values in order, whatever they are. |
| `SqlProperties.QuotedKeyInjectsPlaceholder` | helpers/sql.js:20 | The key is quoted unescaped: the key `a"=$2, "b` makes `setCols` read `"a"=$2, "b"=$1`, so a `$2` appears beside the clause's own `$1`. |
| `SqlProperties.EmptyUpdateRefused` | models/jobs.test.js:123-132 | An empty update is a BadRequest "No data", whatever the override table. |
| `SqlProperties.JobSearchExample` | routes/jobs.test.js:219-231 | `?title=j&minSalary=1000&hasEquity=true` gives `title ILIKE $1 AND salary >= $2 AND equity >= $3` with `["%j%", 1000, 0.0001]`. |
| `SqlProperties.JobSearchNoEquityExample` | routes/jobs.test.js:233-257 | With `hasEquity=false` the predicate text is the same, and the last value is 0. |
| `SqlProperties.CompanyFilterExample` | helpers/sql.js:29-31 | `{nameLike, minEmployees: 300}` gives `name ILIKE $1 AND num_employees >= $2` with the two values in order. |
| `SqlProperties.InvertedRangeExample` | helpers/sql.js:38-40 | minEmployees 500 with maxEmployees 100 is refused with the range message, even when an unknown key is present too. |
| `SqlProperties.TextBoundsCompareAsText` | helpers/sql.js:38 | Uncoerced text bounds compare as strings: `"9" > "10"`, so the check fires. |

## Left out

- `JsRuntime.ToNumber`: models `Number(text)` only for the empty text (0), for decimal digits with an optional sign (that integer), and everything else gives NaN. In JavaScript, whitespace trimming, fractions, exponents, `Infinity` and `0x`/`0o`/`0b` literals also give numbers. The model therefore gives NaN for some texts that JavaScript reads as numbers, such as `"1e3"`, `"1.5"` and `" 7"`; `CoerceNonNumeral` is stated only for texts that are NaN in both (a digit run followed by a letter that is not an exponent or prefix letter).
- Numbers are exact reals, not IEEE doubles. The equity threshold `0.0001` is therefore exact. Rounding, `-0` and infinities are not modelled.
- `JsRuntime.StrLess` compares by character (Unicode scalar). JavaScript compares UTF-16 code units. The two orders differ only for characters outside the Basic Multilingual Plane.
- Property reads see own properties only. A prototype property such as `jsToSql["constructor"]` would be truthy in JavaScript and would become the column text. The model does not cover that case.
- The override table is a `map<string, string>`, and its only falsy entry is `""`. Overrides that are not strings are not modelled.
- Raw query values are strings. The arrays that repeated query parameters produce are not modelled.
- Objects are taken in their enumeration order as given. JavaScript's own ordering of integer-like keys is not modelled: such keys enumerate first, in ascending order, whatever the insertion order, so `JsRuntime.Put`'s append places them wrongly.
- `JsRuntime.Put`, and with it `Sql.Coerced` and `Sql.QueryFilterConvert`: a write to the key `__proto__` is modelled as an ordinary append. In JavaScript `qString["__proto__"] = "%x%"` calls the inherited setter, which ignores a non-object value and creates no property. So for a query with an own `__proto__` property (possible through `JSON.parse`), the source drops that key, while the model keeps it, and the job filter then refuses the query with "No data".
- The query layer in `models/jobs.js` is cited but not modelled: database access through the connection pool, async/await, the zero-rows-to-NotFoundError translation, and `console.log`. `routes/jobs.js` (Express routing, JSON-schema validation, authentication) is not part of this model either.
- `models/company.js` (the caller of the company filter) is not part of this model. Nothing is claimed about whether companies' query parameters are coerced before the range check.
- How the database evaluates `ILIKE`, `>=` and `<=` is not modelled. Only the predicate text and the bound values are.
- Determinism of coercion is not stated as a lemma: every Dafny function is deterministic by construction.
- `Sql.QueryFilterConvert` requires that the input keys be distinct, which holds for any JavaScript object.
