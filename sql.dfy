/** The query-fragment builder: a partial update becomes a list of
    `"column"=$i` assignments, a set of filter criteria becomes a list of
    predicates joined by AND, and in both the value bound to placeholder
    `$i` is the i-th property's value. Text-valued query parameters are
    first coerced to the types the predicates compare against. */
module Sql {
  import opened JsRuntime

  /** What the builders return: a fragment, or the BadRequestError they throw. */
  datatype Result<T> = Ok(value: T) | BadRequest(message: string)

  datatype UpdateFragment<V> = UpdateFragment(setCols: string, values: seq<V>)

  datatype FilterFragment = FilterFragment(sqlString: string, values: seq<JsValue>)

  const NoData := "No data"
  const MinAboveMax := "Filter request failed: min > max"

  // ---------------------------------------------------------------- placeholders

  /** `${text}$${n}`: a clause ending in the positional placeholder `$n`. */
  function WithPlaceholder(text: string, n: nat): string
  {
    text + "$" + Decimal(n)
  }

  /** The number of decimal digits that run back from position end of s. */
  function DigitRun(s: string, end: nat): (n: nat)
    requires end <= |s|
    ensures n <= end && forall j :: end - n <= j < end ==> IsDigit(s[j])
    ensures n < end ==> !IsDigit(s[end - n - 1])
  {
    if end == 0 || !IsDigit(s[end - 1]) then 0 else 1 + DigitRun(s, end - 1)
  }

  /** Reads a clause back as its text and the index of its trailing
      placeholder `$n`; `None` when it does not end in a placeholder. */
  function SplitPlaceholder(c: string): Option<(string, nat)>
  {
    var n := DigitRun(c, |c|);
    if 0 < n < |c| && c[|c| - n - 1] == '$' then Some((c[..|c| - n - 1], DigitsValue(c[|c| - n..])))
    else None
  }

  /** DigitRun stops exactly at the first non-digit before a run of m digits
      (its own contract pins the run down). */
  lemma DigitRunExact(s: string, end: nat, m: nat)
    requires m <= end <= |s|
    requires forall j :: end - m <= j < end ==> IsDigit(s[j])
    requires m < end ==> !IsDigit(s[end - m - 1])
    ensures DigitRun(s, end) == m
  {
  }

  /** A clause built with a placeholder reads back as the same text and index,
      whatever the text ends with. */
  lemma SplitWithPlaceholder(text: string, n: nat)
    ensures SplitPlaceholder(WithPlaceholder(text, n)) == Some((text, n))
  {
    var c, d := WithPlaceholder(text, n), Decimal(n);
    assert c[|c| - |d|..] == d;
    assert c[|c| - |d| - 1] == '$';
    DigitRunExact(c, |c|, |d|);
    assert c[..|c| - |d| - 1] == text;
  }

  // ---------------------------------------------------------------- partial update

  /** `jsToSql[key] || key`: a truthy override names the column; a missing or
      empty one falls back to the key, so the column is empty only for the
      empty key. */
  function ColumnName(jsToSql: map<string, string>, key: string): (r: string)
    ensures key !in jsToSql ==> r == key
    ensures key in jsToSql && jsToSql[key] != "" ==> r == jsToSql[key]
    ensures key in jsToSql && jsToSql[key] == "" ==> r == key
    ensures r == "" <==> key == "" && (key !in jsToSql || jsToSql[key] == "")
  {
    if key in jsToSql && jsToSql[key] != "" then jsToSql[key] else key
  }

  /** `"${column}"=$${n}` */
  function Assignment(column: string, n: nat): string
  {
    WithPlaceholder("\"" + column + "\"=", n)
  }

  /** `keys.map((colName, idx) => ...)`: one assignment per key, numbered from 1. */
  function SetClauses(keys: seq<string>, jsToSql: map<string, string>): seq<string>
  {
    seq(|keys|, i requires 0 <= i < |keys| => Assignment(ColumnName(jsToSql, keys[i]), i + 1))
  }

  /** sqlForPartialUpdate(dataToUpdate, jsToSql) */
  function SqlForPartialUpdate<V>(dataToUpdate: seq<Property<V>>, jsToSql: map<string, string>)
    : (r: Result<UpdateFragment<V>>)
    ensures r.BadRequest? <==> |dataToUpdate| == 0
    ensures r.BadRequest? ==> r.message == NoData
    ensures r.Ok? ==> |r.value.values| == |dataToUpdate|
    ensures r.Ok? ==> forall i :: 0 <= i < |dataToUpdate| ==> r.value.values[i] == dataToUpdate[i].value
  {
    var keys := Keys(dataToUpdate);
    if |keys| == 0 then BadRequest(NoData)
    else Ok(UpdateFragment(Join(SetClauses(keys, jsToSql), ", "), Values(dataToUpdate)))
  }

  // ---------------------------------------------------------------- filters

  const CompanyFilterKeys: set<string> := {"nameLike", "minEmployees", "maxEmployees"}
  const JobFilterKeys: set<string> := {"title", "minSalary", "hasEquity"}

  /** The predicate text, up to its placeholder, for a company filter key. */
  function CompanyPredicate(key: string): (r: Option<string>)
    ensures r.Some? <==> key in CompanyFilterKeys
  {
    if key == "nameLike" then Some("name ILIKE ")
    else if key == "minEmployees" then Some("num_employees >= ")
    else if key == "maxEmployees" then Some("num_employees <= ")
    else None
  }

  /** The predicate text, up to its placeholder, for a job filter key. */
  function JobPredicate(key: string): (r: Option<string>)
    ensures r.Some? <==> key in JobFilterKeys
  {
    if key == "title" then Some("title ILIKE ")
    else if key == "minSalary" then Some("salary >= ")
    else if key == "hasEquity" then Some("equity >= ")
    else None
  }

  /** `keys.map((colName, idx) => ...)` over a predicate table: a key the
      table does not know throws, which is `None` here. */
  function FilterClauses(table: string -> Option<string>, keys: seq<string>): (r: Option<seq<string>>)
    ensures r.Some? <==> forall i :: 0 <= i < |keys| ==> table(keys[i]).Some?
    ensures r.Some? ==> |r.value| == |keys|
    ensures r.Some? ==> forall i :: 0 <= i < |keys| ==>
              table(keys[i]).Some? && SplitPlaceholder(r.value[i]) == Some((table(keys[i]).value, i + 1))
  {
    if forall i :: 0 <= i < |keys| ==> table(keys[i]).Some? then
      var ps := seq(|keys|, i requires 0 <= i < |keys| => WithPlaceholder(table(keys[i]).value, i + 1));
      forall i | 0 <= i < |keys|
        ensures SplitPlaceholder(ps[i]) == Some((table(keys[i]).value, i + 1))
      {
        SplitWithPlaceholder(table(keys[i]).value, i + 1);
      }
      Some(ps)
    else None
  }

  /** `criteria['minEmployees'] > criteria['maxEmployees']` */
  function MinExceedsMax(criteria: seq<Property<JsValue>>): bool
  {
    Greater(Get(criteria, "minEmployees"), Get(criteria, "maxEmployees"))
  }

  /** sqlForPartialFilter(criteria), the company filter */
  function SqlForPartialFilter(criteria: seq<Property<JsValue>>): (r: Result<FilterFragment>)
    ensures MinExceedsMax(criteria) ==> r == BadRequest(MinAboveMax)
    ensures r.Ok? <==>
      && !MinExceedsMax(criteria)
      && |criteria| > 0
      && forall i :: 0 <= i < |criteria| ==> criteria[i].key in CompanyFilterKeys
    ensures r.BadRequest? && !MinExceedsMax(criteria) ==> r.message == NoData
    ensures r.Ok? ==> |r.value.values| == |criteria|
    ensures r.Ok? ==> forall i :: 0 <= i < |criteria| ==> r.value.values[i] == criteria[i].value
  {
    if MinExceedsMax(criteria) then BadRequest(MinAboveMax)
    else
      var keys := Keys(criteria);
      assert forall i :: 0 <= i < |keys| ==> CompanyPredicate(keys[i]).Some? == (criteria[i].key in CompanyFilterKeys);
      if |keys| == 0 then BadRequest(NoData)
      else match FilterClauses(CompanyPredicate, keys)
        case None => BadRequest(NoData)
        case Some(cols) => Ok(FilterFragment(Join(cols, " AND "), Values(criteria)))
  }

  /** sqlForJobFilter(criteria), the job filter */
  function SqlForJobFilter(criteria: seq<Property<JsValue>>): (r: Result<FilterFragment>)
    ensures r.Ok? <==>
      && |criteria| > 0
      && forall i :: 0 <= i < |criteria| ==> criteria[i].key in JobFilterKeys
    ensures r.BadRequest? ==> r.message == NoData
    ensures r.Ok? ==> |r.value.values| == |criteria|
    ensures r.Ok? ==> forall i :: 0 <= i < |criteria| ==> r.value.values[i] == criteria[i].value
  {
    var keys := Keys(criteria);
    assert forall i :: 0 <= i < |keys| ==> JobPredicate(keys[i]).Some? == (criteria[i].key in JobFilterKeys);
    if |keys| == 0 then BadRequest(NoData)
    else match FilterClauses(JobPredicate, keys)
      case None => BadRequest(NoData)
      case Some(cols) => Ok(FilterFragment(Join(cols, " AND "), Values(criteria)))
  }

  // ---------------------------------------------------------------- coercion

  const NumericFilterKeys: set<string> := {"minEmployees", "maxEmployees", "minSalary"}

  /** The smallest equity a job must have when `hasEquity` is "true". */
  const EquityThreshold: real := 0.0001

  /** The value queryFilterConvert stores under key for the raw text value:
      the kind of the result follows the key alone. */
  function Coerce(key: string, value: string): (r: JsValue)
    ensures key in NumericFilterKeys ==> r.Number? || r.NaN?
    ensures key == "hasEquity" ==> r.Number? && r.num >= 0.0
    ensures key !in NumericFilterKeys && key != "hasEquity" ==> r.Str? && |r.str| == |value| + 2
  {
    if key in NumericFilterKeys then ToNumber(value)
    else if key == "hasEquity" then Number(if value == "true" then EquityThreshold else 0.0)
    else Str("%" + value + "%")
  }

  /** The object queryFilterConvert builds: each property coerced, in place. */
  function Coerced(query: seq<Property<string>>): seq<Property<JsValue>>
  {
    seq(|query|, i requires 0 <= i < |query| => Property(query[i].key, Coerce(query[i].key, query[i].value)))
  }

  /** queryFilterConvert(queryString): fills a fresh object one property
      at a time, in the enumeration order of the query. */
  method QueryFilterConvert(queryString: seq<Property<string>>) returns (qString: seq<Property<JsValue>>)
    requires IsObject(queryString)
    ensures qString == Coerced(queryString)
  {
    qString := [];
    for i := 0 to |queryString|
      invariant qString == Coerced(queryString[..i])
    {
      var key, value := queryString[i].key, queryString[i].value;
      assert forall j :: 0 <= j < |qString| ==> qString[j].key == queryString[j].key != key;
      qString := Put(qString, key, Coerce(key, value));
      assert queryString[..i + 1] == queryString[..i] + [queryString[i]];
    }
    assert queryString[..|queryString|] == queryString;
  }
}
