/** What the fragment builders promise their callers: every clause can be
    read back as its column or predicate text and its placeholder index,
    placeholder `$p` binds the p-th value, and the value lists keep the
    order of the input object. */
module SqlProperties {
  import opened JsRuntime
  import opened Sql

  // ---------------------------------------------------------------- partial update

  /** Clause i of a partial update is `"<column>"=$<i+1>`, where the column is
      the override for the i-th key when there is a non-empty one and the key
      itself otherwise, and placeholder `$p` binds the p-th property's value,
      so no two clauses share a placeholder. */
  lemma UpdatePlaceholdersAligned<V>(data: seq<Property<V>>, jsToSql: map<string, string>)
    requires |data| > 0
    ensures SqlForPartialUpdate(data, jsToSql).Ok?
    ensures var f := SqlForPartialUpdate(data, jsToSql).value;
            var cs := SetClauses(Keys(data), jsToSql);
            && f.setCols == Join(cs, ", ")
            && |cs| == |f.values| == |data|
            && forall i :: 0 <= i < |cs| ==>
                 && SplitPlaceholder(cs[i]) == Some(("\"" + ColumnName(jsToSql, data[i].key) + "\"=", i + 1))
                 && f.values[SplitPlaceholder(cs[i]).value.1 - 1] == data[i].value
  {
    var cs := SetClauses(Keys(data), jsToSql);
    forall i | 0 <= i < |cs|
      ensures SplitPlaceholder(cs[i]) == Some(("\"" + ColumnName(jsToSql, data[i].key) + "\"=", i + 1))
    {
      SplitWithPlaceholder("\"" + ColumnName(jsToSql, data[i].key) + "\"=", i + 1);
    }
  }

  /** The update-by-id statement binds `[...values, id]` and names the row by
      `$(values.length + 1)`: no clause's own placeholder is that one, and it
      binds the id. (A key is quoted without escaping, so its text may still
      contain `$k`; see QuotedKeyInjectsPlaceholder.) */
  lemma UpdateByIdPlaceholderIsFresh<V>(data: seq<Property<V>>, jsToSql: map<string, string>, id: V)
    requires |data| > 0
    ensures var f := SqlForPartialUpdate(data, jsToSql).value;
            var cs := SetClauses(Keys(data), jsToSql);
            var params := f.values + [id];
            && params[|f.values|] == id
            && forall i :: 0 <= i < |cs| ==>
                 && SplitPlaceholder(cs[i]).Some?
                 && 1 <= SplitPlaceholder(cs[i]).value.1 <= |f.values|
                 && SplitPlaceholder(cs[i]).value.1 != |f.values| + 1
                 && params[SplitPlaceholder(cs[i]).value.1 - 1] == data[i].value
  {
    UpdatePlaceholdersAligned(data, jsToSql);
  }

  // ---------------------------------------------------------------- filters

  /** On success, the company filter is its predicates joined by AND, predicate
      i being the fixed text for the i-th key followed by `$<i+1>`, and
      placeholder `$p` binds the p-th criterion's value. */
  lemma CompanyFilterAligned(criteria: seq<Property<JsValue>>)
    requires SqlForPartialFilter(criteria).Ok?
    ensures FilterClauses(CompanyPredicate, Keys(criteria)).Some?
    ensures var f := SqlForPartialFilter(criteria).value;
            var ps := FilterClauses(CompanyPredicate, Keys(criteria)).value;
            && f.sqlString == Join(ps, " AND ")
            && |ps| == |f.values| == |criteria|
            && forall i :: 0 <= i < |ps| ==>
                 && SplitPlaceholder(ps[i]) == Some((CompanyPredicate(criteria[i].key).value, i + 1))
                 && f.values[SplitPlaceholder(ps[i]).value.1 - 1] == criteria[i].value
  {
  }

  /** The same for the job filter. */
  lemma JobFilterAligned(criteria: seq<Property<JsValue>>)
    requires SqlForJobFilter(criteria).Ok?
    ensures FilterClauses(JobPredicate, Keys(criteria)).Some?
    ensures var f := SqlForJobFilter(criteria).value;
            var ps := FilterClauses(JobPredicate, Keys(criteria)).value;
            && f.sqlString == Join(ps, " AND ")
            && |ps| == |f.values| == |criteria|
            && forall i :: 0 <= i < |ps| ==>
                 && SplitPlaceholder(ps[i]) == Some((JobPredicate(criteria[i].key).value, i + 1))
                 && f.values[SplitPlaceholder(ps[i]).value.1 - 1] == criteria[i].value
  {
  }

  /** The range check fires only when both bounds are present, and on two
      numeric bounds exactly when the minimum exceeds the maximum. */
  lemma MinExceedsMaxOnNumbers(criteria: seq<Property<JsValue>>, i: nat, j: nat, lo: real, hi: real)
    requires IsObject(criteria) && i < |criteria| && j < |criteria|
    requires criteria[i] == Property("minEmployees", Number(lo))
    requires criteria[j] == Property("maxEmployees", Number(hi))
    ensures MinExceedsMax(criteria) <==> lo > hi
  {
  }

  /** Without one of the bounds the range check never fires, so the company
      filter fails only for empty criteria or an unknown key. */
  lemma CompanyFilterWithOneBound(criteria: seq<Property<JsValue>>)
    requires || (forall i :: 0 <= i < |criteria| ==> criteria[i].key != "maxEmployees")
             || (forall i :: 0 <= i < |criteria| ==> criteria[i].key != "minEmployees")
    ensures SqlForPartialFilter(criteria).Ok? <==>
      |criteria| > 0 && forall i :: 0 <= i < |criteria| ==> criteria[i].key in CompanyFilterKeys
  {
  }

  // ---------------------------------------------------------------- coercion

  /** Coercion changes values only: the keys, their order and their
      distinctness are kept. */
  lemma CoercedKeepsKeys(query: seq<Property<string>>)
    ensures Keys(Coerced(query)) == Keys(query)
    ensures IsObject(query) ==> IsObject(Coerced(query))
  {
  }

  /** A numeric key's value is read as the integer its text denotes. */
  lemma CoerceNumeral(key: string, n: nat)
    requires key in NumericFilterKeys
    ensures Coerce(key, Decimal(n)) == Number(n as real)
    ensures Coerce(key, "-" + Decimal(n)) == Number(-(n as real))
    ensures Coerce(key, "") == Number(0.0)
  {
    NumberOfDecimal(n);
  }

  /** An ASCII letter in the text. */
  predicate IsLetter(c: char)
  {
    'a' <= c <= 'z' || 'A' <= c <= 'Z'
  }

  /** Text made of a run of decimal digits followed by a letter that cannot
      start an exponent or end a `0b`/`0o`/`0x` prefix coerces to NaN under
      a numeric key. */
  lemma CoerceNonNumeral(key: string, value: string, k: nat)
    requires key in NumericFilterKeys
    requires 0 < k < |value| && forall j :: 0 <= j < k ==> IsDigit(value[j])
    requires IsLetter(value[k]) && value[k] !in "bBeEoOxX"
    ensures Coerce(key, value) == NaN
  {
  }

  /** `hasEquity` becomes a positive threshold exactly for the text "true"
      and zero for anything else. */
  lemma CoerceEquity(value: string)
    ensures Coerce("hasEquity", value).Number?
    ensures Coerce("hasEquity", value).num > 0.0 <==> value == "true"
    ensures value != "true" ==> Coerce("hasEquity", value).num == 0.0
  {
  }

  /** Every other key is wrapped in `%` on both sides, and unwrapping gives
      back the raw text. */
  lemma CoerceWraps(key: string, value: string)
    requires key !in NumericFilterKeys && key != "hasEquity"
    ensures Coerce(key, value).Str?
    ensures var w := Coerce(key, value).str;
            |w| == |value| + 2 && w[0] == '%' && w[|w| - 1] == '%' && w[1..|w| - 1] == value
  {
  }

  /** The job search coerces the query and then builds the job filter: it
      succeeds exactly for a non-empty query over the job keys, and binds the
      coerced values in query order. */
  lemma JobSearchPipeline(query: seq<Property<string>>)
    ensures var r := SqlForJobFilter(Coerced(query));
            && (r.Ok? <==> |query| > 0 && forall i :: 0 <= i < |query| ==> query[i].key in JobFilterKeys)
            && (r.Ok? ==> forall i :: 0 <= i < |query| ==> r.value.values[i] == Coerce(query[i].key, query[i].value))
  {
    var c := Coerced(query);
    assert forall i :: 0 <= i < |query| ==> c[i].key == query[i].key;
  }

  /** Coercion is what makes the range check numeric: in any query whose two
      bounds are decimal texts, the coerced query passes the check exactly
      when min <= max. */
  lemma CoercedRangeCheck(q: seq<Property<string>>, i: nat, j: nat, lo: nat, hi: nat)
    requires IsObject(q) && i < |q| && j < |q|
    requires q[i] == Property("minEmployees", Decimal(lo))
    requires q[j] == Property("maxEmployees", Decimal(hi))
    ensures MinExceedsMax(Coerced(q)) <==> lo > hi
  {
    CoerceNumeral("minEmployees", lo);
    CoerceNumeral("maxEmployees", hi);
    CoercedKeepsKeys(q);
    assert Keys(Coerced(q))[i] == "minEmployees";
    MinExceedsMaxOnNumbers(Coerced(q), i, j, lo as real, hi as real);
  }

  // ---------------------------------------------------------------- examples

  lemma JoinThree(a: string, b: string, c: string, sep: string)
    ensures Join([a, b, c], sep) == a + sep + b + sep + c
  {
    assert [a, b, c][1..] == [b, c];
    assert [b, c][1..] == [c];
    assert Join([c], sep) == c;
    assert Join([b, c], sep) == b + sep + c;
  }

  /** A partial update of three properties, spelled out. */
  lemma UpdateOfThree<V>(k0: string, k1: string, k2: string, v0: V, v1: V, v2: V, jsToSql: map<string, string>)
    ensures SqlForPartialUpdate([Property(k0, v0), Property(k1, v1), Property(k2, v2)], jsToSql)
            == Ok(UpdateFragment(Assignment(ColumnName(jsToSql, k0), 1) + ", "
                                 + Assignment(ColumnName(jsToSql, k1), 2) + ", "
                                 + Assignment(ColumnName(jsToSql, k2), 3),
                                 [v0, v1, v2]))
  {
    var data := [Property(k0, v0), Property(k1, v1), Property(k2, v2)];
    var cs := SetClauses(Keys(data), jsToSql);
    assert cs == [Assignment(ColumnName(jsToSql, k0), 1), Assignment(ColumnName(jsToSql, k1), 2),
                  Assignment(ColumnName(jsToSql, k2), 3)];
    JoinThree(cs[0], cs[1], cs[2], ", ");
    assert Values(data) == [v0, v1, v2];
  }

  lemma UpdateExampleColumns()
    ensures var m := map["numEmployees" := "num_employees"];
            && Assignment(ColumnName(m, "name"), 1) == "\"name\"=$1"
            && Assignment(ColumnName(m, "numEmployees"), 2) == "\"num_employees\"=$2"
            && Assignment(ColumnName(m, "description"), 3) == "\"description\"=$3"
  {
  }

  lemma UpdateExampleText()
    ensures "\"name\"=$1" + ", " + "\"num_employees\"=$2" + ", " + "\"description\"=$3"
            == "\"name\"=$1, \"num_employees\"=$2, \"description\"=$3"
  {
  }

  /** The update of name, numEmployees and description with an override for
      numEmployees; the values are passed through, whatever they are. */
  lemma UpdateExample<V>(name: V, numEmployees: V, description: V)
    ensures SqlForPartialUpdate([Property("name", name), Property("numEmployees", numEmployees),
                                 Property("description", description)],
                                map["numEmployees" := "num_employees"])
            == Ok(UpdateFragment("\"name\"=$1, \"num_employees\"=$2, \"description\"=$3",
                                 [name, numEmployees, description]))
  {
    var m := map["numEmployees" := "num_employees"];
    UpdateOfThree("name", "numEmployees", "description", name, numEmployees, description, m);
    UpdateExampleColumns();
    UpdateExampleText();
  }

  /** A key is interpolated into the quoted column unescaped: a key holding
      `"` and `$2` puts a second placeholder into `setCols`, beside the
      clause's own `$1`. */
  lemma QuotedKeyInjectsPlaceholder<V>(v: V)
    ensures SqlForPartialUpdate([Property("a\"=$2, \"b", v)], map[]).value.setCols
            == "\"a\"=$2, \"b\"=$1"
  {
    var key := "a\"=$2, \"b";
    assert Keys([Property(key, v)]) == [key];
    assert SetClauses([key], map[]) == [Assignment(key, 1)];
    assert Decimal(1) == "1";
    var s1 := "\"" + key;
    assert s1 == "\"a\"=$2, \"b";
  }

  /** An update with no properties is refused, whatever the override table. */
  lemma EmptyUpdateRefused<V>(jsToSql: map<string, string>)
    ensures SqlForPartialUpdate<V>([], jsToSql) == BadRequest(NoData)
  {
  }

  /** A job filter over three recognised keys, spelled out. */
  lemma JobFilterOfThree(k0: string, k1: string, k2: string, v0: JsValue, v1: JsValue, v2: JsValue)
    requires k0 in JobFilterKeys && k1 in JobFilterKeys && k2 in JobFilterKeys
    ensures SqlForJobFilter([Property(k0, v0), Property(k1, v1), Property(k2, v2)])
            == Ok(FilterFragment(WithPlaceholder(JobPredicate(k0).value, 1) + " AND "
                                 + WithPlaceholder(JobPredicate(k1).value, 2) + " AND "
                                 + WithPlaceholder(JobPredicate(k2).value, 3),
                                 [v0, v1, v2]))
  {
    var c := [Property(k0, v0), Property(k1, v1), Property(k2, v2)];
    var keys := Keys(c);
    assert keys == [k0, k1, k2];
    var ps := FilterClauses(JobPredicate, keys).value;
    assert ps == [WithPlaceholder(JobPredicate(k0).value, 1), WithPlaceholder(JobPredicate(k1).value, 2),
                  WithPlaceholder(JobPredicate(k2).value, 3)];
    JoinThree(ps[0], ps[1], ps[2], " AND ");
    assert Values(c) == [v0, v1, v2];
  }

  lemma JobExamplePredicates()
    ensures WithPlaceholder(JobPredicate("title").value, 1) == "title ILIKE $1"
    ensures WithPlaceholder(JobPredicate("minSalary").value, 2) == "salary >= $2"
    ensures WithPlaceholder(JobPredicate("hasEquity").value, 3) == "equity >= $3"
  {
  }

  lemma JobExampleText()
    ensures "title ILIKE $1" + " AND " + "salary >= $2" + " AND " + "equity >= $3"
            == "title ILIKE $1 AND salary >= $2 AND equity >= $3"
  {
  }

  /** A job search on title, minSalary and hasEquity, spelled out. */
  lemma JobSearchOfThree(title: string, salary: string, equity: string)
    ensures SqlForJobFilter(Coerced([Property("title", title), Property("minSalary", salary), Property("hasEquity", equity)]))
            == Ok(FilterFragment("title ILIKE $1 AND salary >= $2 AND equity >= $3",
                                 [Coerce("title", title), Coerce("minSalary", salary), Coerce("hasEquity", equity)]))
  {
    var c := Coerced([Property("title", title), Property("minSalary", salary), Property("hasEquity", equity)]);
    assert c == [Property("title", Coerce("title", title)), Property("minSalary", Coerce("minSalary", salary)),
                 Property("hasEquity", Coerce("hasEquity", equity))];
    JobFilterOfThree("title", "minSalary", "hasEquity",
                     Coerce("title", title), Coerce("minSalary", salary), Coerce("hasEquity", equity));
    JobExamplePredicates();
    JobExampleText();
  }

  lemma CoerceThousand()
    ensures Coerce("minSalary", "1000") == Number(1000.0)
  {
    assert Decimal(1000) == "1000";
    CoerceNumeral("minSalary", 1000);
  }

  /** `?title=j&minSalary=1000&hasEquity=true` */
  lemma JobSearchExample()
    ensures var q := [Property("title", "j"), Property("minSalary", "1000"), Property("hasEquity", "true")];
            SqlForJobFilter(Coerced(q))
              == Ok(FilterFragment("title ILIKE $1 AND salary >= $2 AND equity >= $3",
                                   [Str("%j%"), Number(1000.0), Number(EquityThreshold)]))
  {
    JobSearchOfThree("j", "1000", "true");
    assert Coerce("title", "j") == Str("%j%");
    CoerceThousand();
  }

  /** `?title=j&minSalary=1000&hasEquity=false`: the equity predicate stays,
      with threshold zero. */
  lemma JobSearchNoEquityExample()
    ensures var q := [Property("title", "j"), Property("minSalary", "1000"), Property("hasEquity", "false")];
            SqlForJobFilter(Coerced(q))
              == Ok(FilterFragment("title ILIKE $1 AND salary >= $2 AND equity >= $3",
                                   [Str("%j%"), Number(1000.0), Number(0.0)]))
  {
    JobSearchOfThree("j", "1000", "false");
    assert Coerce("title", "j") == Str("%j%");
    CoerceThousand();
  }

  lemma JoinTwo(a: string, b: string, sep: string)
    ensures Join([a, b], sep) == a + sep + b
  {
    assert [a, b][1..] == [b];
  }

  /** A company filter over two recognised keys without both bounds, spelled out. */
  lemma CompanyFilterOfTwo(k0: string, k1: string, v0: JsValue, v1: JsValue)
    requires k0 in CompanyFilterKeys && k1 in CompanyFilterKeys && k0 != "maxEmployees" && k1 != "maxEmployees"
    ensures SqlForPartialFilter([Property(k0, v0), Property(k1, v1)])
            == Ok(FilterFragment(WithPlaceholder(CompanyPredicate(k0).value, 1) + " AND "
                                 + WithPlaceholder(CompanyPredicate(k1).value, 2),
                                 [v0, v1]))
  {
    var c := [Property(k0, v0), Property(k1, v1)];
    var keys := Keys(c);
    assert keys == [k0, k1];
    var ps := FilterClauses(CompanyPredicate, keys).value;
    assert ps == [WithPlaceholder(CompanyPredicate(k0).value, 1), WithPlaceholder(CompanyPredicate(k1).value, 2)];
    JoinTwo(ps[0], ps[1], " AND ");
    assert Values(c) == [v0, v1];
  }

  lemma CompanyExampleText()
    ensures WithPlaceholder(CompanyPredicate("nameLike").value, 1) + " AND "
            + WithPlaceholder(CompanyPredicate("minEmployees").value, 2)
            == "name ILIKE $1 AND num_employees >= $2"
  {
  }

  /** `{nameLike, minEmployees: 300}` becomes
      `name ILIKE $1 AND num_employees >= $2`, with the two values in order. */
  lemma CompanyFilterExample(name: string)
    ensures SqlForPartialFilter([Property("nameLike", Str(name)), Property("minEmployees", Number(300.0))])
            == Ok(FilterFragment("name ILIKE $1 AND num_employees >= $2", [Str(name), Number(300.0)]))
  {
    CompanyFilterOfTwo("nameLike", "minEmployees", Str(name), Number(300.0));
    CompanyExampleText();
  }

  /** minEmployees 500 with maxEmployees 100 is refused before any key is
      looked at, even beside an unknown key. */
  lemma InvertedRangeExample()
    ensures SqlForPartialFilter([Property("minEmployees", Number(500.0)),
                                 Property("maxEmployees", Number(100.0)),
                                 Property("color", Str("%red%"))])
            == BadRequest(MinAboveMax)
  {
  }

  /** Uncoerced text bounds compare as text: "9" > "10", so the check fires
      although 9 <= 10. */
  lemma TextBoundsCompareAsText()
    ensures SqlForPartialFilter([Property("minEmployees", Str("9")), Property("maxEmployees", Str("10"))])
            == BadRequest(MinAboveMax)
  {
  }
}
