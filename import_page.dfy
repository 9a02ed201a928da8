/**
 * The CSV import screen: pasted text whose first line names the columns, one city per further
 * line.  Each line becomes a row object keyed by the column names, then a city with a slug and
 * a population; a city whose slug is already in the table is counted as an error, any other is
 * inserted.  A missing `city` or `state_code` column throws and ends the import.
 */
module ImportPage {
  import opened Wrappers
  import opened Text
  import opened Tables

  /** The columns of an inserted city that the model keeps. */
  datatype NewCity = NewCity(city: string, stateCode: string, population: int, slug: string)

  datatype ImportOutcome =
    | NothingPasted                                                   // "Please paste CSV data"
    | Imported(total: nat, success: nat, errors: nat, cities: seq<NewCity>)
    | ImportError(message: string)                                    // the alert after a throw

  const UndefinedLower: string := "Cannot read properties of undefined (reading 'toLowerCase')"
  const SlugPrefix: string := "dumpster-rental-"

  // ---------------------------------------------------------------------------
  // Lines, headers and row objects
  // ---------------------------------------------------------------------------

  /** `line.split(',').map(h => h.trim().toLowerCase())`. */
  function Headers(line: string): seq<string> {
    var cells := SplitOn(line, ",");
    seq(|cells|, i requires 0 <= i < |cells| => ToLower(Trim(cells[i])))
  }

  /** `line.split(',').map(v => v.trim())`. */
  function Values(line: string): seq<string> {
    var cells := SplitOn(line, ",");
    seq(|cells|, i requires 0 <= i < |cells| => Trim(cells[i]))
  }

  /** `values[index]`, `undefined` past the end. */
  function ValueAt(values: seq<string>, index: nat): Option<string> {
    if index < |values| then Some(values[index]) else None
  }

  /** The row object after the first `|headers|` assignments `cityObj[header] = values[index]`;
      a repeated column name keeps its last assignment. */
  function RowOf(headers: seq<string>, values: seq<string>): map<string, Option<string>> {
    if headers == [] then map[]
    else RowOf(headers[..|headers| - 1], values)[headers[|headers| - 1] := ValueAt(values, |headers| - 1)]
  }

  /** Reading a property: `undefined` when it was never set. */
  function Get(row: map<string, Option<string>>, name: string): Option<string> {
    if name in row then row[name] else None
  }

  /** The position of the last column with that name. */
  function LastIndex(headers: seq<string>, name: string): (i: nat)
    requires name in headers
    ensures i < |headers| && headers[i] == name
    ensures forall k | i < k < |headers| :: headers[k] != name
  {
    if headers[|headers| - 1] == name then |headers| - 1 else LastIndex(headers[..|headers| - 1], name)
  }

  /** Every column name is a property of the row, holding the value under the last column of
      that name; other names read as `undefined`. */
  lemma {:induction false} RowOfLookup(headers: seq<string>, values: seq<string>, name: string)
    ensures name in RowOf(headers, values) <==> name in headers
    ensures name in headers ==> Get(RowOf(headers, values), name) == ValueAt(values, LastIndex(headers, name))
    ensures name !in headers ==> Get(RowOf(headers, values), name) == None
  {
    if headers != [] {
      var init := headers[..|headers| - 1];
      RowOfLookup(init, values, name);
      assert headers == init + [headers[|headers| - 1]];
    }
  }

  /** `headers.forEach((header, index) => { cityObj[header] = values[index] })`. */
  method BuildRow(headers: seq<string>, values: seq<string>) returns (row: map<string, Option<string>>)
    ensures row == RowOf(headers, values)
  {
    row := map[];
    for index := 0 to |headers|
      invariant row == RowOf(headers[..index], values)
    {
      assert headers[..index + 1][..index] == headers[..index];
      row := row[headers[index] := ValueAt(values, index)];
    }
    assert headers[..|headers|] == headers;
  }

  // ---------------------------------------------------------------------------
  // Slug and population
  // ---------------------------------------------------------------------------

  /** `'dumpster-rental-' + city.toLowerCase().replace(/\s+/g, '-') + '-' + state.toLowerCase()`. */
  function Slug(city: string, stateCode: string): string {
    SlugPrefix + ReplaceSpaceRuns(ToLower(city), "-") + "-" + ToLower(stateCode)
  }

  /** The city part of a slug has no white space: each run became one dash. */
  lemma SlugCityPart(city: string, stateCode: string)
    ensures var part := ReplaceSpaceRuns(ToLower(city), "-");
      Slug(city, stateCode) == SlugPrefix + part + "-" + ToLower(stateCode) && NoSpace(part)
  {
    ReplaceLeavesNoSpace(ToLower(city), "-");
  }

  /** The leading decimal digits of `s`. */
  function DigitsPrefix(s: string): (r: string)
    ensures r <= s && forall i | 0 <= i < |r| :: IsDigit(r[i])
    ensures |r| < |s| ==> !IsDigit(s[|r|])
  {
    if s == [] || !IsDigit(s[0]) then [] else [s[0]] + DigitsPrefix(s[1..])
  }

  /** `parseInt(s)` for decimal text: leading white space, an optional sign, then the leading
      digits; `None` is `NaN`. */
  function ParseInt(s: string): Option<int> {
    var t := TrimStart(s);
    var negative := t != [] && t[0] == '-';
    var body := if t != [] && (t[0] == '-' || t[0] == '+') then t[1..] else t;
    var digits := DigitsPrefix(body);
    if digits == [] then None
    else
      var value: int := DecimalValue(digits);
      Some(if negative then -value else value)
  }

  /** `parseInt(cityObj.population) || 0`: `NaN` and zero give 0, so any other count is the
      number the field reads as. */
  function Population(field: Option<string>): (r: int)
    ensures field.None? ==> r == 0
    ensures r != 0 ==> field.Some? && ParseInt(field.value) == Some(r)
    ensures field.Some? && ParseInt(field.value).None? ==> r == 0
  {
    match field
    case None => 0
    case Some(s) => ParseInt(s).GetOr(0)
  }

  lemma {:induction false} DigitsPrefixOfDigits(d: string, rest: string)
    requires forall i | 0 <= i < |d| :: IsDigit(d[i])
    requires rest == [] || !IsDigit(rest[0])
    ensures DigitsPrefix(d + rest) == d
  {
    if d != [] {
      DigitsPrefixOfDigits(d[1..], rest);
      assert (d + rest)[1..] == d[1..] + rest;
    }
  }

  /** A written number followed by anything that is not a digit (a decimal point, a unit) is
      read back as that number. */
  lemma PopulationOfNumber(n: nat, rest: string)
    requires rest == [] || !IsDigit(rest[0])
    ensures Population(Some(NatToString(n) + rest)) == n
  {
    var d := NatToString(n);
    var s := d + rest;
    assert s[0] == d[0] && IsDigit(d[0]);
    assert !IsSpace(s[0]) && s[0] != '-' && s[0] != '+';
    assert TrimStart(s) == s;
    DigitsPrefixOfDigits(d, rest);
    assert DigitsPrefix(s) == d;
    DecimalOfNatToString(n);
    assert ParseInt(s) == Some(n);
  }

  /** A field without digits up front, or no field at all, gives 0. */
  lemma PopulationWithoutDigits(s: string)
    requires s == [] || (!IsDigit(s[0]) && !IsSpace(s[0]) && s[0] != '-' && s[0] != '+')
    ensures Population(Some(s)) == 0 && Population(None) == 0
  {
  }

  // ---------------------------------------------------------------------------
  // One line, and the loop
  // ---------------------------------------------------------------------------

  /** The city of a row object, or the `TypeError` of `toLowerCase` on a missing column. */
  function CityFrom(row: map<string, Option<string>>): (r: Result<NewCity, string>)
    ensures r.Success? <==> Get(row, "city").Some? && Get(row, "state_code").Some?
    ensures r.Failure? ==> r.error == UndefinedLower
    ensures r.Success? ==>
      var city, stateCode := Get(row, "city").value, Get(row, "state_code").value;
      r.value == NewCity(city, stateCode, Population(Get(row, "population")), Slug(city, stateCode))
  {
    match Get(row, "city")
    case None => Failure(UndefinedLower)
    case Some(city) =>
      match Get(row, "state_code")
      case None => Failure(UndefinedLower)
      case Some(stateCode) =>
        Success(NewCity(city, stateCode, Population(Get(row, "population")), Slug(city, stateCode)))
  }

  /** The cities of the table with that slug, in table order. */
  function WithSlug(rows: seq<NewCity>, slug: string): (r: seq<NewCity>)
    ensures forall c | c in r :: c.slug == slug
    ensures r == [] <==> forall i | 0 <= i < |rows| :: rows[i].slug != slug
  {
    if rows == [] then []
    else
      var init := WithSlug(rows[..|rows| - 1], slug);
      var c := rows[|rows| - 1];
      assert forall i | 0 <= i < |rows| - 1 :: rows[..|rows| - 1][i] == rows[i];
      if c.slug == slug then init + [c] else init
  }

  /** The counts and the inserted cities so far. */
  datatype Tally = Tally(success: nat, errors: nat, imported: seq<NewCity>)

  /** One line: a throw ends the import; a slug found once is an error; otherwise the insert,
      which the table may refuse.  `rejects` is the table's answer to an insert. */
  function ImportStep(t: Tally, table: seq<NewCity>, city: Result<NewCity, string>,
                      rejects: (seq<NewCity>, NewCity) -> bool): (Result<Tally, string>, seq<NewCity>)
  {
    match city
    case Failure(e) => (Failure(e), table)
    case Success(c) =>
      if Single(WithSlug(table, c.slug)).Some? then (Success(t.(errors := t.errors + 1)), table)
      else if rejects(table, c) then (Success(t.(errors := t.errors + 1)), table)
      else (Success(Tally(t.success + 1, t.errors, t.imported + [c])), table + [c])
  }

  /** A data line read through the row object: its city, or the error thrown. */
  function LineCity(headers: seq<string>, line: string): Result<NewCity, string> {
    CityFrom(RowOf(headers, Values(line)))
  }

  function LineCities(headers: seq<string>, lines: seq<string>): (r: seq<Result<NewCity, string>>)
    ensures |r| == |lines| && forall i | 0 <= i < |lines| :: r[i] == LineCity(headers, lines[i])
  {
    seq(|lines|, i requires 0 <= i < |lines| => LineCity(headers, lines[i]))
  }

  /** The loop over the data lines, given what each line reads as, against a table that starts
      as `rows`.  Reading a line has no effect, so the lines after a throw play no part. */
  function ImportRows(cities: seq<Result<NewCity, string>>, rows: seq<NewCity>,
                      rejects: (seq<NewCity>, NewCity) -> bool): (Result<Tally, string>, seq<NewCity>)
  {
    if cities == [] then (Success(Tally(0, 0, [])), rows)
    else
      var (prev, table) := ImportRows(cities[..|cities| - 1], rows, rejects);
      if prev.Failure? then (prev, table)
      else ImportStep(prev.value, table, cities[|cities| - 1], rejects)
  }

  /** `handleImport` on the pasted text: the outcome and the table afterwards. */
  function ImportRun(csv: string, rows: seq<NewCity>, rejects: (seq<NewCity>, NewCity) -> bool)
    : (ImportOutcome, seq<NewCity>)
  {
    if Trim(csv) == [] then (NothingPasted, rows)
    else
      var lines := SplitOn(Trim(csv), "\n");
      var headers := Headers(lines[0]);
      var (r, table) := ImportRows(LineCities(headers, lines[1..]), rows, rejects);
      if r.Failure? then (ImportError(r.error), table)
      else (Imported(|lines| - 1, r.value.success, r.value.errors, r.value.imported), table)
  }

  // ---------------------------------------------------------------------------
  // Properties
  // ---------------------------------------------------------------------------

  /** Blank text is refused before anything is read or written. */
  lemma BlankRejected(csv: string, rows: seq<NewCity>, rejects: (seq<NewCity>, NewCity) -> bool)
    requires IsBlank(csv)
    ensures ImportRun(csv, rows, rejects) == (NothingPasted, rows)
  {
  }

  /** Every data line is counted once, as a success or an error; the table gains exactly the
      imported cities, in line order.  After a throw the cities inserted before it stay. */
  lemma {:induction false} ImportRowsCounts(cities: seq<Result<NewCity, string>>, rows: seq<NewCity>,
                                            rejects: (seq<NewCity>, NewCity) -> bool)
    ensures var (r, table) := ImportRows(cities, rows, rejects);
      && rows <= table
      && (r.Success? ==>
            && r.value.success + r.value.errors == |cities|
            && |r.value.imported| == r.value.success
            && table == rows + r.value.imported)
  {
    if cities != [] {
      ImportRowsCounts(cities[..|cities| - 1], rows, rejects);
    }
  }

  /** The outcome of a finished import: `total` is the number of lines after the header, and
      `success` and `errors` add up to it. */
  lemma ImportTotals(csv: string, rows: seq<NewCity>, rejects: (seq<NewCity>, NewCity) -> bool)
    ensures var (outcome, table) := ImportRun(csv, rows, rejects);
      && rows <= table
      && (outcome.Imported? ==>
            && outcome.success + outcome.errors == outcome.total
            && |outcome.cities| == outcome.success
            && table == rows + outcome.cities)
  {
    if Trim(csv) != [] {
      var lines := SplitOn(Trim(csv), "\n");
      var cities := LineCities(Headers(lines[0]), lines[1..]);
      ImportRowsCounts(cities, rows, rejects);
      var (r, table) := ImportRows(cities, rows, rejects);
      assert |cities| == |lines| - 1;
      assert ImportRun(csv, rows, rejects) ==
        (if r.Failure? then ImportError(r.error) else Imported(|lines| - 1, r.value.success, r.value.errors, r.value.imported), table);
    }
  }

  predicate UniqueSlugs(rows: seq<NewCity>) {
    forall i, j | 0 <= i < j < |rows| :: rows[i].slug != rows[j].slug
  }

  lemma UniqueSlugCount(rows: seq<NewCity>, slug: string)
    requires UniqueSlugs(rows)
    ensures Single(WithSlug(rows, slug)).None? <==> forall i | 0 <= i < |rows| :: rows[i].slug != slug
  {
    if exists i | 0 <= i < |rows| :: rows[i].slug == slug {
      var i :| 0 <= i < |rows| && rows[i].slug == slug;
      UniqueSlugCountAt(rows, slug, i);
    }
  }

  lemma {:induction false} UniqueSlugCountAt(rows: seq<NewCity>, slug: string, i: nat)
    requires UniqueSlugs(rows) && i < |rows| && rows[i].slug == slug
    ensures WithSlug(rows, slug) == [rows[i]]
  {
    var n := |rows| - 1;
    var init := rows[..n];
    assert UniqueSlugs(init) by {
      forall a, b | 0 <= a < b < |init| ensures init[a].slug != init[b].slug {
        assert init[a] == rows[a] && init[b] == rows[b];
      }
    }
    if i < n {
      assert init[i] == rows[i];
      UniqueSlugCountAt(init, slug, i);
    } else {
      assert forall k | 0 <= k < n :: init[k].slug != slug by {
        forall k | 0 <= k < n ensures init[k].slug != slug {
          assert init[k] == rows[k];
        }
      }
    }
  }

  /** A table without repeated slugs keeps none: a city is inserted only when its slug is not
      there yet, so no line repeats a slug of the table or of an earlier line. */
  lemma {:induction false} ImportKeepsSlugsUnique(cities: seq<Result<NewCity, string>>, rows: seq<NewCity>,
                                                  rejects: (seq<NewCity>, NewCity) -> bool)
    requires UniqueSlugs(rows)
    ensures UniqueSlugs(ImportRows(cities, rows, rejects).1)
  {
    if cities != [] {
      var init := cities[..|cities| - 1];
      ImportKeepsSlugsUnique(init, rows, rejects);
      var (prev, table) := ImportRows(init, rows, rejects);
      var city := cities[|cities| - 1];
      if prev.Success? && city.Success? {
        UniqueSlugCount(table, city.value.slug);
      }
    }
  }

  lemma {:induction false} FailureSticks(cities: seq<Result<NewCity, string>>, k: nat, rows: seq<NewCity>,
                                         rejects: (seq<NewCity>, NewCity) -> bool)
    requires k <= |cities| && ImportRows(cities[..k], rows, rejects).0.Failure?
    ensures ImportRows(cities, rows, rejects) == ImportRows(cities[..k], rows, rejects)
  {
    if k < |cities| {
      var n := |cities| - 1;
      assert cities[..n][..k] == cities[..k];
      FailureSticks(cities[..n], k, rows, rejects);
    } else {
      assert cities[..k] == cities;
    }
  }

  // ---------------------------------------------------------------------------
  // The table and the handler
  // ---------------------------------------------------------------------------

  /** The `cities` table, as far as the import reads and writes it. */
  class CitiesTable {
    var rows: seq<NewCity>

    constructor(rows: seq<NewCity>)
      ensures this.rows == rows
    {
      this.rows := rows;
    }

    /** `.from('cities').select('id').eq('slug', slug).single()`. */
    method FindBySlug(slug: string) returns (existing: Option<NewCity>)
      ensures existing == Single(WithSlug(rows, slug))
    {
      existing := Single(WithSlug(rows, slug));
    }

    /** `.from('cities').insert(city)`: appended unless the table refuses it. */
    method Insert(c: NewCity, rejects: (seq<NewCity>, NewCity) -> bool) returns (ok: bool)
      modifies this
      ensures ok == !rejects(old(rows), c)
      ensures rows == if ok then old(rows) + [c] else old(rows)
    {
      ok := !rejects(rows, c);
      if ok {
        rows := rows + [c];
      }
    }
  }

  /** One pass of the loop body, from the row object to the insert. */
  method ImportLine(table: CitiesTable, headers: seq<string>, line: string, t: Tally,
                    rejects: (seq<NewCity>, NewCity) -> bool)
    returns (r: Result<Tally, string>)
    modifies table
    ensures (r, table.rows) == ImportStep(t, old(table.rows), LineCity(headers, line), rejects)
  {
    var row := BuildRow(headers, Values(line));
    r := ImportCity(table, CityFrom(row), t, rejects);
  }

  /** The rest of the loop body, once the row object has been read: the slug lookup and the
      insert, or the error thrown by the row. */
  method ImportCity(table: CitiesTable, city: Result<NewCity, string>, t: Tally,
                    rejects: (seq<NewCity>, NewCity) -> bool)
    returns (r: Result<Tally, string>)
    modifies table
    ensures (r, table.rows) == ImportStep(t, old(table.rows), city, rejects)
  {
    if city.Failure? {
      return Failure(city.error);
    }
    var c := city.value;
    var existing := table.FindBySlug(c.slug);
    if existing.Some? {
      return Success(t.(errors := t.errors + 1));
    }
    var ok := table.Insert(c, rejects);
    if ok {
      r := Success(Tally(t.success + 1, t.errors, t.imported + [c]));
    } else {
      r := Success(t.(errors := t.errors + 1));
    }
  }

  /** The loop over the data lines. */
  method ImportLines(table: CitiesTable, headers: seq<string>, body: seq<string>,
                     rejects: (seq<NewCity>, NewCity) -> bool)
    returns (r: Result<Tally, string>)
    modifies table
    ensures (r, table.rows) == ImportRows(LineCities(headers, body), old(table.rows), rejects)
  {
    ghost var start := table.rows;
    ghost var cities := LineCities(headers, body);
    var tally := Tally(0, 0, []);
    for k := 0 to |body|
      invariant ImportRows(cities[..k], start, rejects) == (Success(tally), table.rows)
    {
      var step := ImportNext(table, headers, body, k, tally, start, rejects);
      if step.Failure? {
        FailureSticks(cities, k + 1, start, rejects);
        return step;
      }
      tally := step.value;
    }
    assert cities[..|body|] == cities;
    r := Success(tally);
  }

  /** One turn of that loop: the import of the first `k` data lines goes on with line `k`. */
  method ImportNext(table: CitiesTable, headers: seq<string>, body: seq<string>, k: nat, tally: Tally,
                    ghost start: seq<NewCity>, rejects: (seq<NewCity>, NewCity) -> bool)
    returns (r: Result<Tally, string>)
    requires k < |body|
    requires ImportRows(LineCities(headers, body)[..k], start, rejects) == (Success(tally), table.rows)
    modifies table
    ensures ImportRows(LineCities(headers, body)[..k + 1], start, rejects) == (r, table.rows)
  {
    ghost var cities := LineCities(headers, body);
    assert cities[..k + 1][..k] == cities[..k];
    assert cities[..k + 1][k] == LineCity(headers, body[k]);
    r := ImportLine(table, headers, body[k], tally, rejects);
  }

  /** `handleImport`: the text is trimmed and cut into lines; the first names the columns. */
  method HandleImport(table: CitiesTable, csv: string, rejects: (seq<NewCity>, NewCity) -> bool)
    returns (outcome: ImportOutcome)
    modifies table
    ensures (outcome, table.rows) == ImportRun(csv, old(table.rows), rejects)
  {
    var trimmed := Trim(csv);
    if trimmed == [] {
      return NothingPasted;
    }
    var lines := SplitOn(trimmed, "\n");
    var r := ImportLines(table, Headers(lines[0]), lines[1..], rejects);
    if r.Failure? {
      outcome := ImportError(r.error);
    } else {
      outcome := Imported(|lines| - 1, r.value.success, r.value.errors, r.value.imported);
    }
  }
}
