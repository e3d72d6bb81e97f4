/// The country seeder of laravel-geonames: which parsed geonames rows are
/// countries, and how such a row, joined with the country-info table and the
/// continent table, becomes the attribute map that is persisted.
///
/// Rows and tables are string-keyed maps, as PHP arrays are. A PHP string key
/// that spells a canonical integer is stored as that integer; the conversion is
/// injective, so looking keys up by string equality loses nothing.
///
/// Reading an undefined array key raises in a Laravel application (its error
/// handler turns the warning into an ErrorException). Every lookup below
/// therefore either succeeds or fails with the key it missed, in the order in
/// which PHP evaluates the expressions.

module Seeders {

  /// One row of the geonames main format, column name to raw value.
  type Record = map<string, string>

  /// One row of the country-info table, column name to raw value.
  type CountryInfoRow = map<string, string>

  /// The country-info table keyed by each row's geonameid column.
  type CountryInfoTable = map<string, CountryInfoRow>

  /// Continent code to the continent's primary key, as loaded from the store.
  type ContinentTable = map<string, nat>

  /// A value of the persisted attribute map.
  datatype Value =
    | Text(text: string)      // a raw column value, copied unchanged
    | ContinentId(id: nat)    // a continent's primary key
    | Timestamp(instant: int) // a reading of the application clock

  type Attributes = map<string, Value>

  /// Where a lookup was made.
  datatype Origin = GeonamesRecord | CountryInfoList | CountryInfoEntry | ContinentList

  datatype Failure = UndefinedKey(origin: Origin, key: string)

  datatype Result<T> = Ok(value: T) | Err(failure: Failure) {
    predicate IsFailure() { Err? }

    function PropagateFailure<U>(): Result<U>
      requires Err?
    {
      Err(failure)
    }

    function Extract(): T
      requires Ok?
    {
      value
    }
  }

  /// Reading m[key]: the value, or the undefined-key failure.
  function Lookup<V>(m: map<string, V>, key: string, origin: Origin): Result<V>
  {
    if key in m then Ok(m[key]) else Err(UndefinedKey(origin, key))
  }

  // ---------------------------------------------------------------------------
  // Filtering

  /// The feature codes of a country (FeatureCode::PCLI and the others, whose
  /// values are their own names).
  const FeatureCodes: seq<string> := ["PCLI", "PCLD", "TERR", "PCLIX", "PCLS", "PCLF", "PCL"]

  /// The seven country feature codes written out one by one.
  predicate IsCountryFeatureCode(code: string)
  {
    || code == "PCLI" || code == "PCLD" || code == "TERR" || code == "PCLIX"
    || code == "PCLS" || code == "PCLF" || code == "PCL"
  }

  /// CountrySeeder::filter: a row is kept when the country-info table holds
  /// its geonameid and its feature code is one of the country codes, compared
  /// strictly.
  function Filter(countryInfo: CountryInfoTable, record: Record): (r: Result<bool>)
    ensures "geonameid" !in record ==> r == Err(UndefinedKey(GeonamesRecord, "geonameid"))
    ensures "geonameid" in record && record["geonameid"] !in countryInfo ==> r == Ok(false)
    ensures "geonameid" in record && record["geonameid"] in countryInfo ==>
              if "feature code" in record
              then r == Ok(IsCountryFeatureCode(record["feature code"]))
              else r == Err(UndefinedKey(GeonamesRecord, "feature code"))
  {
    var id :- Lookup(record, "geonameid", GeonamesRecord);
    if id !in countryInfo then
      Ok(false)
    else
      var code :- Lookup(record, "feature code", GeonamesRecord);
      Ok(code in FeatureCodes)
  }

  /// A row that passes the filter has its join key in the country-info table.
  lemma FilterAcceptsOnlyKnownCountries(countryInfo: CountryInfoTable, record: Record)
    requires Filter(countryInfo, record) == Ok(true)
    ensures "geonameid" in record && record["geonameid"] in countryInfo
    ensures "feature code" in record && IsCountryFeatureCode(record["feature code"])
  {
  }

  // ---------------------------------------------------------------------------
  // Mapping

  /// The sixteen country-info columns mapCountryInfoAttributes reads.
  const CountryInfoColumns: set<string> :=
    { "ISO", "ISO3", "ISO-Numeric", "Country", "Continent", "Capital", "CurrencyCode",
      "CurrencyName", "tld", "Phone", "Postal Code Format", "Postal Code Regex", "Languages",
      "neighbours", "Area(in sq km)", "fips" }

  /// The record columns mapAttributes always reads; name is read only when
  /// asciiname is falsy.
  const RecordColumns: set<string> :=
    { "asciiname", "latitude", "longitude", "timezone", "population", "elevation", "dem",
      "feature code", "geonameid", "modification date" }

  /// The keys mapCountryInfoAttributes produces.
  const CountryInfoKeys: set<string> :=
    { "code", "iso", "iso_numeric", "name", "continent_id", "capital", "currency_code",
      "currency_name", "tld", "phone_code", "postal_code_format", "postal_code_regex",
      "languages", "neighbours", "area", "fips" }

  /// The keys the record half of mapAttributes produces.
  const RecordKeys: set<string> :=
    { "name_official", "latitude", "longitude", "timezone_id", "population", "elevation", "dem",
      "feature_code", "geoname_id", "synced_at", "created_at", "updated_at" }

  /// The lookups of mapCountryInfoAttributes all succeed: the record's
  /// geonameid is a key of the country-info table, that row has every column
  /// read, and its Continent code is a key of the continent table.
  predicate CountryInfoJoinable(countryInfo: CountryInfoTable, continents: ContinentTable, record: Record)
  {
    && "geonameid" in record
    && record["geonameid"] in countryInfo
    && CountryInfoColumns <= countryInfo[record["geonameid"]].Keys
    && countryInfo[record["geonameid"]]["Continent"] in continents
  }

  /// The lookups of the record half of mapAttributes all succeed.
  predicate RecordMappable(record: Record)
  {
    && RecordColumns <= record.Keys
    && (!Truthy(record["asciiname"]) ==> "name" in record)
  }

  /// PHP truthiness of a string: only "" and "0" are falsy.
  predicate Truthy(s: string)
  {
    s != "" && s != "0"
  }

  /// CountrySeeder::mapCountryInfoAttributes: the sixteen attributes joined
  /// from the country-info row at the record's geonameid and, for
  /// continent_id, from the continent table at that row's Continent code.
  /// The lookups run in the order of the source's array literal.
  function MapCountryInfoAttributes(countryInfo: CountryInfoTable, continents: ContinentTable, record: Record)
    : (r: Result<Attributes>)
    ensures r.Ok? <==> CountryInfoJoinable(countryInfo, continents, record)
    ensures r.Ok? ==> r.value.Keys == CountryInfoKeys
    ensures "geonameid" !in record ==> r == Err(UndefinedKey(GeonamesRecord, "geonameid"))
    ensures "geonameid" in record && record["geonameid"] !in countryInfo ==>
              r == Err(UndefinedKey(CountryInfoList, record["geonameid"]))
  {
    var id :- Lookup(record, "geonameid", GeonamesRecord);
    var info :- Lookup(countryInfo, id, CountryInfoList);
    var iso :- Lookup(info, "ISO", CountryInfoEntry);
    var iso3 :- Lookup(info, "ISO3", CountryInfoEntry);
    var isoNumeric :- Lookup(info, "ISO-Numeric", CountryInfoEntry);
    var country :- Lookup(info, "Country", CountryInfoEntry);
    var continentCode :- Lookup(info, "Continent", CountryInfoEntry);
    var continent :- Lookup(continents, continentCode, ContinentList);
    var capital :- Lookup(info, "Capital", CountryInfoEntry);
    var currencyCode :- Lookup(info, "CurrencyCode", CountryInfoEntry);
    var currencyName :- Lookup(info, "CurrencyName", CountryInfoEntry);
    var tld :- Lookup(info, "tld", CountryInfoEntry);
    var phone :- Lookup(info, "Phone", CountryInfoEntry);
    var postalFormat :- Lookup(info, "Postal Code Format", CountryInfoEntry);
    var postalRegex :- Lookup(info, "Postal Code Regex", CountryInfoEntry);
    var languages :- Lookup(info, "Languages", CountryInfoEntry);
    var neighbours :- Lookup(info, "neighbours", CountryInfoEntry);
    var area :- Lookup(info, "Area(in sq km)", CountryInfoEntry);
    var fips :- Lookup(info, "fips", CountryInfoEntry);
    Ok(map[
      "code" := Text(iso),
      "iso" := Text(iso3),
      "iso_numeric" := Text(isoNumeric),
      "name" := Text(country),
      "continent_id" := ContinentId(continent),
      "capital" := Text(capital),
      "currency_code" := Text(currencyCode),
      "currency_name" := Text(currencyName),
      "tld" := Text(tld),
      "phone_code" := Text(phone),
      "postal_code_format" := Text(postalFormat),
      "postal_code_regex" := Text(postalRegex),
      "languages" := Text(languages),
      "neighbours" := Text(neighbours),
      "area" := Text(area),
      "fips" := Text(fips)
    ])
  }

  /// The record half of mapAttributes. The two clock readings stand for the
  /// two calls of now(). name is read only when asciiname is falsy.
  function MapRecordAttributes(record: Record, createdAt: int, updatedAt: int): (r: Result<Attributes>)
    ensures r.Ok? <==> RecordMappable(record)
    ensures r.Ok? ==> r.value.Keys == RecordKeys
  {
    var ascii :- Lookup(record, "asciiname", GeonamesRecord);
    var official :- if Truthy(ascii) then Ok(ascii) else Lookup(record, "name", GeonamesRecord);
    var latitude :- Lookup(record, "latitude", GeonamesRecord);
    var longitude :- Lookup(record, "longitude", GeonamesRecord);
    var timezone :- Lookup(record, "timezone", GeonamesRecord);
    var population :- Lookup(record, "population", GeonamesRecord);
    var elevation :- Lookup(record, "elevation", GeonamesRecord);
    var dem :- Lookup(record, "dem", GeonamesRecord);
    var featureCode :- Lookup(record, "feature code", GeonamesRecord);
    var geonameId :- Lookup(record, "geonameid", GeonamesRecord);
    var modified :- Lookup(record, "modification date", GeonamesRecord);
    Ok(map[
      "name_official" := Text(official),
      "latitude" := Text(latitude),
      "longitude" := Text(longitude),
      "timezone_id" := Text(timezone),
      "population" := Text(population),
      "elevation" := Text(elevation),
      "dem" := Text(dem),
      "feature_code" := Text(featureCode),
      "geoname_id" := Text(geonameId),
      "synced_at" := Text(modified),
      "created_at" := Timestamp(createdAt),
      "updated_at" := Timestamp(updatedAt)
    ])
  }

  /// CountrySeeder::mapAttributes: array_merge of the country-info attributes
  /// with the record attributes. array_merge lets the later array win on a
  /// shared string key, as `+` on Dafny maps does.
  function MapAttributes(countryInfo: CountryInfoTable, continents: ContinentTable, record: Record,
                         createdAt: int, updatedAt: int): (r: Result<Attributes>)
    ensures r.Ok? <==> CountryInfoJoinable(countryInfo, continents, record) && RecordMappable(record)
    ensures r.Ok? ==> r.value.Keys == CountryInfoKeys + RecordKeys && |r.value| == 28
    ensures r.Ok? ==>
              forall k :: k in CountryInfoKeys ==>
                r.value[k] == MapCountryInfoAttributes(countryInfo, continents, record).value[k]
    ensures r.Ok? ==>
              forall k :: k in RecordKeys ==>
                r.value[k] == MapRecordAttributes(record, createdAt, updatedAt).value[k]
  {
    AttributeKeysCount();
    var info :- MapCountryInfoAttributes(countryInfo, continents, record);
    var own :- MapRecordAttributes(record, createdAt, updatedAt);
    Ok(info + own)
  }

  lemma CountryInfoKeysCount()
    ensures |CountryInfoKeys| == 16
  {
  }

  lemma RecordKeysCount()
    ensures |RecordKeys| == 12
  {
  }

  lemma KeySetsDisjoint()
    ensures CountryInfoKeys !! RecordKeys
  {
  }

  /// The two halves of the attribute map share no key, so array_merge
  /// overwrites nothing, and together they have 28 keys.
  lemma AttributeKeysCount()
    ensures CountryInfoKeys !! RecordKeys
    ensures |CountryInfoKeys + RecordKeys| == 28
  {
    CountryInfoKeysCount();
    RecordKeysCount();
    KeySetsDisjoint();
  }

  /// Each country-info attribute is the column of the country-info row at the
  /// record's own geonameid; continent_id is the continent table's id for
  /// that row's Continent code.
  lemma CountryInfoFields(countryInfo: CountryInfoTable, continents: ContinentTable, record: Record)
    requires MapCountryInfoAttributes(countryInfo, continents, record).Ok?
    ensures CountryInfoJoinable(countryInfo, continents, record)
    ensures var info := countryInfo[record["geonameid"]];
            var a := MapCountryInfoAttributes(countryInfo, continents, record).value;
            && a["code"] == Text(info["ISO"])
            && a["iso"] == Text(info["ISO3"])
            && a["iso_numeric"] == Text(info["ISO-Numeric"])
            && a["name"] == Text(info["Country"])
            && a["continent_id"] == ContinentId(continents[info["Continent"]])
            && a["capital"] == Text(info["Capital"])
            && a["currency_code"] == Text(info["CurrencyCode"])
            && a["currency_name"] == Text(info["CurrencyName"])
            && a["tld"] == Text(info["tld"])
            && a["phone_code"] == Text(info["Phone"])
            && a["postal_code_format"] == Text(info["Postal Code Format"])
            && a["postal_code_regex"] == Text(info["Postal Code Regex"])
            && a["languages"] == Text(info["Languages"])
            && a["neighbours"] == Text(info["neighbours"])
            && a["area"] == Text(info["Area(in sq km)"])
            && a["fips"] == Text(info["fips"])
  {
  }

  /// The record attributes are the record's own columns, unchanged, except
  /// that name_official falls back to name when asciiname is falsy.
  lemma RecordFields(record: Record, createdAt: int, updatedAt: int)
    requires MapRecordAttributes(record, createdAt, updatedAt).Ok?
    ensures RecordMappable(record)
    ensures var a := MapRecordAttributes(record, createdAt, updatedAt).value;
            && a["name_official"] == Text(if Truthy(record["asciiname"]) then record["asciiname"] else record["name"])
            && a["latitude"] == Text(record["latitude"])
            && a["longitude"] == Text(record["longitude"])
            && a["timezone_id"] == Text(record["timezone"])
            && a["population"] == Text(record["population"])
            && a["elevation"] == Text(record["elevation"])
            && a["dem"] == Text(record["dem"])
            && a["feature_code"] == Text(record["feature code"])
            && a["geoname_id"] == Text(record["geonameid"])
            && a["synced_at"] == Text(record["modification date"])
            && a["created_at"] == Timestamp(createdAt)
            && a["updated_at"] == Timestamp(updatedAt)
  {
  }

  /// What mapAttributes stores for a country: the sixteen joined columns
  /// and the twelve record attributes, none overwritten by the merge.
  lemma MapAttributesFields(countryInfo: CountryInfoTable, continents: ContinentTable, record: Record,
                            createdAt: int, updatedAt: int)
    requires MapAttributes(countryInfo, continents, record, createdAt, updatedAt).Ok?
    ensures CountryInfoJoinable(countryInfo, continents, record) && RecordMappable(record)
    ensures var info := countryInfo[record["geonameid"]];
            var a := MapAttributes(countryInfo, continents, record, createdAt, updatedAt).value;
            && a["code"] == Text(info["ISO"])
            && a["iso"] == Text(info["ISO3"])
            && a["iso_numeric"] == Text(info["ISO-Numeric"])
            && a["name"] == Text(info["Country"])
            && a["continent_id"] == ContinentId(continents[info["Continent"]])
            && a["capital"] == Text(info["Capital"])
            && a["currency_code"] == Text(info["CurrencyCode"])
            && a["currency_name"] == Text(info["CurrencyName"])
            && a["tld"] == Text(info["tld"])
            && a["phone_code"] == Text(info["Phone"])
            && a["postal_code_format"] == Text(info["Postal Code Format"])
            && a["postal_code_regex"] == Text(info["Postal Code Regex"])
            && a["languages"] == Text(info["Languages"])
            && a["neighbours"] == Text(info["neighbours"])
            && a["area"] == Text(info["Area(in sq km)"])
            && a["fips"] == Text(info["fips"])
            && a["name_official"] == Text(if Truthy(record["asciiname"]) then record["asciiname"] else record["name"])
            && a["latitude"] == Text(record["latitude"])
            && a["longitude"] == Text(record["longitude"])
            && a["timezone_id"] == Text(record["timezone"])
            && a["population"] == Text(record["population"])
            && a["elevation"] == Text(record["elevation"])
            && a["dem"] == Text(record["dem"])
            && a["feature_code"] == Text(record["feature code"])
            && a["geoname_id"] == Text(record["geonameid"])
            && a["synced_at"] == Text(record["modification date"])
            && a["created_at"] == Timestamp(createdAt)
            && a["updated_at"] == Timestamp(updatedAt)
  {
    CountryInfoFields(countryInfo, continents, record);
    RecordFields(record, createdAt, updatedAt);
  }

  /// A row the filter accepts is mapped without failure as soon as its
  /// country-info row has every column, its continent is loaded and the
  /// record has its own columns: the join key itself is guaranteed by the
  /// filter.
  lemma FilterThenMap(countryInfo: CountryInfoTable, continents: ContinentTable, record: Record,
                      createdAt: int, updatedAt: int)
    requires Filter(countryInfo, record) == Ok(true)
    requires forall id :: id in countryInfo ==>
               CountryInfoColumns <= countryInfo[id].Keys && countryInfo[id]["Continent"] in continents
    requires RecordMappable(record)
    ensures MapAttributes(countryInfo, continents, record, createdAt, updatedAt).Ok?
  {
    FilterAcceptsOnlyKnownCountries(countryInfo, record);
  }

  // ---------------------------------------------------------------------------
  // Loading the country-info table

  /// The key Collection::keyBy('geonameid') files a row under: data_get
  /// yields null for a missing column, and a null array key is "".
  function KeyOf(row: CountryInfoRow): string
  {
    if "geonameid" in row then row["geonameid"] else ""
  }

  /// keyBy: every row is stored under its key, a later row replacing an
  /// earlier one with the same key.
  function KeyedByGeonameId(rows: seq<CountryInfoRow>): CountryInfoTable
  {
    if rows == [] then map[]
    else KeyedByGeonameId(rows[..|rows| - 1])[KeyOf(rows[|rows| - 1]) := rows[|rows| - 1]]
  }

  /// The foreach of keyBy.
  method KeyBy(rows: seq<CountryInfoRow>) returns (table: CountryInfoTable)
    ensures table == KeyedByGeonameId(rows)
  {
    table := map[];
    for i := 0 to |rows|
      invariant table == KeyedByGeonameId(rows[..i])
    {
      assert rows[..i + 1][..i] == rows[..i];
      table := table[KeyOf(rows[i]) := rows[i]];
    }
    assert rows[..|rows|] == rows;
  }

  /// The keys of the loaded table are exactly the keys of the parsed rows.
  lemma {:induction false} KeyedKeys(rows: seq<CountryInfoRow>)
    ensures KeyedByGeonameId(rows).Keys == set i | 0 <= i < |rows| :: KeyOf(rows[i])
  {
    if rows != [] {
      var init := rows[..|rows| - 1];
      KeyedKeys(init);
      forall k | k in KeyedByGeonameId(rows).Keys
        ensures exists i :: 0 <= i < |rows| && KeyOf(rows[i]) == k
      {
        if k != KeyOf(rows[|rows| - 1]) {
          var i :| 0 <= i < |init| && KeyOf(init[i]) == k;
          assert rows[i] == init[i];
        }
      }
      forall i | 0 <= i < |rows| ensures KeyOf(rows[i]) in KeyedByGeonameId(rows) {
        if i < |rows| - 1 { assert init[i] == rows[i]; }
      }
    }
  }

  /// Every parsed row can be looked up under its own geonameid unless a later
  /// row has the same key.
  lemma {:induction false} KeyedFindsRow(rows: seq<CountryInfoRow>, i: nat)
    requires i < |rows|
    requires forall j :: i < j < |rows| ==> KeyOf(rows[j]) != KeyOf(rows[i])
    ensures KeyOf(rows[i]) in KeyedByGeonameId(rows)
    ensures KeyedByGeonameId(rows)[KeyOf(rows[i])] == rows[i]
  {
    if i < |rows| - 1 {
      var init := rows[..|rows| - 1];
      assert init[i] == rows[i];
      forall j | i < j < |init| ensures KeyOf(init[j]) != KeyOf(init[i]) {
        assert init[j] == rows[j];
      }
      KeyedFindsRow(init, i);
    }
  }

  /// A loaded entry is the last parsed row filed under that key.
  lemma {:induction false} KeyedHoldsLastRow(rows: seq<CountryInfoRow>, k: string)
    requires k in KeyedByGeonameId(rows)
    ensures exists i :: 0 <= i < |rows| && rows[i] == KeyedByGeonameId(rows)[k] && KeyOf(rows[i]) == k
                        && forall j :: i < j < |rows| ==> KeyOf(rows[j]) != k
  {
    var last := |rows| - 1;
    if KeyOf(rows[last]) != k {
      var init := rows[..last];
      KeyedHoldsLastRow(init, k);
      var i :| 0 <= i < |init| && init[i] == KeyedByGeonameId(init)[k] && KeyOf(init[i]) == k
               && forall j :: i < j < |init| ==> KeyOf(init[j]) != k;
      assert rows[i] == init[i];
      forall j | i < j < |rows| ensures KeyOf(rows[j]) != k {
        if j < last { assert rows[j] == init[j]; }
      }
    }
  }

  /// The filter accepts a record whose geonameid is that of some parsed
  /// country-info row exactly when its feature code is a country code,
  /// whether or not that geonameid is repeated in the rows.
  lemma LoadedRowsAreFound(rows: seq<CountryInfoRow>, record: Record)
    requires "geonameid" in record && "feature code" in record
    requires exists i :: 0 <= i < |rows| && KeyOf(rows[i]) == record["geonameid"]
    ensures Filter(KeyedByGeonameId(rows), record) == Ok(IsCountryFeatureCode(record["feature code"]))
  {
    KeyedKeys(rows);
  }

  // ---------------------------------------------------------------------------
  // The seeder's state

  /// CountrySeeder: the two lookup tables it loads before mapping and clears
  /// afterwards.
  class CountrySeeder {
    var countryInfo: CountryInfoTable
    var continents: ContinentTable

    constructor ()
      ensures countryInfo == map[] && continents == map[]
    {
      countryInfo := map[];
      continents := map[];
    }

    /// loadCountryInfo, given the rows the country-info parser returns.
    method LoadCountryInfo(rows: seq<CountryInfoRow>)
      modifies this
      ensures countryInfo == KeyedByGeonameId(rows)
      ensures continents == old(continents)
    {
      countryInfo := KeyBy(rows);
    }

    /// loadContinents, given the code-to-id map the continent query returns.
    method LoadContinents(table: ContinentTable)
      modifies this
      ensures continents == table
      ensures countryInfo == old(countryInfo)
    {
      continents := table;
    }

    /// loadResourcesBeforeMapping: country info first, then continents.
    method LoadResourcesBeforeMapping(rows: seq<CountryInfoRow>, table: ContinentTable)
      modifies this
      ensures countryInfo == KeyedByGeonameId(rows)
      ensures continents == table
    {
      LoadCountryInfo(rows);
      LoadContinents(table);
    }

    /// unloadResourcesAfterMapping: both tables are emptied.
    method UnloadResourcesAfterMapping()
      modifies this
      ensures countryInfo == map[] && continents == map[]
    {
      countryInfo := map[];
      continents := map[];
    }
  }

  /// The default of CountrySeeder::$model.
  const DefaultCountryModel: string := "App\\Models\\Geo\\Country"

  /// The country model class name. CountrySeeder::$model is static, one
  /// value for the whole process, so it lives in an object of its own
  /// rather than in each seeder.
  class CountryModel {
    var name: string

    constructor ()
      ensures Model() == DefaultCountryModel
    {
      name := DefaultCountryModel;
    }

    /// useModel: later calls of model() return the given class name.
    method UseModel(model: string)
      modifies this
      ensures Model() == model
    {
      name := model;
    }

    /// model()
    function Model(): string
      reads this
    {
      name
    }
  }
}
