# laravel-geonames: the country seeder and the daily update command

This project is a Dafny model of two parts of laravel-geonames, the package that imports the GeoNames gazetteer into a Laravel store. It verifies properties of both.

- **`Seeders` (seeders.dfy)** models `CountrySeeder`:
  - which parsed geonames rows are countries (`filter`);
  - how such a row is joined with the country-info table and the continent table (`mapCountryInfoAttributes`);
  - how it becomes the 28-key attribute map that is persisted (`mapAttributes`);
  - how the country-info table is loaded, keyed by geonameid (`loadCountryInfo`, `keyBy`), and cleared again (`unloadResourcesAfterMapping`);
  - the static country model class (`useModel`, `model`).

  A PHP array read of a key that is not there raises in a Laravel application, so every lookup either succeeds or fails with the key it missed. Lookups run in PHP's evaluation order.
- **`ConsoleUpdate` (update_command.dfy)** models `geonames:update`.
  - `UpdateCommand` is a class whose step methods append to a trace of what the command does: the ready event, each download, each service call, and the clean-up.
  - Each method is proved equal to a run of a plan of steps: `HandleTrace`, an interpreter that stops at the first failed download.
  - The ordering properties are lemmas about that run:
    - the ready event comes first, and only once;
    - the steps follow the fixed order;
    - country info is supplied exactly when the store asks for it and its download succeeds, and before the modifications;
    - modifications come before deletes;
    - translation modifications come before translation deletes;
    - `--without-translations` removes the translation ops, and changes nothing else when the alternate-names downloads succeed;
    - each call gets the path of its own download;
    - a failed download ends the command, and what ran before it stays done;
    - when no download fails, the trace is written out exactly: every service call is made, each with its own download's path, and cleanFolder comes last.

## Model

| member | source | states |
|---|---|---|
| Seeders.Filter | src/Seeders/CountrySeeder.php:158-165 | A row with no geonameid fails on that key. A geonameid missing from the country-info table gives false. A known geonameid gives whether the feature code is exactly one of the seven country codes, or fails on a missing feature code. |
| Seeders.FilterAcceptsOnlyKnownCountries | src/Seeders/CountrySeeder.php:158-165 | A row the filter accepts has its geonameid in the country-info table and a country feature code. |
| Seeders.MapCountryInfoAttributes | src/Seeders/CountrySeeder.php:191-213 | Succeeds exactly when the geonameid, the country-info row, its sixteen columns and its continent code are all present. Its keys are then the sixteen country-info keys. A missing geonameid or an unknown geonameid fails on that key. |
| Seeders.CountryInfoFields | src/Seeders/CountrySeeder.php:193-211 | Each of the sixteen attributes is the named column of the country-info row at the record's own geonameid. continent_id is the continent table's id for that row's Continent code. |
| Seeders.MapRecordAttributes | src/Seeders/CountrySeeder.php:172-185 | Succeeds exactly when the record has the ten columns read, and also name when asciiname is falsy. Its keys are then the twelve record keys. |
| Seeders.RecordFields | src/Seeders/CountrySeeder.php:173-184 | Every record attribute is the record's column, unchanged. name_official is asciiname unless asciiname is "" or "0", and name otherwise. created_at and updated_at are the two clock readings. |
| Seeders.MapAttributes | src/Seeders/CountrySeeder.php:170-186 | Succeeds exactly when both halves do. The result has the 28 keys of both halves, and each key keeps its half's value: the merge overwrites nothing. |
| Seeders.AttributeKeysCount | src/Seeders/CountrySeeder.php:172-212 | The country-info keys and the record keys are disjoint and number 28 together. |
| Seeders.MapAttributesFields | src/Seeders/CountrySeeder.php:170-213 | All 28 stored values of a mapped country, each traced to its column, to the continent table or to the clock. |
| Seeders.FilterThenMap | src/Seeders/CountrySeeder.php:158-213 | A row the filter accepts always maps without failure when the tables are complete and the record has its columns. |
| Seeders.KeyBy | src/Seeders/CountrySeeder.php:138-140 | The keyBy loop builds exactly the table `KeyedByGeonameId` describes. |
| Seeders.KeyedKeys | src/Seeders/CountrySeeder.php:138-140 | The loaded table's keys are exactly the geonameids of the parsed rows, or "" for a row without one. |
| Seeders.KeyedFindsRow | src/Seeders/CountrySeeder.php:138-140 | A parsed row is found under its own geonameid unless a later row has the same key. |
| Seeders.KeyedHoldsLastRow | src/Seeders/CountrySeeder.php:138-140 | Every loaded entry is the last parsed row filed under that key. |
| Seeders.LoadedRowsAreFound | src/Seeders/CountrySeeder.php:158-165 | Over the table loaded from the parsed rows, repeated geonameids included, the filter accepts a record whose geonameid is that of some row exactly when its feature code is a country code. |
| Seeders.CountrySeeder.constructor | src/Seeders/CountrySeeder.php:32-39 | A new seeder has both tables empty. |
| Seeders.CountrySeeder.LoadCountryInfo | src/Seeders/CountrySeeder.php:133-141 | The country-info table becomes the parsed rows keyed by geonameid. The continent table is unchanged. |
| Seeders.CountrySeeder.LoadContinents | src/Seeders/CountrySeeder.php:146-153 | The continent table becomes the given code-to-id map. The country-info table is unchanged. |
| Seeders.CountrySeeder.LoadResourcesBeforeMapping | src/Seeders/CountrySeeder.php:115-119 | Both tables are loaded. |
| Seeders.CountrySeeder.UnloadResourcesAfterMapping | src/Seeders/CountrySeeder.php:124-128 | Both tables become empty. |
| Seeders.CountryModel.constructor | src/Seeders/CountrySeeder.php:18 | model() starts as App\Models\Geo\Country. |
| Seeders.CountryModel.UseModel | src/Seeders/CountrySeeder.php:60-71 | After useModel, model() returns the given class name. |
| ConsoleUpdate.UpdateCommand.Handle | src/Console/Update/UpdateCommand.php:70-90 | Records the services init assigns. Appends exactly the ops of the handle plan run against the download service, and reports whether the run reached its end. |
| ConsoleUpdate.UpdateCommand.Init | src/Console/Update/UpdateCommand.php:95-108 | Assigns the services and leaves the trace unchanged. |
| ConsoleUpdate.UpdateCommand.Prepare | src/Console/Update/UpdateCommand.php:162-166 | Appends the ready event. |
| ConsoleUpdate.UpdateCommand.Modify | src/Console/Update/UpdateCommand.php:113-122 | Appends the run of the modify plan: country info first when the store asks for it, then the daily modifications. |
| ConsoleUpdate.UpdateCommand.Delete | src/Console/Update/UpdateCommand.php:127-131 | Appends the run of the delete plan. |
| ConsoleUpdate.UpdateCommand.ModifyTranslations | src/Console/Update/UpdateCommand.php:136-144 | Appends nothing under --without-translations, and the translation modifications otherwise. |
| ConsoleUpdate.UpdateCommand.DeleteTranslations | src/Console/Update/UpdateCommand.php:149-157 | Appends nothing under --without-translations, and the translation deletes otherwise. |
| ConsoleUpdate.UpdateCommand.CleanFolder | src/Console/Update/UpdateCommand.php:87 | Appends the clean-up. |
| ConsoleUpdate.HandleReadyFirst | src/Console/Update/UpdateCommand.php:82-87 | GeonamesCommandReady is the first op and occurs only once. |
| ConsoleUpdate.HandleInOrder | src/Console/Update/UpdateCommand.php:82-87 | The ops follow the order prepare, country info, modify, delete, modifyTranslations, deleteTranslations, cleanFolder. Every service call comes right after its own download and gets the path that download returned. |
| ConsoleUpdate.HandleSuppliesCountryInfo | src/Console/Update/UpdateCommand.php:117-119 | Country info is handed to the supply service exactly when shouldSupplyCountries holds and its download succeeds. |
| ConsoleUpdate.HandleCountryInfoFirst | src/Console/Update/UpdateCommand.php:117-121 | Country info is supplied before the daily modifications. When the store asks for it, no modification is supplied without it. |
| ConsoleUpdate.HandleModifiesBeforeDeletes | src/Console/Update/UpdateCommand.php:83-84 | Deletes come after the modifications, and only once those were supplied. |
| ConsoleUpdate.HandleTranslationsInOrder | src/Console/Update/UpdateCommand.php:85-86 | Translation deletes come after the translation modifications, and only once those were supplied. |
| ConsoleUpdate.HandleWithoutTranslations | src/Console/Update/UpdateCommand.php:136-157 | Under --without-translations no translation op appears. When the alternate-names downloads succeed, the trace is the trace with translations minus its translation ops. |
| ConsoleUpdate.HandlePlanDropsTranslations | src/Console/Update/UpdateCommand.php:138-153 | The plan under --without-translations is the full plan minus its two translation steps. |
| ConsoleUpdate.HandleCompletes | src/Console/Update/UpdateCommand.php:82-87 | handle reaches its end exactly when every download it asks for succeeds: modifications, deletes, country info when supplied, and alternate names unless --without-translations. |
| ConsoleUpdate.HandleStops | src/Console/Update/UpdateCommand.php:82-87 | A failed download is the last op and the folder is then not cleaned. Otherwise cleanFolder is the last op and occurs only there. |
| ConsoleUpdate.HandleRunsEveryStep | src/Console/Update/UpdateCommand.php:78-87 | When every download handle asks for succeeds, the trace is exactly: the ready event; country info when the store asks for it; the modifications; the deletes; the translation modifications and deletes unless --without-translations; the clean-up. Each transfer is its download followed by the call with that path. |
| ConsoleUpdate.HandleMakesEveryCall | src/Console/Update/UpdateCommand.php:113-157 | When no download fails, supplyService modify and delete are called, addCountryInfo when the store asks for it, and translateService modify and delete unless --without-translations. Each is called with the path its own download returned, and cleanFolder is the last op. |
| ConsoleUpdate.RunFailsAt | src/Console/Update/UpdateCommand.php:82-87 | When the first failed download is that of step k, the steps before k run to their end and the failed download is the only op after them. |
| ConsoleUpdate.HandleFailsAt | src/Console/Update/UpdateCommand.php:82-87 | When handle's first failed download is that of plan step k, its trace is the completed run of the steps before k followed by that failed download, and handle does not complete. |
| ConsoleUpdate.HandleCommitsEarlierCalls | src/Console/Update/UpdateCommand.php:82-86 | Each service call whose own download and all earlier downloads succeed is made with its download's path, even when a later download fails: the modifications are supplied even when the deletes download then fails, and likewise through the translate calls. |

## Left out

- Downloading, unzipping and parsing. The rows the country-info parser returns and the paths the download service returns are parameters. `getRecords`, `getDailyModificationRecords` and `getDailyDeleteRecords` (src/Seeders/CountrySeeder.php:77-110) only pass through a download and a parser, and are left out.
- The continent query of `loadContinents`. The code-to-id map it plucks is a parameter; ContinentSeeder is not part of this model.
- ModelSeeder, which drives filter and mapAttributes over the records and writes the result to the store, is not part of this model.
- FeatureCode is not part of this model. Its seven constants are taken to be the strings of their own names.
- The allowed feature codes are a constant rather than the seeder field the constructor fills (src/Seeders/CountrySeeder.php:44-55), since nothing else assigns that field.
- PHP array order. Attribute maps and tables are unordered Dafny maps, so the column order of the persisted row is not modelled.
- Value types. Raw column values are strings, continent ids are natural numbers, and the two `now()` readings are integers supplied by the caller.
- The `info` console output of every step, and the `--keep-files` option. CleanFolder (the trait) is not part of this model; cleanFolder is one op in the trace.
- Exceptions from the dispatcher, the supply service and the translate service. Only a failed download is modelled as ending the command.
- Geonames::shouldSupplyCountries is a parameter of Handle.
- The `--without-translations` option is read twice in the source. It is a constant of the command here, since nothing changes it during handle.
- GeonamesServiceProvider, which registers the command and the services, is not part of this model.
- ConsoleUpdate.HandleWithoutTranslations: the two traces are related only when the alternate-names downloads would succeed. Otherwise the run with translations stops at that download while the run without goes on to clean the folder.
