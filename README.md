# Delivery fee service — a Dafny model

This project models the decision logic of a delivery fee service for three
Estonian cities. It has two parts.

- **The fee rule engine.** A courier order names a city (Tallinn, Tartu, Pärnu) and a vehicle type (Car, Scooter, Bike).
  - Its fee is the regional base fee plus weather surcharges computed from the latest stored observation of the city: air temperature, wind speed and weather phenomenon.
  - A bike is forbidden in wind above 20 m/s.
  - Bikes and scooters are forbidden under glaze, hail or thunder.
  - An unknown city, an unknown vehicle type and a city with no observation are reported as distinct errors.
- **The ingestion path.** A batch of weather-station entries becomes observation records.
  - Only the three stations that serve a city are kept, and each is renamed to its city.
  - Numbers that are absent or do not parse become 0, and absent texts become the empty string.
  - Every record carries the batch timestamp.
  - Records are appended to an append-only store.
  - The store answers "latest observation of a city" with its greatest-timestamp record.

Modules:

- `Wrappers`: the `Option` type, used for nullable values and for results that may be absent.
- `Text`: ordinal, case-insensitive substring search.
  - It is proved equal to a reference definition: the needle occurs at some offset.
  - It is also proved transitive.
- `Entities`: the `WeatherData` record.
- `WeatherDataService`: the station map, the parse loop and the store.
  - The parse loop is a method proved against the reference function `ParsedRecords`.
  - The store is a class over a `seq` of records, with an append method and the latest-record query.
- `DeliveryFeeCalculation`: the base-fee table, the three phenomenon lists, the forbidden-usage rules and the three surcharges.
  - `DeliveryFee` is the request function and `CalculateDeliveryFee` is the service method that reads the store.
  - Each word list is proved equivalent to a few words. Snow-or-sleet matching means mentioning "snow" or "sleet", in any case.
  - Rain matching means mentioning "rain" or "shower".
  - Forbidden matching means mentioning "glaze", "hail" or "thunder". So the list entry "Thunderstorm" adds nothing.
- `DeliveryFeeProperties`: the properties that relate several requests, and the scenarios of the service's tests.

Amounts and readings are `real`, which is exact, as C# `decimal` is for these constants. A `DateTime` is an `int` tick count.

Three behaviours of the code that the model keeps:

- **The store keeps every record.** It computes the latest one at each read (WeatherDataService.cs:84-87, 105-106); no record is ever replaced.
- **Both forbidden rules throw the same message** (DeliveryFeeCalculationService.cs:139, 148); only the two log warnings differ. The `Forbidden(reason)` tag is the model's own: it records which rule fired, with the wind rule checked first, and nothing else depends on it.
- **Only a missing `timestamp` attribute falls back to `DateTime.Now`.** A malformed one makes `DateTime.Parse` throw and the whole batch fails (WeatherDataService.cs:126). This step is outside the model (see below).

## Model

| member | source | states |
|---|---|---|
| `Text.ContainsIsOccurs` | fujitsuDeliveryFee/fujitsuDeliveryFee.Application/Services/DeliveryFeeCalculationService.cs:144 | the left-to-right substring search succeeds exactly when the needle occurs at some offset of the haystack |
| `Text.ContainsIgnoreCase` | fujitsuDeliveryFee/fujitsuDeliveryFee.Application/Services/DeliveryFeeCalculationService.cs:144 | `Contains(..., OrdinalIgnoreCase)` holds exactly when the case-folded needle occurs in the case-folded haystack |
| `Text.ContainsIgnoreCaseTransitive` | fujitsuDeliveryFee/fujitsuDeliveryFee.Application/Services/DeliveryFeeCalculationService.cs:144 | a string contained in a string contained in the haystack is contained in the haystack |
| `Text.AnyContainedIgnoreCase` | fujitsuDeliveryFee/fujitsuDeliveryFee.Application/Services/DeliveryFeeCalculationService.cs:187 | `list.Any(p => hay.Contains(p, ...))` holds exactly when some list entry is contained in the haystack |
| `WeatherDataService.ParseStation` | fujitsuDeliveryFee/fujitsuDeliveryFee.Infrastructure/Services/WeatherDataService.cs:132-153 | an entry gives a record exactly when its name is a key of the station map. The record's city is the mapped city and its timestamp is the batch timestamp. A parsed temperature or wind speed is copied, and an absent or unparsable one is 0. A present phenomenon or WMO code text is copied, and an absent one is "" |
| `WeatherDataService.ParsedRecords` | fujitsuDeliveryFee/fujitsuDeliveryFee.Infrastructure/Services/WeatherDataService.cs:124-157 | a parse yields at most as many records as entries. Every record has the batch timestamp, a mapped station name and that station's city |
| `WeatherDataService.ParseWeatherData` | fujitsuDeliveryFee/fujitsuDeliveryFee.Infrastructure/Services/WeatherDataService.cs:124-157 | the station loop yields exactly the reference parse of the feed: no more records than entries, each with the batch timestamp and its station's city |
| `WeatherDataService.ParsedRecordsAppend` | fujitsuDeliveryFee/fujitsuDeliveryFee.Infrastructure/Services/WeatherDataService.cs:130-155 | parsing two consecutive parts of a feed gives their records one after the other, so feed order is kept |
| `WeatherDataService.ParsedRecordsAreTheMonitoredStations` | fujitsuDeliveryFee/fujitsuDeliveryFee.Infrastructure/Services/WeatherDataService.cs:132-153 | every parsed record is the record of some entry of the feed, and every monitored entry's record is among the parsed records |
| `WeatherDataService.SampleFeedYieldsThreeCities` | fujitsuDeliveryFee/fujitsuDeliveryFee.Tests/WeatherDataServiceTests.cs:40-65 | the four-station sample yields exactly three records, for Tallinn, Tartu and Pärnu in that order; Kuressaare is dropped |
| `WeatherDataService.StationToCityInjective` | fujitsuDeliveryFee/fujitsuDeliveryFee.Infrastructure/Services/WeatherDataService.cs:26-31 | no two monitored stations serve the same city |
| `WeatherDataService.LatestForCity` | fujitsuDeliveryFee/fujitsuDeliveryFee.Infrastructure/Services/WeatherDataService.cs:84-87 | none exactly when no record has the city. Otherwise the result is a record of the city with a timestamp at least every other one of the city's records, and it is the first stored among the city's records with that greatest timestamp |
| `WeatherDataService.WeatherDataStore.SaveWeatherData` | fujitsuDeliveryFee/fujitsuDeliveryFee.Infrastructure/Services/WeatherDataService.cs:101-106 | the batch is appended after the stored records. The store grows by the batch size, and the records stored before are unchanged |
| `WeatherDataService.WeatherDataStore.GetLatestWeatherDataForCity` | fujitsuDeliveryFee/fujitsuDeliveryFee.Infrastructure/Services/WeatherDataService.cs:80-87 | none exactly when no stored record has the city. Otherwise it is a stored record of the city whose timestamp is at least every other record of the city |
| `WeatherDataService.SaveNewerThenLatest` | fujitsuDeliveryFee/fujitsuDeliveryFee.Infrastructure/Services/WeatherDataService.cs:84-106 | after saving a record strictly newer than every other record of its city, it is the latest record of that city |
| `WeatherDataService.SaveOlderKeepsLatest` | fujitsuDeliveryFee/fujitsuDeliveryFee.Infrastructure/Services/WeatherDataService.cs:84-106 | saving records of a city no newer than its latest record leaves that latest record in place |
| `WeatherDataService.IngestedRecordIsLatest` | fujitsuDeliveryFee/fujitsuDeliveryFee.Infrastructure/Services/WeatherDataService.cs:80-157 | take a monitored station listed once in a feed whose timestamp is newer than every stored record of its city. After the feed is parsed and saved, that station's record is its city's latest |
| `DeliveryFeeCalculation.ForbiddenListIff` | fujitsuDeliveryFee/fujitsuDeliveryFee.Application/Services/DeliveryFeeCalculationService.cs:61-64 | a phenomenon matches the forbidden list exactly when it mentions glaze, hail or thunder in any case ("Thunderstorm" is redundant) |
| `DeliveryFeeCalculation.SnowOrSleetListIff` | fujitsuDeliveryFee/fujitsuDeliveryFee.Application/Services/DeliveryFeeCalculationService.cs:46-51 | a phenomenon matches the snow-or-sleet list exactly when it mentions snow or sleet in any case |
| `DeliveryFeeCalculation.RainListIff` | fujitsuDeliveryFee/fujitsuDeliveryFee.Application/Services/DeliveryFeeCalculationService.cs:54-58 | a phenomenon matches the rain list exactly when it mentions rain or shower in any case |
| `DeliveryFeeCalculation.CheckForbiddenConditions` | fujitsuDeliveryFee/fujitsuDeliveryFee.Application/Services/DeliveryFeeCalculationService.cs:133-150 | the wind rule fires exactly for a bike in wind above 20. The phenomenon rule fires exactly for a bike or scooter whose phenomenon mentions glaze, hail or thunder, when the wind rule did not fire. Any other vehicle is never forbidden |
| `DeliveryFeeCalculation.TemperatureExtraFee` | fujitsuDeliveryFee/fujitsuDeliveryFee.Application/Services/DeliveryFeeCalculationService.cs:163-175 | for bikes and scooters the surcharge is 1.0 exactly below −10, 0.5 exactly on [−10, 0) and 0 exactly from 0 up; for other vehicles it is 0 |
| `DeliveryFeeCalculation.WindExtraFee` | fujitsuDeliveryFee/fujitsuDeliveryFee.Application/Services/DeliveryFeeCalculationService.cs:178-182 | the surcharge is 0.5 exactly for a bike in wind on [10, 20] inclusive, and 0 otherwise |
| `DeliveryFeeCalculation.PhenomenonExtraFee` | fujitsuDeliveryFee/fujitsuDeliveryFee.Application/Services/DeliveryFeeCalculationService.cs:185-197 | for bikes and scooters: 1.0 exactly when the phenomenon mentions snow or sleet; 0.5 exactly when it mentions rain or shower but not snow or sleet; 0 when it mentions neither. Other vehicles pay 0 |
| `DeliveryFeeCalculation.CalculateExtraFees` | fujitsuDeliveryFee/fujitsuDeliveryFee.Application/Services/DeliveryFeeCalculationService.cs:158-200 | the total surcharge is never negative. It is at most 2.5 for a bike and 2.0 for a scooter, and 0 for any other vehicle |
| `DeliveryFeeCalculation.BaseFeeTableShape` | fujitsuDeliveryFee/fujitsuDeliveryFee.Application/Services/DeliveryFeeCalculationService.cs:20-43 | every city lists exactly Car, Scooter and Bike, and every base fee is at least 2.0 |
| `DeliveryFeeCalculation.DeliveryFee` | fujitsuDeliveryFee/fujitsuDeliveryFee.Application/Services/DeliveryFeeCalculationService.cs:85-126 | the result is InvalidCity exactly for a city outside the table, whatever the vehicle and weather. It is InvalidVehicleType exactly for a known city with an unknown vehicle, and NoWeatherData exactly for a valid request without an observation. It is Forbidden exactly when a rule fires. A fee is at least the positive base fee: exactly the base fee for a car, at most base + 2.0 for a scooter and at most base + 2.5 for a bike |
| `DeliveryFeeCalculation.CalculateDeliveryFee` | fujitsuDeliveryFee/fujitsuDeliveryFee.Application/Services/DeliveryFeeCalculationService.cs:85-126 | validating, then reading the store's latest observation of the city, then applying the rules gives the request function's result for that observation |
| `DeliveryFeeProperties.BikeInHighWindIsForbidden` | fujitsuDeliveryFee/fujitsuDeliveryFee.Application/Services/DeliveryFeeCalculationService.cs:136-140 | a bike in wind above 20 is forbidden by the wind rule whatever the temperature and phenomenon |
| `DeliveryFeeProperties.BikeInWindOfTwentyIsCharged` | fujitsuDeliveryFee/fujitsuDeliveryFee.Application/Services/DeliveryFeeCalculationService.cs:136-182 | wind of exactly 20 does not forbid a bike: without a hazardous phenomenon a fee of at least base + 0.5 is quoted |
| `DeliveryFeeProperties.HazardousPhenomenonForbidsBikesAndScooters` | fujitsuDeliveryFee/fujitsuDeliveryFee.Application/Services/DeliveryFeeCalculationService.cs:143-149 | a bike or scooter under a phenomenon mentioning glaze, hail or thunder is forbidden |
| `DeliveryFeeProperties.CarPaysExactlyTheBaseFee` | fujitsuDeliveryFee/fujitsuDeliveryFee.Application/Services/DeliveryFeeCalculationService.cs:114-125 | a car in a known city is never forbidden and pays exactly the base fee, for every observation |
| `DeliveryFeeProperties.VehicleTypeIsCaseSensitive` | fujitsuDeliveryFee/fujitsuDeliveryFee.Application/Services/DeliveryFeeCalculationService.cs:95-98 | vehicle types match exactly: "bike" is an invalid vehicle type |
| `DeliveryFeeProperties.ColderIsNeverCheaper` | fujitsuDeliveryFee/fujitsuDeliveryFee.Application/Services/DeliveryFeeCalculationService.cs:163-175 | the temperature surcharge does not increase with temperature |
| `DeliveryFeeProperties.WindierIsNeverCheaper` | fujitsuDeliveryFee/fujitsuDeliveryFee.Application/Services/DeliveryFeeCalculationService.cs:178-182 | up to 20 m/s the wind surcharge does not decrease with wind speed |
| `DeliveryFeeProperties.HarsherWeatherIsNeverCheaper` | fujitsuDeliveryFee/fujitsuDeliveryFee.Application/Services/DeliveryFeeCalculationService.cs:158-200 | take two readings for the same city and vehicle that are both quoted. If one is colder, windier and at least as severe in phenomenon category as the other, it never gets a lower fee |
| `DeliveryFeeProperties.SnowOrSleetTakesPrecedenceOverRain` | fujitsuDeliveryFee/fujitsuDeliveryFee.Application/Services/DeliveryFeeCalculationService.cs:185-197 | a phenomenon in both categories is charged 1.0, never 1.0 + 0.5 |
| `DeliveryFeeProperties.LightSnowShowerIsInBothCategories` | fujitsuDeliveryFee/fujitsuDeliveryFee.Application/Services/DeliveryFeeCalculationService.cs:46-58 | "Light snow shower" mentions both snow and a shower |
| `DeliveryFeeProperties.NoHazardWithoutLettersZAU` | fujitsuDeliveryFee/fujitsuDeliveryFee.Application/Services/DeliveryFeeCalculationService.cs:61-64 | a phenomenon without the letters z, a and u cannot match the forbidden list |
| `DeliveryFeeProperties.LightSnowShowerIsNotHazardous` | fujitsuDeliveryFee/fujitsuDeliveryFee.Application/Services/DeliveryFeeCalculationService.cs:61-64 | "Light snow shower" mentions none of glaze, hail and thunder |
| `DeliveryFeeProperties.EmptyPhenomenonIsHarmless` | fujitsuDeliveryFee/fujitsuDeliveryFee.Domain/Entities/WeatherData.cs:38 | the default empty phenomenon forbids nothing and adds no surcharge |
| `DeliveryFeeProperties.TartuBikeInLightSnowShower` | fujitsuDeliveryFee/fujitsuDeliveryFee.Tests/DeliveryFeeCalculationServiceTests.cs:26-49 | Tartu, bike, −2.1 °C, 4.7 m/s, "Light snow shower" is quoted 2.5 + 0.5 + 0 + 1.0 = 4.0 |
| `DeliveryFeeProperties.TallinnBikeInWindOfTwentyOne` | fujitsuDeliveryFee/fujitsuDeliveryFee.Tests/DeliveryFeeCalculationServiceTests.cs:52-74 | Tallinn, bike, wind 21 is forbidden by the wind rule |
| `DeliveryFeeProperties.ParnuScooterInThunder` | fujitsuDeliveryFee/fujitsuDeliveryFee.Tests/DeliveryFeeCalculationServiceTests.cs:77-99 | Pärnu, scooter, "Thunder" is forbidden by the phenomenon rule |

## Left out

- Retrieval of the feed over HTTP (`FetchWeatherDataAsync` and its fixed URL) is left out because it is network I/O.
- XML parsing is left out because it is a library call. The model starts from the station entries with their child texts already extracted.
- `decimal.TryParse` is a parameter of the parse, because it is a library call that depends on the current culture.
- The batch timestamp is an input. Resolving it (`DateTime.Parse` of the root attribute, or of `DateTime.Now` when the attribute is missing) is a clock read and a library call. So the model does not capture that a malformed attribute fails the whole batch.
- `WeatherData.Id` is left out because it is a key the database assigns; no rule reads it.
- `DateTime` kinds and time zones are not modelled; a timestamp is a number.
- LatestForCity: the query has no secondary sort key. The model picks the first-stored record among equal greatest timestamps, as a stable in-memory sort does. A relational database may return any of them.
- LatestForCity: city equality is C# ordinal string equality, as with the in-memory provider of the tests, not the database's collation. A case-insensitive collation would also return a "Tallinn" record for the query "tallinn"; the model returns none. The fee path never asks such a query: it checks the city case-sensitively first (DeliveryFeeCalculationService.cs:90), and stored cities come only from the station map.
- The scheduler (cron evaluation, cancellable waits, the catch-log-continue loop) is left out because it is timing, concurrency and a foreign library.
- Concurrent readers and the writer of the store are left out. The store is a sequential object.
- The HTTP controller and its status-code mapping are left out because they are transport plumbing.
- Dependency wiring and the database schema are left out because they are configuration.
- Logging, the async wrappers and the catch-and-rethrow of database errors are left out because they change no result.
- Text.ContainsIgnoreCase: folds ASCII letters only. Ordinal case-insensitive comparison also folds non-ASCII letters, such as ä and Ä. No word list contains such a letter.
- `decimal` range and rounding are not modelled. Amounts are exact reals, and every constant here is a multiple of 0.1.
