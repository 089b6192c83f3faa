# PREAC agroclimatic platform — a Dafny model

PREAC (EnerAgro) is a web platform for smallholder farmers. It has three parts:

- **An Express backend.** It serves rule-table calculators: pest risk, smart irrigation, production planning, solar sizing and weather alerts. It also runs a frost-alert pipeline with SMS notifications and a small user and subscriber store kept in JSON files.
- **A Python script.** It scores a frost feature vector.
- **A React frontend.** It has an API client with offline fallbacks, a service-worker manager, and pages that compute their own recommendations in the browser.

The model has one Dafny module per core source file:

- Pure rules are datatypes, functions and lemmas.
- Stores that the source changes in place are classes: the subscriber file, the user file, the service-worker manager and each page's React state. Their methods carry `modifies` clauses, and each method's `ensures` ties the new state to a specification function.
- Loops in the source are methods with loop invariants, proved equal to a closed-form specification: feature assembly, alert generation, calendar and schedule building, pest predictions.

`common.dfy` holds shared pieces: Option/Result, the JavaScript string and number helpers the source relies on (trim and whitespace, `slice` with negative indices, `Math.round`, integer formatting) and `KeepLast` for the "last ten entries" histories.

Inputs that are not data become parameters:

- the clock;
- the weather provider's arrays;
- the frost model's output;
- the SMS gateway's reply;
- the bcrypt hash and the token generator;
- `Math.random`;
- `sin`/`cos`/`sqrt`;
- date arithmetic, as a day-number function.

Nothing about them is assumed beyond what their types say, with one exception: every series of a weather response is taken to hold one value per timestamp (`FrostFeatures.WellFormed`, `OpenMeteo.Aligned`; see "## Left out").

Some behaviour the model shows is surprising, but it is not listed as a finding because it may be intended:

- **Irrigation page.** The page reports the saved water as `1 - efficiency`, so a more efficient system saves less (`IrrigationPage.SavingFallsWithEfficiency`).
- **Profile updates.** `User.update` never re-checks phone uniqueness (`UserModel.UpdateCanDuplicatePhone`). As a result, the 409 branch of `updateProfile` can never be taken (`AuthController.UpdateProfile` ensures the status is never 409).
- **Health check.** `checkBackendHealth` in the API client refers to an undefined `API_BASE_URL`, so every call to it fails. It is not modelled.

## Model

| member | source | states |
|---|---|---|
| FrostFeatures.Vector | backend/services/frostFeatureBuilder.js:68-81 | the feature vector has 12 slots: humidity first, dew point fourth, the six-hour temperature lag eleventh |
| FrostFeatures.FindFirstLater | backend/services/frostFeatureBuilder.js:32 | `findIndex` gives the first hour strictly later than now, or -1 exactly when every hour is at or before now |
| FrostFeatures.TargetIndex | backend/services/frostFeatureBuilder.js:32-33 | the target index always lies inside a non-empty time series |
| FrostFeatures.BuildFrostFeatures | backend/services/frostFeatureBuilder.js:27-106 | on success the vector has 12 entries, equals the ordered features laid out in vector order, and the meta copies the response's location |
| FrostFeatures.MissingSeriesFails | backend/services/frostFeatureBuilder.js:28-29 | a missing or empty hourly `time` series fails with the no-hourly-data error |
| FrostFeatures.TargetIsFirstLater | backend/services/frostFeatureBuilder.js:31-33 | the target is the first hour later than now when there is one, else the last index |
| FrostFeatures.BuildSucceedsIffHistory | backend/services/frostFeatureBuilder.js:29-37 | features are built iff the series exists and the target index is at least 6; a target below 6 fails with the insufficient-history error |
| FrostFeatures.FeatureLayout | backend/services/frostFeatureBuilder.js:47-100 | each slot reads its series at the target (lags at t-6 and t-3, the change against t-1), pressure falls back to precipitation when absent or null, slots 5 to 8 are the sine and cosine of 2π·hour/24 and of 2π·(month-1)/12 for the target hour, and the meta's hour is `time[t]` |
| FrostFeatures.IsNightFlag | backend/services/frostFeatureBuilder.js:65 | `is_night` is 0 or 1; with `is_day` it is 1 iff `is_day[t] == 0`, without it iff the hour is before 6 or from 18 on |
| FrostInference.RiskLevel | backend/services/frostInferenceService.js:34 | `alto` iff risk reaches the threshold, `medio` iff 0.5 <= risk < threshold, `bajo` iff risk is below both |
| FrostInference.InferFrost | backend/services/frostInferenceService.js:11-45 | a model answer is returned unchanged (its first result); a failed model gives the fallback score, its band, the caller's threshold (0.9 by default), `mock`, `fallback` and the fallback message |
| FrostInference.FallbackBounds | backend/services/frostInferenceService.js:26-32 | the raw sum lies in [0.1, 1.1], the clamped score in [0.1, 1.0], and a raw 1.1 is clamped to 1.0 |
| FrostInference.ColdMeansAtLeastPointSeven | backend/services/frostInferenceService.js:27-28 | a lagged temperature below 2 gives both increments, so the score is at least 0.7 |
| FrostInference.ExactlyOneBand | backend/services/frostInferenceService.js:34 | the level is always one of `alto`, `medio`, `bajo` |
| FrostInference.ColdHumidExample | backend/services/frostInferenceService.js:26-34 | temperature 1, humidity 90 and dew point -2 give risk 1.0, banded `alto` at the default threshold |
| FrostScript.ThresholdOf | backend/scripts/predict_frost_vector.py:25 | the payload's threshold, or 0.9 when it is absent |
| FrostScript.BandMatchesFallback | backend/scripts/predict_frost_vector.py:36 | the script's banding is the JavaScript fallback's banding, with the same `alto`/`medio` conditions |
| FrostScript.ScriptProcess.constructor | backend/scripts/predict_frost_vector.py:6 | a new process has no cached model and has loaded none |
| FrostScript.ScriptProcess.LoadModel | backend/scripts/predict_frost_vector.py:8-12 | a cached model is returned without loading; otherwise the model on disk is loaded once and cached |
| FrostScript.ScriptProcess.Run | backend/scripts/predict_frost_vector.py:14-42 | the output echoes the model's probability as the risk, its band and the threshold used, and the process never loads more than once |
| OpenMeteo.Mean | backend/services/fetchOpenMeteoData.js:183-186 | the mean of an empty series is 0; otherwise mean times length is the sum |
| OpenMeteo.SquaredDiffs | backend/services/fetchOpenMeteoData.js:193 | one squared deviation from the mean per value, in order |
| OpenMeteo.Variance | backend/services/fetchOpenMeteoData.js:191-195 | the mean squared deviation is never negative, and zero for an empty or a constant series |
| OpenMeteo.StandardDeviation | backend/services/fetchOpenMeteoData.js:191-196 | the square root of the variance, and of 0 for an empty series |
| OpenMeteo.HistoricalStats | backend/services/fetchOpenMeteoData.js:151-164 | over the hours from start to end: the temperature mean and minimum, the minimum at most the mean when there are hours, the humidity mean (0 without hours) and the precipitation sum |
| OpenMeteo.FrostRiskCountIsCardinality | backend/services/fetchOpenMeteoData.js:169-178 | the frost-risk count is the number of indices with temperature at most 2 and a dew-point gap below 3, so it never exceeds the series length |
| OpenMeteo.CountFrostRiskHours | backend/services/fetchOpenMeteoData.js:169-178 | the counting loop returns exactly the frost-risk count, at most the series length |
| OpenMeteo.FindFirstAtOrAfter | backend/services/fetchOpenMeteoData.js:73-75 | `findIndex` gives the first hour at or after now, or -1 exactly when every hour is earlier |
| OpenMeteo.Start | backend/services/fetchOpenMeteoData.js:73-75 | the corrected window start: every hour before it is in the past and the hour at it (if any) is not |
| OpenMeteo.ProcessWeatherData | backend/services/fetchOpenMeteoData.js:67-146 | with the corrected window start of the Findings table: the window is the seven series from the start to `min(start+24, n)`; every aggregate is the minimum, maximum, mean, standard deviation or sum of its window series; `frost_risk_hours` is the number of risky window hours and `forecast_hours` the window length; the history is taken over every hour before the start; `time_range` is the first and last window hour's text, `undefined` outside the series; a non-empty window's temperature minimum and maximum bracket its mean |
| OpenMeteo.GetFrostForecastData | backend/services/fetchOpenMeteoData.js:11-60 | with the corrected window start of the Findings table: success iff the fetch succeeded, with the processed hourly data and the response's latitude, longitude, timezone, elevation and generation time; a failure carries the error message and neither data nor metadata instead of throwing |
| OpenMeteo.WindowAndHistory | backend/services/fetchOpenMeteoData.js:76-164 | the window is `[start, min(start+24, n))` of every series, and the historical statistics are computed over exactly the hours `[0, start)` |
| OpenMeteo.AsWrittenAgreesWhenFound | backend/services/fetchOpenMeteoData.js:73-79 | when some hour is at or after now, the code as written and the corrected start agree |
| OpenMeteo.AsWrittenDropsLastHour | backend/services/fetchOpenMeteoData.js:73-135 | with every hour in the past, the code as written (start -1) yields an empty window, a historical mean that leaves out the last hour, and no range start |
| OpenMeteo.StartPastEndKeepsAllHistory | backend/services/fetchOpenMeteoData.js:131-164 | with the corrected start and every hour in the past, the window is empty and the history covers the whole series |
| OpenMeteo.PrepareMLFeatures | backend/services/fetchOpenMeteoData.js:226-255 | 20 values in fixed order; the frost-risk hours are 17th and the last three are forecast minus historical differences, precipitation against the 7-day sum over 7 |
| OpenMeteo.MeanBetweenMinAndMax | backend/services/fetchOpenMeteoData.js:95-186 | for a non-empty series the mean lies between `Math.min` and `Math.max` |
| OpenMeteo.SumBounds | backend/services/fetchOpenMeteoData.js:185 | values bounded by lo and hi sum to between lo·n and hi·n |
| OpenMeteo.QuotientBounds | backend/services/fetchOpenMeteoData.js:185 | a total between lo·n and hi·n divided by n lies between lo and hi |
| OpenMeteo.MultipleLocationsForecast | backend/services/fetchOpenMeteoData.js:203-219 | with the corrected window start of the Findings table: one result per location in input order, each the single-location result of that location's fetch, labelled with its name or `"lat,lon"` |
| Subscribers.FindPhoneIndex | backend/services/subscribersService.js:49 | the index of the first record with the phone, or -1 exactly when no record has it |
| Subscribers.FindPhone | backend/services/subscribersService.js:49-70 | `find` returns a stored record with that phone, and nothing exactly when no record has it |
| Subscribers.RemovePhone | backend/services/subscribersService.js:60 | the filter keeps exactly the records whose phone differs, never adds one and never grows the list |
| Subscribers.RemovePhoneAbsent | backend/services/subscribersService.js:60-61 | without the phone the filter returns the list unchanged |
| Subscribers.RemovePhonePresent | backend/services/subscribersService.js:60-61 | with the phone the filtered list is strictly shorter |
| Subscribers.RemovePhoneShrinksIffPresent | backend/services/subscribersService.js:60-61 | the length changes iff some record has the phone, and otherwise the list is unchanged |
| Subscribers.RemovePhoneKeepsOrder | backend/services/subscribersService.js:60 | the filter distributes over concatenation, so surviving records keep their order |
| Subscribers.RemovePhoneNoop | backend/services/subscribersService.js:60 | removing a phone no record has changes nothing |
| Subscribers.SubscribeKeepsPhonesUnique | backend/services/subscribersService.js:47-55 | subscribing keeps every phone unique |
| Subscribers.UniqueCons | backend/services/subscribersService.js:60 | a record whose phone is absent from a unique list keeps it unique in front of it |
| Subscribers.UnsubscribeKeepsPhonesUnique | backend/services/subscribersService.js:58-66 | unsubscribing keeps every phone unique |
| Subscribers.SubscribeIdempotent | backend/services/subscribersService.js:47-55 | subscribing twice is subscribing once, whatever name and time the second call brings |
| Subscribers.StatusAfterUpdates | backend/services/subscribersService.js:47-72 | after subscribe the phone is found; after unsubscribe it is not |
| Subscribers.SubscriberStore.constructor | backend/services/subscribersService.js:8 | the store starts with the given file contents |
| Subscribers.SubscriberStore.GetAll | backend/services/subscribersService.js:21-40 | an unparseable file or a missing `subscribers` field reads as an empty list; otherwise the stored list |
| Subscribers.SubscriberStore.IsSubscribed | backend/services/subscribersService.js:42-45 | true iff some stored record has the phone |
| Subscribers.SubscriberStore.Subscribe | backend/services/subscribersService.js:47-56 | a present phone answers `already` and writes nothing; a new one appends exactly one record (name defaulting to `Invitado`) at the end; uniqueness is kept |
| Subscribers.SubscriberStore.Unsubscribe | backend/services/subscribersService.js:58-66 | the records become the filtered list, `removed` iff the phone was present, no write when nothing changed, uniqueness kept |
| Subscribers.SubscriberStore.GetStatus | backend/services/subscribersService.js:68-72 | subscribed with the stored record iff the phone is present, else not subscribed with the phone |
| Sms.Digits | backend/services/smsService.js:24 | `\d{n}` as a token run: exactly n digit tokens |
| Sms.FormatPhoneNumber | backend/services/smsService.js:29-32 | the result holds no whitespace and formatting it again changes nothing |
| Sms.Erase | backend/services/smsService.js:24 | dropping the optional-space tokens leaves no optional-space token |
| Sms.MatchSpaceless | backend/services/smsService.js:24 | on a whitespace-free string the pattern matches iff the string matches the pattern with every `\s?` dropped, token by token |
| Sms.MatchStripped | backend/services/smsService.js:24-31 | when the pattern's literals are not spaces, a match survives removing the whitespace |
| Sms.ErasedPhonePattern | backend/services/smsService.js:24 | the phone pattern without its `\s?` is `+519` followed by eight digits |
| Sms.EraseConcat | backend/services/smsService.js:24 | dropping optional spaces distributes over concatenation |
| Sms.EraseDigits | backend/services/smsService.js:24 | a digit run has no optional space to drop |
| Sms.SpacelessValidIffCanonical | backend/services/smsService.js:23-26 | a whitespace-free string passes `validatePeruvianPhone` iff it is `+519` and eight digits |
| Sms.NormalisedPhoneIsCanonical | backend/services/smsService.js:23-32 | a valid phone, once formatted, is canonical and still valid |
| Sms.MatchDigitRun | backend/services/smsService.js:24 | a run of digits matches `\d{n}` in front of any match |
| Sms.MatchLitStep | backend/services/smsService.js:24 | a literal character matches its literal token in front of any match |
| Sms.MatchSpaceStep | backend/services/smsService.js:24 | one space matches `\s?` in front of any match |
| Sms.SpacedTailMatches | backend/services/smsService.js:24 | `dd ddd ddd` matches the tail of the pattern |
| Sms.PrefixMatches | backend/services/smsService.js:24 | `+51 9` matches the head of the pattern in front of any match of the tail |
| Sms.PhonePatternSplit | backend/services/smsService.js:24 | the pattern is its literal head followed by the spaced tail |
| Sms.SpacedFormIsValid | backend/services/smsService.js:23-26 | the spaced display form `+51 9dd ddd ddd` is a valid phone |
| Sms.InitService | backend/services/smsService.js:8-20 | a client exists iff all three settings are present, the SID starts with `AC` and the client constructor does not throw |
| Sms.GetConfig | backend/services/smsService.js:207-220 | the mode is `real` iff configured and `simulation` otherwise; configured implies all three settings present |
| Sms.ClientImpliesConfigured | backend/services/smsService.js:8-209 | having a client implies `isConfigured()`; settings that do not look valid always give simulation mode |
| Sms.SendSms | backend/services/smsService.js:132-184 | the phone is formatted and the type defaults to `general`; without a client the send is simulated with id `sim_<millis>`; with one, success iff the gateway accepts, carrying its sid and status, or its error message on rejection |
| Sms.SendFrostAlert | backend/services/smsService.js:36-42 | sends the frost text as a `frost_alert`, without validating the phone |
| Sms.SendWelcomeSms | backend/services/smsService.js:45-58 | fails with `Número de teléfono inválido` iff the phone is invalid; otherwise sends the welcome text as `welcome` |
| Sms.SendIrrigationAlert | backend/services/smsService.js:61-74 | fails iff the phone is invalid; otherwise sends the irrigation text as `irrigation_alert` |
| Sms.SendWeatherAlert | backend/services/smsService.js:77-90 | fails iff the phone is invalid; otherwise sends the weather text as `weather_alert` |
| Sms.SeverityText | backend/services/smsService.js:99-104 | the four known severities map to their Spanish labels and any other is upper-cased |
| Sms.SendPestAlert | backend/services/smsService.js:93-113 | fails iff the phone is invalid; otherwise sends the pest text with the severity label as `pest_alert` |
| Sms.SendSolarMaintenanceReminder | backend/services/smsService.js:116-129 | fails iff the phone is invalid; otherwise sends the reminder as `solar_maintenance` |
| Sms.FrostAlertMentionsLevel | backend/services/smsService.js:38-40 | the frost text starts with `ALERTA HELADA (`, then the rounded percentage, then the upper-cased level |
| Sms.GetSmsHistory | backend/services/smsService.js:187-204 | the history is always empty, for the given user and limit |
| Notifications.NormalizePhone | backend/routes/notifications.js:9 | a missing phone becomes the empty string; otherwise the whitespace-free form |
| Notifications.PhoneGate | backend/routes/notifications.js:8-36 | a phone passes the route guard iff present and matching the pattern, and then its key is canonical and still valid |
| Notifications.SpacingDoesNotMatter | backend/routes/notifications.js:8-36 | two valid spellings of one number that differ only in spacing give the same subscriber key |
| Notifications.CanonicalFormIsSameKey | backend/routes/notifications.js:8-36 | the normalised form of a valid phone maps to the same key as the phone |
| Notifications.ConfigRoute | backend/routes/notifications.js:12-27 | answers 200 with `getConfig()` |
| Notifications.SubscribeRoute | backend/routes/notifications.js:30-43 | an absent or invalid phone answers 400 with the guard message and leaves the store untouched; otherwise 200 with the store's answer as data (already subscribed with the normalised phone if it was present, else the new record with the given or default name and the time) and the store holds the records after subscribing the normalised phone |
| Notifications.UnsubscribeRoute | backend/routes/notifications.js:46-59 | an absent or invalid phone answers 400 and changes nothing; otherwise 200 with the normalised phone and whether it was present as data, and the store holds the records without the normalised phone |
| Notifications.StatusRoute | backend/routes/notifications.js:62-75 | an absent or invalid phone answers 400; otherwise 200 with the store's status: subscribed iff the store has the normalised phone, then with the first stored record of that phone, and otherwise with the normalised phone |
| Notifications.TestRoute | backend/routes/notifications.js:78-107 | an absent or invalid phone answers 400; otherwise 200 with a `test` send of the fixed text to the normalised phone |
| Notifications.Deliver | backend/routes/notifications.js:121-134 | a send that returns answers 200 with its result; one that throws answers 500 with the thrown message |
| Notifications.IrrigationAlertRoute | backend/routes/notifications.js:110-135 | 400 iff the phone is absent or invalid or a field is missing; otherwise always 200, since the normalised phone passes the service's own validation |
| Notifications.WeatherAlertRoute | backend/routes/notifications.js:138-163 | 400 iff the phone is absent or invalid or a field is missing; otherwise always 200 with the weather text |
| Notifications.PestAlertRoute | backend/routes/notifications.js:166-191 | 400 iff the phone is absent or invalid or a field is missing; otherwise always 200 with the pest text |
| Notifications.SolarMaintenanceRoute | backend/routes/notifications.js:194-219 | 400 iff the phone is absent or invalid or a field is missing; otherwise always 200 with the reminder text |
| Notifications.LeadingDigits | backend/routes/notifications.js:225 | the longest all-digit prefix |
| Notifications.SkipSpaces | backend/routes/notifications.js:225 | the suffix after leading whitespace, starting with a non-space |
| Notifications.DigitValue | backend/routes/notifications.js:225 | no number iff the text does not start with a digit |
| Notifications.HexDigit | backend/routes/notifications.js:225 | a hexadecimal digit of either case is worth less than 16, and a decimal digit its own value |
| Notifications.LeadingHexDigits | backend/routes/notifications.js:225 | the longest prefix of hexadecimal digits |
| Notifications.Magnitude | backend/routes/notifications.js:225 | after `0x` or `0X` the number is read in base 16, and is missing iff no hexadecimal digit follows; otherwise the decimal reading |
| Notifications.ParseIntJs | backend/routes/notifications.js:225 | `parseInt` with no radix: `NaN` iff no digit follows the whitespace and sign; a negative sign negates the magnitude, and without one the result is never negative |
| Notifications.ParseIntReadsNumber | backend/routes/notifications.js:225 | `parseInt` reads back a written natural number followed by any non-digit, except a zero followed by `x`, which is a hexadecimal prefix |
| Notifications.MinusNegates | backend/routes/notifications.js:225 | a minus sign before a leading digit negates what `parseInt` reads, and does not change whether it reads a number |
| Notifications.SignOfDigits | backend/routes/notifications.js:225 | text starting with a digit has no sign to strip; with a minus before it, it has a negative one |
| Notifications.NotHexPrefix | backend/routes/notifications.js:225 | a written number with a non-digit after it starts with `0x` only when it is zero followed by `x` |
| Notifications.ParseIntReadsHex | backend/routes/notifications.js:225 | `0x10` reads as 16, ` -0XfF` as -255, and `0x` and `0xg` as `NaN` |
| Notifications.DigitValueOfNumber | backend/routes/notifications.js:225 | the digits of a written natural number evaluate to that number |
| Notifications.LeadingDigitsOf | backend/routes/notifications.js:225 | the leading digits of a digit run followed by a non-digit are that run |
| Notifications.HistoryRoute | backend/routes/notifications.js:222-238 | answers 200 with an empty history for `anonymous`; the limit is 10 when absent and `parseInt` of the query otherwise, so `0x10` asks for 16 |
| UserModel.WithoutPassword | backend/models/User.js:77-135 | the public view keeps the id, email and active flag and drops the password |
| UserModel.FirstMatch | backend/models/User.js:106-141 | `findIndex`: the first matching index, or -1 exactly when nothing matches |
| UserModel.Find | backend/models/User.js:44-90 | `find`: a stored matching user, and nothing exactly when no user matches |
| UserModel.CreateRefusal | backend/models/User.js:43-55 | the email check comes first; the phone is checked only when truthy; no refusal iff neither is taken |
| UserModel.Merge | backend/models/User.js:112-122 | the spread keeps id, email, creation time and the flag, takes the given name and phone, hashes a truthy password, and stamps `updatedAt` |
| UserModel.ActivePublic | backend/models/User.js:131-136 | the listing is no longer than the store and every entry is active |
| UserModel.CreateKeepsUnique | backend/models/User.js:40-79 | an accepted create keeps emails and phones unique |
| UserModel.DeactivatedIsHidden | backend/models/User.js:84-152 | after a soft delete the user is no longer found by id, by email or in the listing |
| UserModel.ActivePublicExactlyActive | backend/models/User.js:131-136 | the listing holds the public view of every active user and of no one else |
| UserModel.UpdateCanDuplicatePhone | backend/models/User.js:104-128 | `update` does not check phone uniqueness: a concrete store with unique phones loses that property after one update |
| UserModel.UserStore.constructor | backend/models/User.js:9 | the store starts with the given file |
| UserModel.UserStore.Create | backend/models/User.js:40-79 | a taken email or phone throws its message and writes nothing; otherwise exactly the new user is appended and its public view returned |
| UserModel.UserStore.FindByEmail | backend/models/User.js:82-85 | the first active user with that email, none iff there is none |
| UserModel.UserStore.FindById | backend/models/User.js:88-96 | the public view of an active user with that id, none iff there is none |
| UserModel.UserStore.Update | backend/models/User.js:104-128 | an unknown id throws `Usuario no encontrado` and writes nothing; otherwise exactly the first user with the id is replaced by the merge |
| UserModel.UserStore.FindAll | backend/models/User.js:131-136 | the active users' public views |
| UserModel.UserStore.Deactivate | backend/models/User.js:139-152 | an unknown id throws and writes nothing; otherwise only that user's flag and time change |
| AuthController.ValidEmailIffShape | backend/controllers/authController.js:32 | the controller's email check holds iff the string is local part, `@`, domain, `.`, suffix, none empty and none holding whitespace or `@` |
| AuthController.RegisterRefusal | backend/controllers/authController.js:24-54 | accepts iff the three fields are present, the email is valid, a given phone is valid and the password has 6 characters; the first failing guard decides the message |
| AuthController.StoreFailure | backend/controllers/authController.js:70-84 | a message holding `ya está registrado` answers 409 with it; anything else answers 500 |
| AuthController.Register | backend/controllers/authController.js:19-85 | a refused body answers 400 and writes nothing; a taken email or phone answers through `StoreFailure` and writes nothing; otherwise the file holds the old users followed by the new one, and the answer is 201 with the new user's public view and its token |
| AuthController.EmailTakenIsConflict | backend/controllers/authController.js:73-78 | a duplicate email answers 409; see also backend/models/User.js:46 |
| AuthController.PhoneTakenIsConflict | backend/controllers/authController.js:73-78 | a duplicate phone answers 409; see also backend/models/User.js:53 |
| AuthController.Login | backend/controllers/authController.js:88-139 | missing fields answer 400; no active user or a wrong password answers 401; otherwise 200 with the public view and the token for the user's id |
| AuthController.ProfileUpdate | backend/controllers/authController.js:163-183 | an invalid truthy phone or nothing to change answers 400; otherwise the update holds exactly the truthy fields and never a password |
| AuthController.UpdateProfile | backend/controllers/authController.js:161-209 | a refused update answers 400, an unknown user 500, both writing nothing; otherwise the merge is stored and returned; never 409 |
| AuthController.NotFoundIsNotConflict | backend/controllers/authController.js:197-207 | the only error `update` throws answers 500; see also backend/models/User.js:109 |
| AuthController.ChangePassword | backend/controllers/authController.js:212-260 | every answer but 200 leaves the file unchanged; missing or short passwords answer 400; no active user with the email answers 500; 401 iff the current password does not match that user's; no record with the id answers 500; otherwise, and only then, 200 with the record rewritten with the new password merged in |
| AuthController.ChangedPasswordMatches | backend/controllers/authController.js:244-248 | after the change the new password matches the stored hash, and id, email, name, phone and status are kept, with the update time set; see also backend/models/User.js:104-122 |
| ErrorHandler.FallbackStatus | backend/middleware/errorHandler.js:56 | a present non-zero status code is kept; a missing or zero one becomes 500 |
| ErrorHandler.DuplicateKeyText | backend/middleware/errorHandler.js:39-42 | the first duplicated field followed by ` ya existe`, `undefined` when there is none |
| ErrorHandler.Handle | backend/middleware/errorHandler.js:1-61 | validation errors answer 400 with their messages, token errors 401, cast errors and duplicate keys 400, connection errors 503 with the retry hint as a text `details`, anything else its own status and message or the defaults, with the error's stack exactly in development |
| ErrorHandler.StackOnlyInDevelopment | backend/middleware/errorHandler.js:55-60 | outside development no reply carries a stack, and the environment changes nothing else in the reply |
| ErrorHandler.NameBeatsCode | backend/middleware/errorHandler.js:5-35 | an error named as a validation, token or cast error answers 400 or 401 whatever its code, and 401 exactly for the token errors |
| ErrorHandler.StatusClassification | backend/middleware/errorHandler.js:5-60 | 503 iff no name test or duplicate-key test matches and the code is a connection code or the fallback status is 503; without a status code the answer is 400, 401, 500 or 503 |
| AuthService.FrontValidMeaning | frontend/src/services/authService.js:66-70 | after removing whitespace the phone is valid iff it is `9` and eight digits, optionally behind `+51` |
| AuthService.ErasedPatterns | frontend/src/services/authService.js:68 | both alternatives of the pattern without their optional space |
| AuthService.WhitespaceDoesNotMatter | frontend/src/services/authService.js:69 | inserting a whitespace character anywhere never changes the verdict |
| AuthService.Display | frontend/src/services/authService.js:76-78 | the display form of nine digits is fifteen characters |
| AuthService.FormatPeruvianPhone | frontend/src/services/authService.js:73-81 | eleven digits starting `51` or nine starting `9` give the display form of the mobile digits; any digits starting `51` or `9` give a `+51 ` prefix; anything else is returned unchanged |
| AuthService.DigitsIgnoreSpaces | frontend/src/services/authService.js:69-74 | removing whitespace before taking the digits changes nothing |
| AuthService.DigitsOfGroups | frontend/src/services/authService.js:74-78 | the digits of three space-separated digit groups are the groups joined |
| AuthService.DigitsSkipSpace | frontend/src/services/authService.js:74 | taking digits skips a space and distributes over concatenation |
| AuthService.DisplayDigits | frontend/src/services/authService.js:74-76 | the digits of a display form are `51` and the mobile digits |
| AuthService.AcceptedDigits | frontend/src/services/authService.js:66-74 | a valid phone's digits are its nine mobile digits, with or without `51` in front |
| AuthService.FormatAccepted | frontend/src/services/authService.js:66-81 | a valid phone formats to the display form of its mobile digits |
| AuthService.FormattedIsBackendValid | frontend/src/services/authService.js:73-81 | every phone the frontend accepts formats to one the backend accepts; see also backend/services/smsService.js:23-26 |
| AuthService.FormatIdempotent | frontend/src/services/authService.js:73-81 | formatting a valid phone twice is formatting it once |
| AuthService.BackendValidIsFrontValid | frontend/src/services/authService.js:66-70 | every phone the backend accepts the frontend accepts too; see also backend/services/smsService.js:23-26 |
| PestRoutes.LookupPest | backend/routes/pest.js:177-315 | `PEST_DATA.pests[key]`: the entry with that key, none iff the table has no such key |
| PestRoutes.Score | backend/routes/pest.js:180-205 | the probability lies in [0.3, 0.95]; all three of temperature, humidity and history favourable reach the cap; nothing favourable stays at the base; a favourable temperature gives at least 0.6 and an unfavourable one at most 0.75 |
| PestRoutes.Level | backend/routes/pest.js:211 | `alto` iff above 0.7, `medio` iff in (0.4, 0.7], `bajo` iff at most 0.4 |
| PestRoutes.AssessOne | backend/routes/pest.js:176-212 | the assessed pest keeps its key and name, its percentage lies in [30, 95] and its level is that of its score |
| PestRoutes.AssessAll | backend/routes/pest.js:174-213 | no more pests than the table, each the assessment of a table pest that affects the crop |
| PestRoutes.AffectedPestsAreAssessed | backend/routes/pest.js:174-213 | every table pest that affects the crop is assessed |
| PestRoutes.OverallAlertLevel | backend/routes/pest.js:435-439 | `alto` iff some pest is high, `medio` iff none is high and some is medium, `bajo` iff all are low |
| PestRoutes.HighRiskNames | backend/routes/pest.js:416 | empty exactly when no pest is high |
| PestRoutes.PestRecommendations | backend/routes/pest.js:413-433 | one or two recommendations ending with the preventive one; the first is urgent iff some pest is high, and then names the high ones |
| PestRoutes.UrgentIffOverallAlto | backend/routes/pest.js:413-439 | the urgent recommendation appears iff the overall alert level is `alto` |
| PestRoutes.Assess | backend/routes/pest.js:155-243 | rejected iff the crop is missing; the region defaults to `sierra`; the pests are the assessments, sorted by probability and as a permutation; level and recommendations follow the sorted list |
| PestRoutes.MatchedSymptoms | backend/routes/pest.js:268-273 | the queried symptoms related to some known symptom, in query order |
| PestRoutes.Confidence | backend/routes/pest.js:276-282 | the rounded percentage of matched symptoms over the larger of the two counts lies in [0, 100], and is 100 when every queried symptom matches and the pest has no more symptoms than were queried |
| PestRoutes.MatchOf | backend/routes/pest.js:259-286 | a pest matches iff the crop filter allows it and some queried symptom relates to one of its own; a match carries its key, at least one matched symptom and a confidence in [0, 100] |
| PestRoutes.Matches | backend/routes/pest.js:257-287 | no more matches than pests |
| PestRoutes.MatchesAreMatchOf | backend/routes/pest.js:257-287 | every match is the match of some table pest |
| PestRoutes.CollectMatches | backend/routes/pest.js:257-287 | the `forEach` loop collects exactly the matches, in table order |
| PestRoutes.Identify | backend/routes/pest.js:245-307 | rejected iff the symptoms are missing or empty; otherwise the first five of the matches sorted by confidence, and `found` iff any matched |
| PestRoutes.FilterTreatments | backend/routes/pest.js:325-340 | the treatments the method filter and the budget filter both allow, and only those |
| PestRoutes.FilterTreatmentsConcat | backend/routes/pest.js:329-339 | the filter keeps the table's order: filtering a concatenation is concatenating the filtered parts |
| PestRoutes.TreatmentMethods | backend/routes/pest.js:472 | each treatment has four general methods |
| PestRoutes.Combination | backend/routes/pest.js:459-471 | a specific pair of methods exists iff the pest is `gusano_cogollero` or `polilla_papa` and the treatment is biological, cultural or chemical |
| PestRoutes.SpecificMethods | backend/routes/pest.js:458-473 | the specific pair when there is one, else the treatment's general methods |
| PestRoutes.Detail | backend/routes/pest.js:342-491 | the detailed treatment keeps the treatment, carries its specific methods, the fixed four-phase timeline, its effectiveness as a percentage, 3-5 days to results iff the pest is critical, and the 2-4 week duration |
| PestRoutes.DetailAll | backend/routes/pest.js:342-347 | one detail per filtered treatment, in order |
| PestRoutes.TreatmentsRoute | backend/routes/pest.js:310-368 | 404 iff the pest is unknown; otherwise the pest's key and name and exactly the filtered treatments of the table, in table order, each detailed for that pest |
| PestRoutes.MonitoringFrequency | backend/routes/pest.js:502-506 | daily iff more than two past infestations, twice a week for potato otherwise, else weekly |
| IrrigationRoutes.LookupCrop | backend/routes/irrigation.js:8-110 | every known crop has a positive water need and a non-empty list of stages, each of positive length |
| IrrigationRoutes.LookupSystem | backend/routes/irrigation.js:41-120 | every known system has an efficiency in (0, 0.9] and a positive cost; only gravity irrigation has no labour reduction and an efficiency of 0.45 |
| IrrigationRoutes.LookupRetention | backend/routes/irrigation.js:71-121 | every known soil retains a fraction strictly between 0 and 1 |
| IrrigationRoutes.Compute | backend/routes/irrigation.js:131-146 | the adjusted need and both water uses are positive; the payback is infinite exactly when the annual savings are zero |
| IrrigationRoutes.SavingsPercent | backend/routes/irrigation.js:135-138 | the savings percentage simplifies to one minus the ratio of the efficiencies |
| IrrigationRoutes.ComputedFigures | backend/routes/irrigation.js:131-146 | the adjusted need is need x area x (1 + retention); each use times its efficiency is that need; the percentage is (1 - current/new efficiency) x 100, positive iff the new system is more efficient; a finite payback times the savings is the system cost |
| IrrigationRoutes.SubOverSelf | backend/routes/irrigation.js:138 | (u - v)/u = 1 - v/u |
| IrrigationRoutes.RatioOfQuotients | backend/routes/irrigation.js:135-138 | (a/n)/(a/c) = c/n |
| IrrigationRoutes.BelowOne | backend/routes/irrigation.js:138 | c/n < 1 iff c < n |
| IrrigationRoutes.BothGravityNeverPaysBack | backend/routes/irrigation.js:137-146 | replacing gravity with gravity saves nothing, so the payback is infinite |
| IrrigationRoutes.IrrigationRecommendations | backend/routes/irrigation.js:333-389 | at most five tips |
| IrrigationRoutes.RecommendationsSelected | backend/routes/irrigation.js:333-389 | each tip appears iff its condition holds: excellent savings above 30 %, good ones in (15, 30], quick return under 3 years, financing over 5, potato with drip, sandy soil without drip, and a phased rollout, last, above 5 ha |
| IrrigationRoutes.Calculate | backend/routes/irrigation.js:84-215 | each refusal iff its condition: missing or empty crop, area or system; then a non-positive area; then an unknown crop; then an unknown system, current system (default gravity) or soil (default loam); a result iff all pass, whose every figure is the rounded figure of the computation on the looked-up tables (base, adjusted, current and new use, saving, percentage, efficiency x 100, cost, water and labour savings, annual savings, payback), with one stage need per crop stage and the tips of those figures |
| IrrigationRoutes.StageNeeds | backend/routes/irrigation.js:159-163 | one chart value per crop stage, in stage order, each that stage's need |
| IrrigationRoutes.CalculatedSavings | backend/routes/irrigation.js:131-146 | every complete body with known tables gets a result, whose displayed saving is the rounded (1 - current efficiency / new efficiency) x 100, whatever the crop, soil and area |
| IrrigationRoutes.StageRecommendations | backend/routes/irrigation.js:392-404 | at least one tip; an unknown stage gets the standard-protocol tip |
| IrrigationRoutes.DailyWater | backend/routes/irrigation.js:294-303 | a daily amount exists iff the area was given |
| IrrigationRoutes.ScheduleOf | backend/routes/irrigation.js:288-307 | the first n entries of the schedule, entry k starting after the days of the stages before it |
| IrrigationRoutes.TimedContiguous | backend/routes/irrigation.js:291-306 | entries timed by the stage lengths are contiguous: each starts where the previous one ends |
| IrrigationRoutes.SumDaysOfStages | backend/routes/irrigation.js:310 | the days of the entries add up to the days of the stages they follow |
| IrrigationRoutes.ScheduleOfShape | backend/routes/irrigation.js:288-310 | the full schedule is contiguous from the planting date, its total duration is the stages' total and the last entry ends that many days after planting; each entry keeps its stage's name, length and water factor, the system's frequency and the stage's recommendations |
| IrrigationRoutes.ChainStages | backend/routes/irrigation.js:288-307 | the loop produces exactly the schedule of all stages |
| IrrigationRoutes.Schedule | backend/routes/irrigation.js:265-329 | missing fields or an unknown crop or system are refused; an unparseable date fails iff the rest is accepted; a schedule is answered exactly when the fields are present, crop and system are known and the date parses, and it is the schedule of the crop's stages from the planting date, each entry with its water factor and stage recommendations, every two days for systems above 80 % efficiency, with its total duration |
| ProductionRoutes.LookupCrop | backend/routes/production.js:8-210 | every known crop lists at least two varieties, each with a positive yield |
| ProductionRoutes.SuitableVarieties | backend/routes/production.js:219-224 | a missing or zero altitude keeps every variety; otherwise exactly the varieties whose altitude range holds it |
| ProductionRoutes.SuitableVarietiesConcat | backend/routes/production.js:219-224 | the filter keeps the varieties' order: filtering a concatenation is concatenating the filtered parts |
| ProductionRoutes.ListedVarieties | backend/routes/production.js:251 | a prefix of at most three of the suitable varieties, all of them when there are no more than three |
| ProductionRoutes.PlantingCalendar | backend/routes/production.js:244-248 | the coast and jungle calendars when the crop has them, otherwise the highland one |
| ProductionRoutes.BarleyAlwaysSierra | backend/routes/production.js:90-248 | barley has only a highland calendar, whatever the region |
| ProductionRoutes.VarietySuitability | backend/routes/production.js:579-582 | `alta` iff a variety resists more than two threats |
| ProductionRoutes.Yields | backend/routes/production.js:398 | the yields of the varieties, in order |
| ProductionRoutes.MeanYield | backend/routes/production.js:398-529 | a mean exists iff there are varieties, and then the mean times their count is the total yield |
| ProductionRoutes.PriceOf | backend/routes/production.js:405-406 | every price is positive |
| ProductionRoutes.PriceAsWritten | backend/routes/production.js:406 | the price is looked up by the lower-cased display name |
| ProductionRoutes.MaizePriceAsWritten | backend/routes/production.js:12-406 | the maize display name `Maíz` misses the `maiz` price key, so maize is priced at the 1.0 fallback instead of 1.2 |
| ProductionRoutes.OtherPricesAsWritten | backend/routes/production.js:405-406 | potato and barley find their prices by display name |
| ProductionRoutes.ProjectionAt | backend/routes/production.js:397-415 | yield, production and revenue exist iff there are varieties; the margin is 25; the break-even is area x 2000 / price; the yield is the mean yield scaled by the budget |
| ProductionRoutes.ProjectionsAsWritten | backend/routes/production.js:397-415 | the projections priced by display name |
| ProductionRoutes.Projections | backend/routes/production.js:397-415 | the projections priced by the crop key |
| ProductionRoutes.MaizeBreakEven | backend/routes/production.js:405-411 | with the key the maize break-even divides by 1.2; as written it divides by 1.0 |
| ProductionRoutes.BaseCosts | backend/routes/production.js:434-440 | a crop outside potato and barley gets maize's cost items |
| ProductionRoutes.Costs | backend/routes/production.js:432-456 | the cost per hectare is the rounded item total scaled by the budget, at least 2100; the total is the rounded cost per hectare times the area, equal to the per-hectare cost on one hectare |
| ProductionRoutes.CostBreakdownAddsUp | backend/routes/production.js:443-453 | the rounded breakdown items add up to the rounded cost per hectare, give or take 2 |
| ProductionRoutes.CostsGrowWithBudget | backend/routes/production.js:432-456 | the per-hectare cost does not fall from low to medium to high budget |
| ProductionRoutes.RoundMonotone | backend/routes/production.js:446 | `Math.round` keeps order |
| ProductionRoutes.AssessRisks | backend/routes/production.js:480-493 | an unknown crop has empty lists; otherwise high, medium and low concatenate to the crop's risk list, at most one high and one medium, and a medium only after a high |
| ProductionRoutes.SpecificRecommendations | backend/routes/production.js:495-521 | training advice iff a beginner, budget advice iff a low budget, the general advice last and once, and training first when present |
| ProductionRoutes.MonthFromWeek | backend/routes/production.js:602-605 | weeks 1 to 20 fall in month (week - 1) div 4 + 1; any other week is `Mes 5+` |
| ProductionRoutes.MonthFromWeekOrdered | backend/routes/production.js:602-605 | later weeks never fall in earlier months, and two weeks share a label iff they share a four-week block |
| ProductionRoutes.Recommend | backend/routes/production.js:190-269 | with the price looked up by the crop key, as corrected in the Findings table: a missing crop or a missing or zero area is refused, an unknown crop too, and every other body gets a recommendation; it carries the crop's display name, the region (default `sierra`), the area, at most three suitable varieties, the regional calendar, the projections, costs and risks of the crop and the advice for the experience and budget, with their defaults |
| ProductionRoutes.RecommendAsWrittenExceptMaize | backend/routes/production.js:405-406 | for potato and barley the projections of a recommendation are those of the code as written; only maize differs |
| ProductionRoutes.Keys | backend/routes/production.js:532-537 | the crop keys of a plan, in order |
| ProductionRoutes.Candidates | backend/routes/production.js:525-538 | the known crops of the request, each scored by its positive mean yield with no area yet; the keys are exactly the known requested crops; a non-empty plan has a positive total score |
| ProductionRoutes.PositiveMean | backend/routes/production.js:529 | positive yields have a positive mean |
| ProductionRoutes.PositiveSum | backend/routes/production.js:541 | a non-empty sum of positives is positive |
| ProductionRoutes.Scores | backend/routes/production.js:541 | the scores of a plan, in order |
| ProductionRoutes.OptimizeCropMix | backend/routes/production.js:523-547 | every candidate gets its share of the total area, score over total score, rounded to two decimals |
| ProductionRoutes.Shares | backend/routes/production.js:542-544 | one unrounded share per score |
| ProductionRoutes.SharesSumToTotal | backend/routes/production.js:541-544 | before rounding, the shares add up to the total area |
| ProductionRoutes.ScaledSum | backend/routes/production.js:541-544 | the shares add up to the scores' sum over the total score, times the area |
| ProductionRoutes.Optimize | backend/routes/production.js:308-345 | refused iff the area is missing or zero or the crop list is missing or empty; otherwise the plan of the known requested crops, in order, each given its share of the total area, score over total score, rounded to two decimals |
| SolarRoutes.SiteOf | backend/routes/solar.js:50 | the first entry with the key, or the fallback when no entry has it |
| SolarRoutes.PanelOf | backend/routes/solar.js:19-53 | every panel has positive efficiency, cost and lifespan; an unknown type falls back to monocrystalline |
| SolarRoutes.Tariff | backend/routes/solar.js:24-56 | every tariff is positive; an unknown rate falls back to the residential 0.22 |
| SolarRoutes.LocationsArePositive | backend/routes/solar.js:9-18 | every location has positive irradiation and efficiency |
| SolarRoutes.Figures | backend/routes/solar.js:59-71 | 200 W per square metre scaled by the panel efficiency; daily generation from irradiation and site efficiency, monthly and annual generation over 30 and 365 days; cost by the cost per watt, savings by the tariff, total savings over the lifespan; savings and cost are positive and the payback times the annual savings is the cost |
| SolarRoutes.Positive3 | backend/routes/solar.js:61 | products of positives are positive |
| SolarRoutes.PaybackAndRoiIgnoreArea | backend/routes/solar.js:59-71 | the payback is the cost per watt over the saving per watt, and the ROI follows from the lifespan and the payback alone, so neither depends on the area |
| SolarRoutes.SolarRecommendations | backend/routes/solar.js:189-245 | exactly one payback verdict, first (excellent below 5 years, good below 8, otherwise optimise); the ROI tip iff above 200 %; the expansion tip iff under 10 m²; the excess tip iff a non-zero consumption is exceeded by 20 %; the upgrade tip iff amorphous panels |
| SolarRoutes.Calculate | backend/routes/solar.js:32-137 | refused iff the area is missing or not positive; otherwise every figure of the reply (panel and system power to the watt, daily, monthly and annual generation, cost, monthly, annual and total savings, payback and ROI to the cent) is the rounded figure computed for the defaulted inputs, with the tips of the unrounded ones |
| SolarRoutes.SitePositive | backend/routes/solar.js:9-50 | a lookup in a table of positive sites with a positive fallback is positive |
| SolarRoutes.LocationIgnoresCase | backend/routes/solar.js:50 | locations that differ only in letter case give the same inputs |
| SolarRoutes.Capitalize | backend/routes/solar.js:146 | the first letter upper-cased and the rest unchanged |
| SolarRoutes.ListLocations | backend/routes/solar.js:140-162 | every location except `default`, capitalised, with its own data, and nothing else |
| WeatherRoutes.FrostPredict | backend/routes/weather.js:75-118 | an invalid body answers 400 and changes nothing; a failed fetch or feature build answers 500 with its message and changes nothing; a prediction is answered exactly when the body is valid, the features are built and it is not the case of a phone with an empty model result; it carries the built features and meta and the first model result; a phone subscribes it as `Usuario de App` and sends the welcome text as `frost_welcome`, with `smsSent` iff a phone was given; an empty model result with a phone fails |
| WeatherRoutes.RegionOrSierra | backend/routes/weather.js:185 | a known region, otherwise the highlands |
| WeatherRoutes.ActiveAlerts | backend/routes/weather.js:190-209 | no more alerts than risk factors, each of a known type and of the requested severity when one was given |
| WeatherRoutes.CollectAlerts | backend/routes/weather.js:190-209 | the `forEach` loop collects exactly the active alerts, in risk-factor order |
| WeatherRoutes.AlertsRoute | backend/routes/weather.js:181-226 | the region's name, its active alerts, and their count |
| WeatherRoutes.AlertsComeFromRiskFactors | backend/routes/weather.js:190-209 | every alert is the alert of a risk factor of the region that passes the type and severity filter |
| WeatherRoutes.PassingRiskFactorsAlert | backend/routes/weather.js:190-209 | every risk factor that passes the filter produces its alert |
| WeatherRoutes.DayAlerts | backend/routes/weather.js:301-334 | at most three alerts a day |
| WeatherRoutes.ForecastAlerts | backend/routes/weather.js:298-337 | at most three alerts per forecast day |
| WeatherRoutes.GenerateWeatherAlerts | backend/routes/weather.js:298-337 | the loop produces exactly the alerts of every day, in order |
| WeatherRoutes.DayAlertTriggers | backend/routes/weather.js:303-333 | frost iff the minimum is at most 2 °C, heavy rain iff over 15 mm, strong wind iff over 20 km/h, all dated that day |
| WeatherRoutes.ForecastAlertsConcat | backend/routes/weather.js:300-335 | the alerts of two consecutive stretches of days are the alerts of each, joined |
| WeatherRoutes.Trend | backend/routes/weather.js:400-401 | `increasing` iff the recent average is higher, `decreasing` otherwise |
| WeatherRoutes.ClimateAnalysis | backend/routes/weather.js:385-405 | the empty object iff fewer than three months |
| WeatherRoutes.ThreeMonthsIsFlat | backend/routes/weather.js:389-404 | with exactly three months the older average falls back to the recent one: no change and both trends `decreasing` |
| WeatherRoutes.AnalysisMeaning | backend/routes/weather.js:388-404 | with more than three months the changes are the differences of the last three months' averages and the earlier ones', to two decimals, and the trends are their signs |
| ServiceWorker.EventOf | frontend/src/services/serviceWorkerManager.js:7-12 | exactly the four event names `update`, `offline`, `online` and `install` have callback lists |
| ServiceWorker.IndexOf | frontend/src/services/serviceWorkerManager.js:349 | `indexOf`: the first position of the callback, the length exactly when absent |
| ServiceWorker.RemoveFirst | frontend/src/services/serviceWorkerManager.js:349-352 | an absent callback leaves the list unchanged; otherwise only its first occurrence is cut out, so the multiset loses exactly one copy |
| ServiceWorker.OffUndoesOn | frontend/src/services/serviceWorkerManager.js:340-354 | registering a new callback and then removing it restores the list |
| ServiceWorker.PendingOf | frontend/src/services/serviceWorkerManager.js:216-224 | a stored queue is read back; a missing or unparseable entry reads as empty |
| ServiceWorker.WithoutIds | frontend/src/services/serviceWorkerManager.js:332 | the filter keeps exactly the items whose id is not listed, never more |
| ServiceWorker.WithoutIdsConcat | frontend/src/services/serviceWorkerManager.js:332 | the filter distributes over concatenation |
| ServiceWorker.WithoutNoIds | frontend/src/services/serviceWorkerManager.js:332 | filtering by no ids changes nothing |
| ServiceWorker.SuccessfulIds | frontend/src/services/serviceWorkerManager.js:197-270 | the ids of exactly the items whose request was fulfilled |
| ServiceWorker.SyncKeepsFailures | frontend/src/services/serviceWorkerManager.js:184-270 | with distinct ids, an item survives a sync iff its request failed; an item of an unsupported kind always survives |
| ServiceWorker.Manager.Listeners | frontend/src/services/serviceWorkerManager.js:358 | an unknown event has no listeners |
| ServiceWorker.Manager.constructor | frontend/src/services/serviceWorkerManager.js:3-15 | not registered, online as the browser says, the stored queue, four empty callback lists |
| ServiceWorker.Manager.On | frontend/src/services/serviceWorkerManager.js:340-344 | a known event gets the callback appended to its list; an unknown one changes nothing; nothing else changes |
| ServiceWorker.Manager.Off | frontend/src/services/serviceWorkerManager.js:347-354 | a known event loses the first occurrence of the callback; an unknown one changes nothing |
| ServiceWorker.Manager.Notify | frontend/src/services/serviceWorkerManager.js:357-367 | every listener of the event is called once, in order, with the data, and a throwing one does not stop the rest |
| ServiceWorker.Manager.Init | frontend/src/services/serviceWorkerManager.js:18-47 | without support nothing happens; otherwise registration sets the flag and version and the install listeners hear whether it succeeded |
| ServiceWorker.Manager.AddPending | frontend/src/services/serviceWorkerManager.js:227-251 | exactly one item with zero retries is appended to the stored queue, and a sync is scheduled iff online |
| ServiceWorker.Manager.RemovePending | frontend/src/services/serviceWorkerManager.js:329-337 | the stored queue becomes the items without the given ids |
| ServiceWorker.Manager.Sync | frontend/src/services/serviceWorkerManager.js:184-213 | an empty queue is left alone; otherwise the fulfilled items are removed and their number reported |
| ServiceWorker.Manager.GoOnline | frontend/src/services/serviceWorkerManager.js:32-69 | before a successful registration nothing changes and no listener runs; after it, online, the online listeners called in order, then the queue synced |
| ServiceWorker.Manager.GoOffline | frontend/src/services/serviceWorkerManager.js:32-75 | before a successful registration nothing changes; after it, offline and the offline listeners called in order, with the queue untouched |
| ServiceWorker.Manager.HandleMessage | frontend/src/services/serviceWorkerManager.js:32-101 | only after a successful registration, and only for a background-sync message with the sync action, is the queue synced; anything else leaves it alone |
| ServiceWorker.Manager.GetStatus | frontend/src/services/serviceWorkerManager.js:375-382 | the registration flag, connectivity, version and the number of pending items |
| ServiceWorker.AddThenRemove | frontend/src/services/serviceWorkerManager.js:227-337 | adding an item with a fresh id and removing that id restores the queue |
| ServiceWorker.KeepAllOthers | frontend/src/services/serviceWorkerManager.js:332 | removing an id no item has changes nothing |
| ApiService.ErrorMessage | frontend/src/services/apiService.js:28-31 | the server's message when truthy, else the transport's, else `Error desconocido` |
| ApiService.WithFallback | frontend/src/services/apiService.js:36-283 | a reply is served as is; a failure offline gives the offline figures; a failure online rethrows |
| ApiService.SystemMultiplier | frontend/src/services/apiService.js:92-93 | 1.2 for monocrystalline, 1.0 for polycrystalline, 0.8 for anything else |
| ApiService.OfflineAnnualSavings | frontend/src/services/apiService.js:90-96 | 150 kWh per square metre a month, scaled by the panel multiplier, for twelve months at 0.22 |
| ApiService.OfflineMonthlyGeneration | frontend/src/services/apiService.js:91-96 | 150 kWh per square metre scaled by the panel multiplier, and the annual savings are twelve months of it at 0.22 |
| ApiService.OfflineSolarCalculation | frontend/src/services/apiService.js:89-137 | cost 1200 and power 200 per square metre, system power a fifth of it; daily, rounded monthly and annual generation; rounded monthly and annual savings and the 25-year total; no payback and no return on investment exactly when the area is zero (0/0), otherwise cost over savings to one decimal and the 25-year gain over cost as a percentage; the single offline tip |
| ApiService.OfflinePaybackIgnoresArea | frontend/src/services/apiService.js:107-110 | for a non-zero area the offline payback depends only on the panel type |
| ApiService.OfflineRoiIgnoresArea | frontend/src/services/apiService.js:112 | for a non-zero area the offline return on investment depends only on the panel type, 890 % for the default monocristalino |
| ApiService.RoiOfMultiplier | frontend/src/services/apiService.js:112 | the area cancels from the return on investment |
| ApiService.CommonFactor | frontend/src/services/apiService.js:110-112 | a common non-zero factor cancels from a quotient |
| ApiService.OfflineEfficiency | frontend/src/services/apiService.js:217-224 | an efficiency in [0.45, 0.9], 0.75 when no system is given or the system is unknown |
| ApiService.OfflineIrrigationAsWritten | frontend/src/services/apiService.js:213-260 | the offline figures as written: base need 500 per unit of area and the same adjusted need, current use at 0.45, new use at the system's efficiency, the saving, the percentage 1 - efficiency/0.45, efficiency x 100, cost 2500 and labour reduction 1000 per unit of area, water savings at 0.002, their sum as annual savings, and the payback cost over annual savings, absent exactly for a zero area |
| ApiService.OfflinePercentAsWrittenNeverPositive | frontend/src/services/apiService.js:235 | as written the offline savings percentage is never positive, and drip irrigation shows -100 % |
| ApiService.OfflineIrrigationPaybackIgnoresArea | frontend/src/services/apiService.js:239-244 | for a non-zero area the offline payback is 2500 / (1001 - efficiency), whatever the area: 2500/1000.1 for drip |
| ApiService.PaybackOfEfficiency | frontend/src/services/apiService.js:239-244 | the area cancels from the offline payback |
| ApiService.OfflineIrrigationCalculation | frontend/src/services/apiService.js:213-260 | every offline figure as written, with only the percentage replaced by the backend's 1 - 0.45/efficiency; see also backend/routes/irrigation.js:138 |
| ApiService.OfflinePercentMatchesBackend | frontend/src/services/apiService.js:232-235 | the corrected offline percentage is positive iff the system beats gravity's 0.45, and equals (current use - new use) / current use x 100; see also backend/routes/irrigation.js:135-138 |
| ApiService.OfflineTestSms | frontend/src/services/apiService.js:272-279 | an offline test send succeeds with status `offline`, the same phone, and id `offline_<millis>` |
| ApiService.OfflineIdsDistinct | frontend/src/services/apiService.js:275 | offline sends at different instants get different ids |
| LoginPage.LoginError | frontend/src/pages/Login.jsx:81-86 | the login form passes iff email and password are both filled; otherwise the incomplete-fields message |
| LoginPage.RegisterError | frontend/src/pages/Login.jsx:87-109 | the registration form passes iff complete, the two passwords agree, the password has six characters and the phone is valid; the first failing check decides the message |
| LoginPage.FormError | frontend/src/pages/Login.jsx:80-112 | tab 0 checks the login form, any other tab the registration form |
| LoginPage.PrefixPhone | frontend/src/pages/Login.jsx:68-73 | a value starting with `9` and not with `+51` gets `+51 ` in front; any other value is kept |
| LoginPage.PrefixIdempotent | frontend/src/pages/Login.jsx:68-73 | prefixing twice is prefixing once |
| LoginPage.PrefixKeepsValidity | frontend/src/pages/Login.jsx:68-73 | prefixing never changes whether the phone is valid; see also frontend/src/services/authService.js:66-70 |
| LoginPage.RegisterPayload | frontend/src/pages/Login.jsx:130-133 | the registration sent keeps every field and formats the phone |
| LoginPage.ServerBody | frontend/src/pages/Login.jsx:130-134 | every field of the payload arrives at the server; see also backend/controllers/authController.js:21 |
| LoginPage.AcceptedRegistrationMeetsServerGuards | frontend/src/pages/Login.jsx:87-134 | a registration the page lets through can be refused by the server's guards only for its email, and not at all when the email passes the server's pattern; see also backend/controllers/authController.js:24-54 |
| LoginPage.Page.constructor | frontend/src/pages/Login.jsx:28-47 | first tab, not loading, no error, empty forms, nothing sent |
| LoginPage.Page.Validation | frontend/src/pages/Login.jsx:80-112 | the verdict of the form on the current tab |
| LoginPage.Page.HandleTabChange | frontend/src/pages/Login.jsx:49-52 | the tab changes and the error clears; nothing else changes |
| LoginPage.Page.HandleLoginChange | frontend/src/pages/Login.jsx:54-59 | exactly the named login field takes the value |
| LoginPage.Page.HandleRegisterChange | frontend/src/pages/Login.jsx:61-66 | exactly the named registration field takes the value |
| LoginPage.Page.HandlePhoneChange | frontend/src/pages/Login.jsx:68-78 | the phone takes the prefixed value; nothing else changes |
| LoginPage.Page.ValidateForm | frontend/src/pages/Login.jsx:80-112 | true iff the current form passes; otherwise the error is its message |
| LoginPage.Page.Submit | frontend/src/pages/Login.jsx:114-141 | a failing form shows its message and sends nothing; otherwise exactly one login or formatted registration request is sent, loading ends, and the error is the failure's message or empty |
| ProductionPage.CropTypeOf | frontend/src/pages/ProductionRecommendation.jsx:74-125 | exactly the five crop keys have data; each grows at least 120 days with positive yield and price and a proper temperature range |
| ProductionPage.RegionLabel | frontend/src/pages/ProductionRecommendation.jsx:127-131 | exactly costa, sierra and selva have a label |
| ProductionPage.PlantingPeriods | frontend/src/pages/ProductionRecommendation.jsx:217-224 | an unknown region falls back to the coast period; the start month is a real month |
| ProductionPage.YieldModifier | frontend/src/pages/ProductionRecommendation.jsx:226-233 | the table's modifier when listed, otherwise 1.0; always between 0.7 and 1.3 |
| ProductionPage.OptimalRainfall | frontend/src/pages/ProductionRecommendation.jsx:307-316 | an unknown crop gets 400-600 mm; every range lies within 300-800 mm |
| ProductionPage.OptimalSoilPH | frontend/src/pages/ProductionRecommendation.jsx:318-327 | an unknown crop gets pH 6.0-7.0; every range lies within 5.5-8.5 |
| ProductionPage.YieldAddsOverArea | frontend/src/pages/ProductionRecommendation.jsx:168-170 | yield and revenue of two plots together are the sums for each plot |
| ProductionPage.RevenuePositive | frontend/src/pages/ProductionRecommendation.jsx:168-170 | a known crop on a positive area earns a positive revenue |
| ProductionPage.ProfitabilityOf | frontend/src/pages/ProductionRecommendation.jsx:282-290 | costs are 8000 per hectare, profit is revenue less costs, and the margin is the percentage of profit in revenue (undefined for zero revenue) |
| ProductionPage.MarginPositiveIffProfitable | frontend/src/pages/ProductionRecommendation.jsx:282-290 | with positive revenue the margin is positive iff revenue exceeds costs |
| ProductionPage.MarginIgnoresArea | frontend/src/pages/ProductionRecommendation.jsx:168-290 | the margin depends on crop and region only, never on the area |
| ProductionPage.CostShare | frontend/src/pages/ProductionRecommendation.jsx:283-288 | the margin identity behind the area independence |
| ProductionPage.SuggestedDate | frontend/src/pages/ProductionRecommendation.jsx:235-248 | the 15th of the period's first month, next year iff that month has already passed |
| ProductionPage.SuggestedWithinTwelveMonths | frontend/src/pages/ProductionRecommendation.jsx:235-248 | the suggested month is never in the past and less than twelve months ahead |
| ProductionPage.Stages | frontend/src/pages/ProductionRecommendation.jsx:255-265 | nine stages |
| ProductionPage.CropCalendar | frontend/src/pages/ProductionRecommendation.jsx:250-280 | nine activities |
| ProductionPage.GenerateCropCalendar | frontend/src/pages/ProductionRecommendation.jsx:250-280 | the loop builds exactly the calendar of the nine stages |
| ProductionPage.StagePriorities | frontend/src/pages/ProductionRecommendation.jsx:256-275 | of the nine stages, the two fertilisations and the harvest (stages 2, 4 and 8) have high priority and every other stage medium, pre-harvest preparation included because its "cosecha" is lower-case |
| ProductionPage.Mentioned | frontend/src/pages/ProductionRecommendation.jsx:275 | a name ending in "fertilización" or "Cosecha" is of high priority |
| ProductionPage.CalendarPriorities | frontend/src/pages/ProductionRecommendation.jsx:267-277 | the calendar's priorities stage by stage: high for the two fertilisations and the harvest, medium for the rest |
| ProductionPage.Unmentioned | frontend/src/pages/ProductionRecommendation.jsx:275 | a name containing neither word is of medium priority |
| ProductionPage.CalendarChronological | frontend/src/pages/ProductionRecommendation.jsx:255-277 | for a growth period of at least 120 days the activities are in date order, from two weeks before planting to the harvest |
| ProductionPage.FirstListed | frontend/src/pages/ProductionRecommendation.jsx:299-304 | the level of the first list that holds the crop, or none iff no list holds it |
| ProductionPage.AssessRiskLevel | frontend/src/pages/ProductionRecommendation.jsx:292-305 | the colour matches the level; the first listing decides the level; an unlisted crop or unknown region is medium/warning |
| ProductionPage.RiskListsDisjoint | frontend/src/pages/ProductionRecommendation.jsx:293-297 | no crop is listed at two levels in one region, so the iteration order does not matter |
| ProductionPage.SierraRisks | frontend/src/pages/ProductionRecommendation.jsx:295 | hard maize is high risk and potato low risk in the highlands |
| ProductionPage.UnlistedRisks | frontend/src/pages/ProductionRecommendation.jsx:294-304 | barley on the coast and every crop in an unknown region are medium risk |
| ProductionPage.RecommendationFor | frontend/src/pages/ProductionRecommendation.jsx:161-196 | a recommendation exists iff the crop and the region are known |
| ProductionPage.RecommendationFigures | frontend/src/pages/ProductionRecommendation.jsx:161-196 | every figure of the recommendation: labels, area, planting date, harvest date after the growth period, yield, revenue, profitability, risk, calendar and optimal conditions |
| ProductionPage.BuildRecommendation | frontend/src/pages/ProductionRecommendation.jsx:180-196 | the record built is the assembled recommendation |
| ProductionPage.Page.constructor | frontend/src/pages/ProductionRecommendation.jsx:62-71 | the default form, no recommendations, no error, not loading, the stored history |
| ProductionPage.Page.HandleInputChange | frontend/src/pages/ProductionRecommendation.jsx:133-139 | exactly the named field changes and the error clears |
| ProductionPage.Page.CalculateRecommendations | frontend/src/pages/ProductionRecommendation.jsx:148-214 | no crop: the error message only; otherwise the recommendation and a history keeping the last ten saved entries, ending in the new one, or the failure message |
| IrrigationPage.SystemOf | frontend/src/pages/SmartIrrigation.jsx:67-104 | exactly the four systems have data, each with an efficiency strictly between 0 and 1 and a positive cost per m² |
| IrrigationPage.CropOf | frontend/src/pages/SmartIrrigation.jsx:106-111 | exactly the four crops have data, each with a positive water need |
| IrrigationPage.PumpPower | frontend/src/pages/SmartIrrigation.jsx:160 | the pump power is the larger of 1 kW and one kW per 100 m² |
| IrrigationPage.Figures | frontend/src/pages/SmartIrrigation.jsx:142-172 | the labels and area of the request; traditional use is area times need in m³, smart use that times the efficiency, saved water their difference; the percentage is missing exactly when the traditional use is zero; cost per m² times area; payback missing iff nothing is saved and otherwise at least cost over saving; energy generated 0.18 MWh per kW of pump, and its saving 0.2 per kWh |
| IrrigationPage.MonthlySavingsIsSavedWater | frontend/src/pages/SmartIrrigation.jsx:144-156 | the monthly saving is the water saved priced at 3.5 per m³; the annual saving is twelve months of it |
| IrrigationPage.SavingPercent | frontend/src/pages/SmartIrrigation.jsx:147-172 | the water-saving percentage is (1 - efficiency) × 100, whatever the area and crop |
| IrrigationPage.DivMul | frontend/src/pages/SmartIrrigation.jsx:151-153 | dividing by a non-zero number and multiplying back gives the original |
| IrrigationPage.FractionSaved | frontend/src/pages/SmartIrrigation.jsx:148-172 | the saved fraction of a non-zero use is 1 - efficiency |
| IrrigationPage.RatioIgnoresScale | frontend/src/pages/SmartIrrigation.jsx:155-157 | a common non-zero factor cancels in a ratio |
| IrrigationPage.SavingFallsWithEfficiency | frontend/src/pages/SmartIrrigation.jsx:147-172 | a more efficient system is reported as saving less water, both in percent and in m³ |
| IrrigationPage.PaybackIgnoresArea | frontend/src/pages/SmartIrrigation.jsx:155-157 | the payback period exists and is the same for every positive area |
| IrrigationPage.PaybackPerM2 | frontend/src/pages/SmartIrrigation.jsx:155-157 | the payback period is the rounded-up ratio of cost per m² to yearly saving per m² |
| IrrigationPage.YearlyPositive | frontend/src/pages/SmartIrrigation.jsx:147-156 | a crop that needs water and a system below full efficiency save a positive amount per m² each year |
| IrrigationPage.PaybackScaled | frontend/src/pages/SmartIrrigation.jsx:157 | scaling cost and saving by the same positive factor leaves the payback unchanged |
| IrrigationPage.PaybackOfFigures | frontend/src/pages/SmartIrrigation.jsx:155-157 | the payback is computed from the area's system cost and annual saving |
| IrrigationPage.AnnualScales | frontend/src/pages/SmartIrrigation.jsx:147-156 | the annual saving is the area times the yearly saving per m² |
| IrrigationPage.EnergySavingsOfPump | frontend/src/pages/SmartIrrigation.jsx:160-163 | the energy saving is 36 per kW of pump power, never below 36, and the generated energy is 0.18 MWh per kW |
| IrrigationPage.ResultFor | frontend/src/pages/SmartIrrigation.jsx:142-180 | a result exists iff the system and the crop are known, and it is then the figures for the area, system and crop |
| IrrigationPage.Page.constructor | frontend/src/pages/SmartIrrigation.jsx:56-64 | the default form (100 m², no system, maize, clay soil), no results, no error, not loading, the stored history |
| IrrigationPage.Page.HandleInputChange | frontend/src/pages/SmartIrrigation.jsx:113-120 | exactly the named field changes and the error clears |
| IrrigationPage.Page.HandleAreaChange | frontend/src/pages/SmartIrrigation.jsx:122-127 | only the area changes; the error is kept |
| IrrigationPage.Page.CalculateIrrigation | frontend/src/pages/SmartIrrigation.jsx:129-198 | no system: the error message only; otherwise the results and a history keeping the last ten saved entries, ending in the new one, or the failure message |
| PestPage.CommonPests | frontend/src/pages/PestPrevention.jsx:72-246 | an unknown crop has no pests; each known crop lists three |
| PestPage.PestOf | frontend/src/pages/PestPrevention.jsx:92-153 | exactly the six database pests have data |
| PestPage.SeasonalFactor | frontend/src/pages/PestPrevention.jsx:286-293 | the seasonal factor exists iff the season and the pest are in the table, and lies between 0.3 and 0.8 |
| PestPage.BaseProbability | frontend/src/pages/PestPrevention.jsx:293 | the seasonal factor when listed, otherwise 0.5 |
| PestPage.Clamp01 | frontend/src/pages/PestPrevention.jsx:296 | the value clamped to [0, 1]: kept inside, 0 below, 1 above |
| PestPage.Probability | frontend/src/pages/PestPrevention.jsx:284-297 | the probability always lies in [0, 1] |
| PestPage.ClampNeverBinds | frontend/src/pages/PestPrevention.jsx:293-296 | for a variation in [-0.15, 0.15) the clamp never binds: the probability is base plus variation, within [0.15, 0.95) |
| PestPage.RiskLevelOf | frontend/src/pages/PestPrevention.jsx:264 | high iff above 0.7, medium iff above 0.5 and at most 0.7, low iff at most 0.5 |
| PestPage.OrganicTreatment | frontend/src/pages/PestPrevention.jsx:157-273 | four organic treatments iff the pest is one of the three treated ones, otherwise none |
| PestPage.ChemicalTreatment | frontend/src/pages/PestPrevention.jsx:177-274 | four chemical treatments iff the pest is one of the three treated ones, otherwise none |
| PestPage.PreventiveMeasures | frontend/src/pages/PestPrevention.jsx:299-322 | four preventive measures iff the pest is one of the three treated ones, otherwise none |
| PestPage.OptimalTiming | frontend/src/pages/PestPrevention.jsx:324-341 | the default advice unless a treated pest in summer or winter |
| PestPage.AlertFor | frontend/src/pages/PestPrevention.jsx:258-267 | the alert names the pest, carries its probability and the matching risk level |
| PestPage.RecommendationFor | frontend/src/pages/PestPrevention.jsx:270-277 | the recommendation names the pest and carries its treatments, measures and timing |
| PestPage.AlertsPairWithRecommendations | frontend/src/pages/PestPrevention.jsx:250-279 | alerts and recommendations are equally many, no more than the pests, and the i-th of each is about the same pest |
| PestPage.AlertsAreRaised | frontend/src/pages/PestPrevention.jsx:250-268 | every alert is for a listed database pest more likely than 0.3, and is that pest's alert |
| PestPage.RaisedPestsAlerted | frontend/src/pages/PestPrevention.jsx:250-268 | every listed database pest more likely than 0.3 is alerted |
| PestPage.AlertsConcat | frontend/src/pages/PestPrevention.jsx:250-279 | predictions for two lists are the predictions for each, in order |
| PestPage.UnknownCropQuiet | frontend/src/pages/PestPrevention.jsx:246 | an unknown crop yields no alerts and no recommendations |
| PestPage.UnknownPestsQuiet | frontend/src/pages/PestPrevention.jsx:251-252 | pests missing from the database yield nothing |
| PestPage.BarleyNeverAlerted | frontend/src/pages/PestPrevention.jsx:81-153 | barley's pests are not in the database, so barley never gets an alert |
| PestPage.GeneratePestPredictions | frontend/src/pages/PestPrevention.jsx:245-282 | the loop builds exactly the alerts and recommendations of the crop's pests |
| PestPage.Page.constructor | frontend/src/pages/PestPrevention.jsx:63-69 | maize in summer, no alerts, no recommendations, no update time, not loading, the stored cache |
| PestPage.Page.HandleCropChange | frontend/src/pages/PestPrevention.jsx:343-345 | only the crop changes |
| PestPage.Page.HandleSeasonChange | frontend/src/pages/PestPrevention.jsx:347-349 | only the season changes |
| PestPage.Page.LoadPestData | frontend/src/pages/PestPrevention.jsx:203-243 | online: fresh predictions, the update time and a new cache; offline with a cache: the cached data and its time; offline without: fresh predictions and no cache written |
| AgroclimaticPage.AlertId | frontend/src/pages/AgroclimaticAssistance.jsx:169-185 | the id is the kind's prefix followed by the day's digit |
| AgroclimaticPage.AlertIdInjective | frontend/src/pages/AgroclimaticAssistance.jsx:169-185 | two alerts share an id only when they share kind and day |
| AgroclimaticPage.AlertOf | frontend/src/pages/AgroclimaticAssistance.jsx:166-197 | the alert carries its kind, day, id and date, and the minimum temperature for frost or the precipitation for drought |
| AgroclimaticPage.DayAlerts | frontend/src/pages/AgroclimaticAssistance.jsx:166-197 | a day raises at most two alerts, all for that day, frost before drought |
| AgroclimaticPage.FirstDays | frontend/src/pages/AgroclimaticAssistance.jsx:166 | the first three days, or all of a shorter forecast |
| AgroclimaticPage.LaterDaysIgnored | frontend/src/pages/AgroclimaticAssistance.jsx:166 | days after the third never change the alerts |
| AgroclimaticPage.AlertsSound | frontend/src/pages/AgroclimaticAssistance.jsx:166-197 | every alert is for a listed day whose readings raise it, and is that day's alert |
| AgroclimaticPage.AlertsComplete | frontend/src/pages/AgroclimaticAssistance.jsx:166-197 | every raised condition on a listed day yields its alert |
| AgroclimaticPage.AlertsOfDay | frontend/src/pages/AgroclimaticAssistance.jsx:163-201 | within the first three days a day's alert of a kind is present iff its condition (frost risk above 0.6; drought risk above 0.5 with under 2 mm of rain) holds |
| AgroclimaticPage.AlertDaysBounded | frontend/src/pages/AgroclimaticAssistance.jsx:166-197 | every alert's day lies within the days examined |
| AgroclimaticPage.AlertsOrdered | frontend/src/pages/AgroclimaticAssistance.jsx:166-197 | alerts come in day order, frost before drought on the same day |
| AgroclimaticPage.OrderedConcat | frontend/src/pages/AgroclimaticAssistance.jsx:166-197 | appending a later day's alerts keeps the order |
| AgroclimaticPage.AtMostTwoPerDay | frontend/src/pages/AgroclimaticAssistance.jsx:166-197 | no more than two alerts per day examined |
| AgroclimaticPage.AlertIdsUnique | frontend/src/pages/AgroclimaticAssistance.jsx:163-201 | no two alerts share an id |
| AgroclimaticPage.AtMostSixAlerts | frontend/src/pages/AgroclimaticAssistance.jsx:163-201 | at most six alerts, all within the first three days |
| AgroclimaticPage.GenerateWeatherAlerts | frontend/src/pages/AgroclimaticAssistance.jsx:163-201 | the loop builds exactly the alerts of the forecast |
| AgroclimaticPage.RiskLevel | frontend/src/pages/AgroclimaticAssistance.jsx:288-292 | high iff above 0.7, medium iff above 0.4 and at most 0.7, low iff at most 0.4 |
| AgroclimaticPage.RiskLevelMonotone | frontend/src/pages/AgroclimaticAssistance.jsx:288-292 | a higher risk never gets a lower band |
| AgroclimaticPage.Page.constructor | frontend/src/pages/AgroclimaticAssistance.jsx:58-63 | Lima, no data, no alerts, no update time, not loading, the stored cache |
| AgroclimaticPage.Page.HandleLocationChange | frontend/src/pages/AgroclimaticAssistance.jsx:203-205 | only the location changes |
| AgroclimaticPage.Page.LoadWeatherData | frontend/src/pages/AgroclimaticAssistance.jsx:78-122 | online: the generated data, its alerts, the update time and a new cache; offline with a cache for this location: the cached data; otherwise the generated data and its alerts, cache untouched |

## Left out

**Throughout the model**
- Network, file-system and localStorage input/output: the stores and caches are datatype values or class fields. A failed read of the users or subscribers file is an explicit unreadable state. The page caches are held as parsed values. A corrupt cache makes `JSON.parse` throw in the source, and this is not modelled. On the production page this shows the error message (frontend/src/pages/ProductionRecommendation.jsx:198-209). On the irrigation page it shows the results beside an error (frontend/src/pages/SmartIrrigation.jsx:185). The pest and agroclimatic loaders log it and keep their old state (frontend/src/pages/PestPrevention.jsx:228, frontend/src/pages/AgroclimaticAssistance.jsx:100).
- Floating point: figures are exact reals, and `toFixed` and other real-to-string formatting are not modelled. Integer formatting is modelled.
- `sin`, `cos` and `sqrt` are uninterpreted function parameters, because Dafny has no real transcendental functions.
- Dates are integer day or hour numbers; calendar conversion is passed in as a function.
- `Math.random` is a noise parameter, so the random branches are modelled for every value the noise may take.
- JSON values other than strings, numbers and lists are not modelled. JavaScript prototype keys such as `__proto__`, used as table keys, are not modelled either.
- Strings are sequences of characters, with no UTF-16 surrogates and no Unicode case folding beyond ASCII and Latin-1.
- bcrypt is a hash function parameter, and `generateToken` is a token parameter, because they are foreign code.

**Authentication**
- The `/test` route with an undefined body is not modelled.
- `getProfile` only reads the store, so it is not modelled.
- The frontend API's double `.data` unwrap is not modelled.

**Backend routes**
- OpenMeteo.ProcessWeatherData, OpenMeteo.GetFrostForecastData, OpenMeteo.MultipleLocationsForecast: built on the corrected window start of the Findings table, not on the code as written. The two agree whenever some hour is at or after now (OpenMeteo.AsWrittenAgreesWhenFound). The as-written behaviour when every hour is past is OpenMeteo.ProcessWeatherDataAsWritten.
- ProductionRoutes.Recommend: built on the price looked up by the crop key, as corrected in the Findings table, not on the display-name lookup as written. The two differ only for maize (ProductionRoutes.RecommendAsWrittenExceptMaize, ProductionRoutes.MaizeBreakEven).
- FrostFeatures.BuildFrostFeatures, WeatherRoutes.FrostPredict and the OpenMeteo operations over a response: a weather response whose series do not each hold one value per timestamp is excluded by precondition (`FrostFeatures.WellFormed`, `OpenMeteo.Aligned`). On such a response the source reads `undefined` for the missing hours and computes with `NaN`; the model does not capture that.
- FrostInference.InferFrost: the fallback score adds exact reals, where the source adds doubles. Take `TT_lag_6h` below 2, a dew point below 0 and humidity at most 85, with the default threshold 0.9 (backend/services/frostInferenceService.js:26-34). Exact reals give 0.1 + 0.3 + 0.3 + 0.2 = 0.9 and band `alto`. Doubles give 0.8999999999999999 and band `medio`, so the model's band differs from the source's for that input.
- OpenMeteo.ProcessWeatherData: the `units` entry of the aggregates copies the response's `hourly_units` object unchanged, so it is not modelled.
- Pest routes: the monitoring schedule, the thresholds and the report template. They are static text.
- Irrigation routes: `/crops`, `/systems` and `chartData`, which are static tables.
- IrrigationRoutes: the converse of the payback lemma (a smaller payback means a better system) is not stated.
- Production routes: `/calendar`, `/varieties`, `managementPlan`, `generateCropSchedule`, financing, `calculateOptimizedResults`, alternatives, `getRiskMitigation` and `calculateVarietyPerformance`. They are static tables or text built from the figures that are modelled.
- Solar routes: the random `monthlyProduction`, `savingsBreakdown` and `roiComparison`, and `/system-types`.
- Weather routes: `/forecast`, `/historical`, `/regions` and `generateRegionalRecommendations`, and the random alert probability and ids.

**Frontend services**
- API client: the other API wrappers and their fallback lists, the 404 interceptor, and `checkBackendHealth`, which refers to an undefined name.
- Service worker: cache messaging (`cacheUrls`, `getCacheVersion`, `clearCache`), `activateUpdate`, `promptInstall`, and `setTimeout` delays. The retry counter is never incremented in the source, so retries do not happen in the model either.
- SMS service: `getSMSHistory`'s default limit when it is called directly.

**Pages**
- Every page calls `useAuth()` without importing or defining it (frontend/src/pages/Login.jsx:32, frontend/src/pages/ProductionRecommendation.jsx:61, frontend/src/pages/SmartIrrigation.jsx:55, frontend/src/pages/PestPrevention.jsx:63, frontend/src/pages/AgroclimaticAssistance.jsx:58). As written, each page therefore throws a `ReferenceError` when it renders. The page models take the online flag and the login functions as given, that is, as if the hook were imported from the authentication context.
- Login page: the loading spinner, the password visibility toggle and navigation.
- Production page: `handleDateChange`, `toFixed`, the simulated delay, charts and altitude ranges. The date-to-day conversion is a parameter.
- Irrigation page: the simulated delay, `toFixed` and charts. `soilType` and `waterSaving` are never used by the source's calculation.
- Pest page: the simulated delay, charts, colour and icon choices, image data, and the effect that re-loads on every change. The timestamp is an integer.
- Agroclimatic page: the random mock weather generator is a parameter. Its base temperatures are never below 5 °C, so in practice it never produces a frost alert. Message formatting and icons, and the five-day forecast cards, are not modelled. In online mode the source computes the alerts twice from the same data, once for the screen and once for the cache. The model does the same, and both lists are equal.

## Findings

| source | as written | input that shows it | evidently intended | confidence | as-written member | corrected member |
|---|---|---|---|---|---|---|
| backend/routes/production.js:405-406 | the price is looked up by the lower-cased display name `crop.name.toLowerCase()` | maize, whose name `Maíz` lower-cases to `maíz`, not the key `maiz` | look up by the crop key, so maize is priced at 1.2 per kg | not executed | ProductionRoutes.ProjectionsAsWritten, ProductionRoutes.MaizePriceAsWritten, ProductionRoutes.MaizeBreakEven | ProductionRoutes.Projections, ProductionRoutes.PriceOf |
| frontend/src/services/apiService.js:235 | the offline saving percentage is `(1 - efficiency / 0.45) * 100` | drip irrigation, efficiency 0.90, gives -100 % | the share of the 0.45-efficient baseline that is saved, `(1 - 0.45 / efficiency) * 100`, which the backend route computes | not executed | ApiService.OfflineIrrigationAsWritten, ApiService.OfflinePercentAsWrittenNeverPositive | ApiService.OfflineIrrigationCalculation, ApiService.OfflinePercentMatchesBackend |
| backend/services/fetchOpenMeteoData.js:73-79 | `findIndex` gives -1 when every hour is in the past; the window then starts at -1, and the history `slice(0, -1)` loses the last hour | hourly times all before now | start the window at the end of the series, so no forecast hours are taken and all the history is kept | not executed | OpenMeteo.StartAsWritten, OpenMeteo.ProcessWeatherDataAsWritten, OpenMeteo.AsWrittenDropsLastHour | OpenMeteo.Start, OpenMeteo.StartPastEndKeepsAllHistory |
