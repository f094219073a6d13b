# AquaAlert flood-risk core, modelled in Dafny

AquaAlert is a single-page flood-awareness dashboard for the municipality of
Bacuag. Behind its forms and map sits a small piece of decision logic, and
this project models it:

- **The flood-risk scorer.** The session keeps a smoothed baseline of the mean
  sensor water level (`sensor_ewma`). The first run stores the mean as the
  baseline. Every run then smooths the baseline towards the mean
  (`0.3*mean + 0.7*baseline`) and scores the rise of the mean above the new
  baseline. The flood risk is `min(0.5r + 0.3s + 0.2t + 0.05rs, 1)`, where
  `r` is the rainfall term, `s` the sensor-level term and `t` the trend term.
- **The alert policy.** An alert is appended iff the risk reaches the operator's
  threshold or some sensor reaches 120 cm. It is HIGH when a sensor reaches
  150 cm or the risk reaches 0.9. Otherwise it is MEDIUM from a risk of 0.75,
  and LOW below that.
- **The simulated sensor update.** Each level rises by `rain/50` plus a noise
  value and is clipped to [0, 200]. The map marker colour follows the level.
- **The record tables.** Registration (`save_user`) inserts only new usernames.
  Login (`authenticate`) answers the role of the first row matching both
  username and password. The barangay image index is upserted
  (`save_barangay_image`) and purged (`delete_barangay_image`) by barangay.

Layout, one module per component:

- `risk.dfy` (`FloodRisk`): the pure arithmetic of the scorer and the lemmas about it.
- `trend.dfy` (`TrendTracking`): the session baseline as a class `TrendTracker`
  with the fields `initialized` and `ewma`, and the scoring call that advances it.
- `alerts.dfy` (`Alerts`): the alert policy and the append-only alert log.
- `sensors.dfy` (`Sensors`): the sensor table and its simulated update.
- `users.dfy` (`Users`): the account table.
- `images.dfy` (`BarangayImages`): the barangay image index.
- `dashboard.dfy` (`Dashboard`): one run of the scoring flow, plus worked scenarios.
- `options.dfy` (`Options`): the `Option` datatype.

Each table is a class holding a `seq` of rows. Its methods state the new
contents as a function of the old ones. The properties are proved as lemmas
about those functions.

Calling the scorer twice with identical levels does not always change the
trend. It stays 0 when the mean is at or below the updated baseline. It stays
1 when the mean is still 20 cm or more above the baseline after the second
update. `FloodRisk.RepeatedTrend` states exactly when the second trend is smaller.

## Model

| member | source | states |
|---|---|---|
| TrendTracking.TrendTracker.TrendScore | aaqua.py:231-238 | stores the mean as baseline when none exists, then sets the baseline to `0.3*mean + 0.7*previous`; on a first call the baseline equals the mean and the trend is 0; the trend is measured against the post-update baseline and lies in [0, 1] |
| TrendTracking.PredictFloodRisk | aaqua.py:240-245 | advances the session baseline as the trend call does and returns the risk for the pre-call baseline state; the risk is in [0, 1] for non-negative rainfall and level |
| FloodRisk.TrendFromBaseline | aaqua.py:236-238 | the trend is in [0, 1]; it is 0 iff the mean is at or below the baseline, 1 iff the mean exceeds it by 20 or more, and otherwise the rise divided by 20 |
| FloodRisk.TrendMonotone | aaqua.py:236-238 | a larger rise of the mean over the baseline never gives a smaller trend |
| FloodRisk.FirstCallBaselineIsMean | aaqua.py:232-238 | with no stored baseline, the updated baseline is the mean and the trend is 0 |
| FloodRisk.GapShrinks | aaqua.py:234-235 | one smoothing step shrinks the gap between mean and baseline to 0.7 of itself and keeps the baseline between the old baseline and the mean |
| FloodRisk.GapAfterRepeats | aaqua.py:234-235 | after k runs with an unchanged mean the gap is `0.7^k` times the original gap |
| FloodRisk.RepeatedTrend | aaqua.py:234-238 | a second identical run never gives a larger trend, and gives a strictly smaller one iff the second trend is strictly between 0 and 1 |
| FloodRisk.MeanBetween | aaqua.py:233-236 | the mean sensor level lies between any lower and upper bound of the levels |
| FloodRisk.RainTerm | aaqua.py:241 | the rain term is at most 1, non-negative for non-negative rain, and equals 1 iff rain is at least 200 mm |
| FloodRisk.LevelTerm | aaqua.py:242 | the level term is at most 1, non-negative for a non-negative level, and equals 1 iff the level is at least 100 cm |
| FloodRisk.RiskScore | aaqua.py:244-245 | the combined score is at most 1 and non-negative when rain, level and trend are |
| FloodRisk.WeightedMonotone | aaqua.py:244 | the uncapped weighted sum never decreases when the non-negative rain and level terms grow |
| FloodRisk.RiskMonotoneInRain | aaqua.py:241-245 | for non-negative rain and level, more rain never lowers the score |
| FloodRisk.RiskMonotoneInLevel | aaqua.py:242-245 | for non-negative rain and level, a higher level never lowers the score |
| FloodRisk.RiskSaturatesInRain | aaqua.py:241 | every rainfall of 200 mm or more scores the same as 200 mm |
| FloodRisk.PredictedRiskBounds | aaqua.py:240-245 | the predicted risk is in [0, 1] whatever the baseline state, for non-negative rain and level |
| FloodRisk.PredictedRiskInRain | aaqua.py:240-245 | for a fixed table and baseline state, the predicted risk is non-decreasing in non-negative rainfall and constant from 200 mm up |
| FloodRisk.FirstCallRiskHasNoTrend | aaqua.py:232-245 | on a first run the risk is the rain and level terms alone |
| Alerts.Peak | aaqua.py:266-267 | the peak is at least every level and equal to one of them |
| Alerts.AnyAtLeastIffPeak | aaqua.py:266-267 | some level reaches a mark iff the peak level does |
| Alerts.AlertIff | aaqua.py:266 | an alert fires iff risk is at least the threshold (inclusive) or some level is at least 120 |
| Alerts.SeverityRules | aaqua.py:267 | HIGH whenever some level reaches 150, even below the threshold; a raised alert is HIGH iff some level reaches 150 or the risk reaches 0.9; otherwise MEDIUM iff risk is at least 0.75; LOW only below 0.75 and below 150 cm |
| Alerts.ClassifyMonotone | aaqua.py:266-267 | a higher risk, a lower threshold or pointwise higher levels never give a lesser outcome |
| Alerts.MeanLevelForcesAlert | aaqua.py:260-267 | a mean level of 120 always raises an alert and one of 150 always makes it HIGH |
| Alerts.AlertLog.Raise | aaqua.py:266-277 | appends exactly one FloodRisk row with the classified severity, risk and average when the policy fires, and leaves the log unchanged otherwise |
| Sensors.Clip | aaqua.py:257 | the clipped level is in [0, 200], unchanged when already inside, and the nearer bound otherwise |
| Sensors.Levels | aaqua.py:256-260 | the level column has one entry per sensor, in order |
| Sensors.Simulated | aaqua.py:256-257 | the update keeps the number of sensors and their id, lat and lon, and leaves every level in [0, 200] |
| Sensors.SimulatedMeanInRange | aaqua.py:256-260 | after a simulated update the mean level is in [0, 200] |
| Sensors.SimulatedMonotoneInRain | aaqua.py:256-257 | more rain never lowers a simulated level |
| Sensors.SimulatedWithoutClipping | aaqua.py:256-257 | a level whose sum with rain/50 and noise stays in [0, 200] becomes exactly that sum; with no rain and zero noise an in-range table is unchanged |
| Sensors.ColourMonotone | aaqua.py:305 | a higher level never gets a calmer marker colour |
| Sensors.SensorTable.Simulate | aaqua.py:253-258 | replaces the table by its simulated update |
| Users.Authenticate | aaqua.py:138-143 | `None` iff no row matches both username and password; otherwise the role of the first matching row |
| Users.UnknownUserRejected | aaqua.py:138-143 | a username not in the table never logs in |
| Users.AuthenticateAppend | aaqua.py:129-143 | appending a row never changes a successful login, and a failed login succeeds afterwards only if the new row matches |
| Users.RegisterThenLogin | aaqua.py:129-143 | after registering a new username, logging in with its password returns the registered role |
| Users.RegisterKeepsOtherLogins | aaqua.py:129-143 | registering one user never changes any other username's login |
| Users.AuthenticateUnique | aaqua.py:138-143 | with unique usernames, a login returns the role of the one matching row |
| Users.UserTable.SaveUser | aaqua.py:129-136 | returns false and leaves the table unchanged iff the username is taken; otherwise appends exactly one row (username, password, role) at the end; keeps usernames unique |
| BarangayImages.FirstFilename | aaqua.py:420-422 | `None` iff the barangay has no row; otherwise the file name of its first row |
| BarangayImages.Without | aaqua.py:425 | no row of the barangay remains and the table never grows |
| BarangayImages.WithoutAppend | aaqua.py:425 | removing a barangay distributes over concatenation, so the remaining rows keep their order |
| BarangayImages.WithoutIdentity | aaqua.py:418-429 | the table is unchanged by the removal iff it holds no row of the barangay |
| BarangayImages.WithoutCounts | aaqua.py:425 | every row of another barangay keeps its number of occurrences, and the removed barangay keeps none |
| BarangayImages.WithoutIdempotent | aaqua.py:425 | deleting twice is deleting once |
| BarangayImages.WithoutKeepsUnique | aaqua.py:418-426 | deletion keeps barangays unique |
| BarangayImages.UpsertStores | aaqua.py:409-416 | after a save every row of the barangay names the new file, and its first row does; when the barangay existed every row keeps its barangay and the table keeps its length, otherwise it grows by one |
| BarangayImages.UpsertKeepsOthers | aaqua.py:409-416 | a save leaves every other barangay's rows unchanged and in order |
| BarangayImages.RewriteKeepsOthers | aaqua.py:413 | rewriting the file names of one barangay in place leaves every other row unchanged and in order |
| BarangayImages.UpsertLastWins | aaqua.py:409-416 | saving twice for one barangay equals saving only the second file |
| BarangayImages.UpsertKeepsUnique | aaqua.py:409-416 | saving keeps barangays unique |
| BarangayImages.ImageTable.SaveImage | aaqua.py:409-416 | replaces the table by the upsert of (barangay, file name) |
| BarangayImages.ImageTable.DeleteImage | aaqua.py:418-429 | answers the first row's file name and removes exactly the barangay's rows; answers `None` and leaves the table alone when there are none |
| Dashboard.RunCycle | aaqua.py:250-277 | optionally simulates, scores the mean of the updated levels against the session baseline, classifies, and appends the alert the policy calls for; with simulation and non-negative rain the risk is in [0, 1] |
| Dashboard.QuietFirstRun | aaqua.py:240-277 | sensors at 10, 8 and 5 cm with no rain score 0.023 on a first run and raise no alert at threshold 0.6 |
| Dashboard.NoSpuriousFirstAlert | aaqua.py:240-277 | the same first run at 20 mm of rain stays below 0.6 and raises no alert |
| Dashboard.SevereSensorForcesHigh | aaqua.py:267 | one sensor at 150 cm gives HIGH at a risk of 0.1, whatever the threshold |
| Dashboard.ThresholdIsInclusive | aaqua.py:266 | a risk equal to the threshold raises an alert |

## Left out

- Streamlit presentation is not modelled. This covers page setup, styling, sidebar, login and register tabs, forms, messages, `st.rerun` and `st.stop`.
- CSV persistence is not modelled. This covers `ensure_files`, the `load_*` functions, `to_csv`, and the existence checks. Tables are in-memory sequences.
- Each table method does its read-modify-write as one step. Lost updates between concurrent sessions are not modelled.
- pandas type inference when reading a table back is not modelled. For example, it may parse digit-only usernames or passwords as numbers. Fields are compared as strings.
- The seeded `numpy` noise is not modelled. The noise vector is an input to the simulation.
- FloodRisk.RiskMonotoneInRain: stated for non-negative rainfall only. The rainfall input is a slider from 0 to 300 mm.
- FloodRisk.PredictedRiskInRain: stated for non-negative rainfall only, for the same reason.
- Floating-point rounding is not modelled. Levels, rainfall and risk are `real`.
- An empty sensor table is excluded by precondition, because its mean is undefined (NaN in the source).
- Alert timestamps from the clock, the formatted message text and the NaN lat/lon columns are not modelled. An alert row keeps its kind, severity, risk and average level instead.
- Image file writes and the `os.remove` of the deleted image are not modelled. `DeleteImage` returns the file name the source would remove.
- The folium map rendering is not modelled, apart from the marker colour rule.
- The user-information and community-report forms are not modelled. They only append form data to a table.
- The unused notification and weather environment variables and the unused distance import are not modelled. No behaviour depends on them.
