# Carrier-sales backend: verified model of the request logic

This project models, in Dafny, the decision logic of the inbound carrier-sales
backend (`app/main.py`). That logic has four parts.

- **MC-number format check.** The queried MC (docket) number is stripped of
  whitespace. It must then match `^\d{4,7}$`.
- **Carrier lookup.** The service finds the carrier record in the decoded
  reply of the federal carrier registry (`choose_carrier`). It decides
  eligibility from the `allowToOperate` / `outOfService` flags
  (`compute_verdict`). It then builds the verdict response, with its
  fall-backs for the MC and DOT numbers.
- **Load search (`_filter_loads`).** It normalises the query and the row
  fields (`_norm` = strip + lower) and applies the six optional filters to the
  catalog. It ranks the matches by (equipment mismatch, pickup time) with
  Python's stable sort, and returns the first three.
- **Metrics (`metrics`).** Offer rows are grouped by call id, giving the rounds
  per call and their mean. Summary outcomes and sentiments are tallied with
  `Counter`, with the defaults "Other" and "Neutral". The service also counts
  distinct calls and offers, and reads the accepted, rejected and not-eligible
  counts out of the outcome tally.

Modules, one per file:

| module | file | what it holds |
|---|---|---|
| `Wrappers` | wrappers.dfy | `Option`, `Result` |
| `Text` | text.dfy | ASCII `strip`, `lower`, `_norm`, substring `in`, `join`, `str()` of an integer |
| `Json` | json.dfy | decoded JSON values, `dict.get`, Python truthiness, `str()` of a scalar |
| `Ordering` | ordering.dfy | Python's order on `str` and on the `(bool, str)` ranking key |
| `Ranking` | ranking.dfy | stable `list.sort(key=...)` and the `[:n]` slice, for any element type |
| `Carriers` | carriers.dfy | MC check, `choose_carrier`, `compute_verdict`, the verdict response |
| `Loads` | loads.dfy | load rows, the filters, `_filter_loads` |
| `Metrics` | metrics.dfy | `Counter`, `by_call` grouping, the totals of `metrics()` |

Code that loops is modelled as methods with `while` loops and their
invariants:

- `choose_carrier`: `ChooseCarrier` and `ScanItems`, each proved to return
  what the recursive search functions `FirstListCarrier`, `FirstItemCarrier`
  and `CarrierOf` describe.
- `_filter_loads`: `CollectMatching` (the filtering loop, proved equal to
  `Matching`) and `FilterLoads` (sort and slice, proved equal to `Top`).
- The `by_call` loop of `metrics`: `GroupByCall` (each step an
  `AppendToCall`) and `RoundCounts`, proved equal to `Groups`, `CallOrder`
  and `Rounds`; `Metrics` assembles the totals.

`compute_verdict` has no loop. `ComputeVerdict` is a method because the code
builds its `reasons` list step by step. Its contract gives eligibility as
`Eligible` and the reason as `VerdictReason`; the lemma `VerdictReasonCases`
spells out the possible reason texts. The lemmas beside each search function
state what it means. The catalog `LOADS` is passed as a parameter. The only
updates in place are to fresh copies and local containers: the copied row
whose `loadboard_rate` is converted, the `out` list of matches, and the lists
held in `by_call`. Nothing the search or the metrics return depends on
sharing them, so they are modelled as immutable values and there are no
classes.

### Behaviour of the code worth knowing

- **Eligibility.** Only two flags decide it: `allowToOperate == "N"` and
  `outOfService == "Y"` each make a carrier ineligible. A flag that is missing
  or has any other value counts as allowed. The out-of-service date does not
  affect eligibility; it only adds `" since <date>"` to the reason text.
- **City and state filters.** Each is a substring test against the whole
  normalised `origin` / `destination` string, not a comparison with separate
  city and state fields. For example, state "CA" accepts origin
  "Chicago, IL".
- **Equipment filter.** It is an equality test. A missing `equipment_type`
  prints as `None`, so the filter "none" selects rows without one.
- **Pickup-date filter.** It is a raw, un-normalised substring test on
  `pickup_datetime`.
- **Search result.** The matches are ranked and cut to at most three rows.
- **`avg_rounds`.** It is the mean number of offer rows per call id. The
  `round` field of an offer is not read.
- **`calls`.** It counts distinct `call_id` values among the summaries. A
  missing id counts as one more value.
- **Empty carrier object.** An empty carrier object `{}` is falsy, so the
  service answers 404 even though `choose_carrier` found it.

## Model

| member | source | states |
|---|---|---|
| Text.TrimStartSpec | app/main.py:112 | `lstrip` removes exactly the leading run of whitespace: the result is a suffix of the input, everything cut is whitespace, and the result does not start with whitespace |
| Text.TrimEndSpec | app/main.py:112 | `rstrip` removes exactly the trailing run of whitespace |
| Text.StripSpec | app/main.py:112 | `strip()` returns the input with its leading and trailing whitespace cut away, and the result neither starts nor ends with whitespace |
| Text.StripCutUnique | app/main.py:112 | the cut described by `StripSpec` is unique: any two such cuts give the same string |
| Text.StrippedFromUnique | app/main.py:112 | there is only one stripped form of a string |
| Text.StripKeepsTrimmed | app/main.py:112 | a string without surrounding whitespace is left as it is by `strip()` |
| Text.StripIdempotent | app/main.py:174 | stripping twice is stripping once |
| Text.LowerSpec | app/main.py:112 | `lower()` keeps the length, maps each character by ASCII case folding, leaves no upper-case letter and keeps whitespace where it was |
| Text.LowerKeepsLower | app/main.py:112 | `lower()` leaves a string without upper-case letters unchanged |
| Text.NormSpec | app/main.py:111-112 | `_norm` gives a string with no upper-case letter and no surrounding whitespace, and a missing value gives "" |
| Text.NormKeepsNormal | app/main.py:111-112 | `_norm` leaves an already normal string unchanged |
| Text.NormIdempotent | app/main.py:111-112 | `_norm(_norm(s)) == _norm(s)` |
| Text.ContainsSound | app/main.py:124-129 | when `needle in hay` holds, the needle occurs at some position of the haystack |
| Text.ContainsComplete | app/main.py:124-129 | an occurrence of the needle at any position makes `needle in hay` hold |
| Text.ContainsIff | app/main.py:124-129 | Python's `needle in hay` holds exactly when the needle occurs at some position of the haystack |
| Text.NatText | app/main.py:193 | `str(n)` of a natural number is a non-empty string of digits |
| Text.NatTextRoundTrip | app/main.py:193 | reading back the digits of `str(n)` gives n, and there is no leading zero |
| Text.IntText | app/main.py:193 | `str(n)` is non-empty and starts with '-' exactly for negative n |
| Json.Get | app/main.py:145 | `dict.get(key)` is None exactly when no member has that key, and otherwise returns a value stored under it |
| Json.GetUnique | app/main.py:145 | in an object whose keys are unique (a Python dict), `dict.get(key)` is the value of the one member stored under key |
| Json.GetText | app/main.py:159-161 | the string read for a key is present exactly when the member exists and holds a string, and it is that string |
| Json.ScalarText | app/main.py:192-193 | `str()` of a string is the string itself, and `str()` of a truthy scalar is never empty |
| Carriers.StrippedMcPattern | app/main.py:174-176 | after `strip()`, `MC_RE` (whose `$` also allows a final line feed) accepts exactly the strings of 4 to 7 ASCII digits |
| Carriers.FirstItemCarrierSound | app/main.py:152-155 | the carrier taken from a list is a "carrier" object of one of its items, and none is taken only when no item has one |
| Carriers.FirstListCarrierSound | app/main.py:147-151 | the carrier taken from the object's list-valued members is a "carrier" object of an item of one of those lists, and none is taken only when there is none |
| Carriers.FirstItemCarrierFirst | app/main.py:152-155 | the carrier taken from a list is that of an item with one, and no earlier item has one |
| Carriers.FirstListCarrierFirst | app/main.py:147-151 | the carrier taken from the members comes from a list-valued member holding an item with one, and no earlier member holds such an item |
| Carriers.CarrierOfSound | app/main.py:142-156 | `choose_carrier` returns an object found under "carrier" at the top level or in a list item, and returns None exactly when no such object exists |
| Carriers.TopLevelCarrierFirst | app/main.py:145-146 | a top-level "carrier" object wins over any carrier inside lists |
| Carriers.ScanItems | app/main.py:153-155 | the loop over list items returns the carrier of the first item that has one |
| Carriers.ChooseCarrier | app/main.py:142-156 | the nested loops with early return compute the specified search result |
| Carriers.VerdictReasonCases | app/main.py:158-167 | the reason is the active text exactly when the carrier is eligible; otherwise it is "allowToOperate=N", "outOfService=Y" (with " since <date>" for a non-empty date), or both joined by "; "; the "Not eligible" fallback is never produced |
| Carriers.ComputeVerdict | app/main.py:158-167 | the step-by-step building of `reasons` and `ok` gives `ok` exactly when the carrier is `Eligible` (allowToOperate is not "N" and outOfService is not "Y"), and the reason is `VerdictReason`, whose cases `VerdictReasonCases` lists |
| Carriers.TextOr | app/main.py:192-193 | `str(v or default)`: a missing or falsy value gives the default, a non-empty string itself, a non-zero number its decimal text; with a non-empty default the result is never empty |
| Carriers.FindCarrier | app/main.py:171-197 | the request is refused as badly formatted exactly when the stripped input is not 4 to 7 digits; with a valid number and no non-empty carrier object the answer is "not found" with the reply's "content"; with a valid number and a non-empty carrier object the answer is a verdict, which carries the eligibility and reason of `compute_verdict` (`Eligible`, `VerdictReason`), the record's MC number or else the queried digits (never empty), the DOT number or "", and the names and date unchanged |
| Ordering.StrLtIrreflexive | app/main.py:138 | no string sorts before itself |
| Ordering.StrLtTransitive | app/main.py:138 | Python's string order is transitive |
| Ordering.StrLtTotal | app/main.py:138 | of two different strings one sorts before the other |
| Ordering.KeyLtIrreflexive | app/main.py:138 | no ranking key sorts before itself |
| Ordering.KeyLtTransitive | app/main.py:138 | the order on `(bool, str)` keys is transitive |
| Ordering.KeyLtTotal | app/main.py:138 | any two ranking keys are equal or ordered one way |
| Ordering.KeyLtAsymmetric | app/main.py:138 | two keys are never each below the other |
| Ordering.KeyLtLeTransitive | app/main.py:138 | strictly below then at most gives strictly below |
| Ordering.KeyLeTransitive | app/main.py:138 | "at most" on keys is transitive |
| Ranking.Insert | app/main.py:138 | inserting adds exactly that element (multiset) |
| Ranking.SortByKey | app/main.py:138 | the sort returns a permutation of its input |
| Ranking.SortedAbove | app/main.py:138 | in a sorted sequence whose head is above x, every element is above x |
| Ranking.InsertSorted | app/main.py:138 | inserting into a sorted sequence keeps it sorted |
| Ranking.SortByKeySorted | app/main.py:138 | the sort's result is in key order |
| Ranking.WithKeyAppend | app/main.py:138 | the rows of one key in a concatenation are those of the two parts, in order |
| Ranking.WithKeyAbove | app/main.py:138 | no element above x shares x's key |
| Ranking.InsertWithKey | app/main.py:138 | insertion places the new element after every element with the same key |
| Ranking.SortByKeyStable | app/main.py:138 | the sort is stable: for every key, the elements with that key appear in their input order |
| Ranking.WithKeyPrefix | app/main.py:139 | a prefix keeps a prefix of each key's elements |
| Ranking.Top | app/main.py:138-139 | `sorted(...)[:n]` has `min(n, len)` elements |
| Ranking.TopSpec | app/main.py:138-139 | the first n of the sort come from the input, are in key order, no element left out ranks below one kept, and each key's elements keep their input order |
| Loads.EquipmentNormalised | app/main.py:128 | the equipment text of a row normalises as written out, and a missing equipment type normalises to "none" |
| Loads.MatchingSnoc | app/main.py:121-131 | one more catalog row is appended to the matches exactly when it passes every filter |
| Loads.MatchingSound | app/main.py:121-131 | the matching rows are catalog rows that pass every filter, never more of them than the catalog holds (sub-multiset) |
| Loads.MatchingSingleton | app/main.py:121-131 | a single row is kept when it passes the filters and dropped otherwise |
| Loads.MatchingAppend | app/main.py:121-131 | the matches of a concatenation are the matches of each part, in order: with `MatchingSingleton`, the matches are the catalog's passing rows in catalog order, each as often as it occurs |
| Loads.MatchingComplete | app/main.py:121-131 | every catalog row that passes the filters is among the matches |
| Loads.NoFiltersMatchAll | app/main.py:119-131 | with every filter empty the whole catalog matches, in order |
| Loads.MatchingCaseInsensitive | app/main.py:119-129 | queries whose city, state and equipment filters differ only in case and surrounding whitespace, and whose pickup dates are equal, select the same rows (the pickup date is compared raw) |
| Loads.NoFiltersMatch | app/main.py:119-131 | with every filter empty any row passes |
| Loads.CollectMatching | app/main.py:120-131 | the filtering loop, with its separate normalised tests, keeps exactly the rows `Matching` selects, in catalog order |
| Loads.FilterLoads | app/main.py:114-139 | the loop, sort and slice return the first three of the stably sorted matches: at most three rows, `min(3, matches)` of them (`min(3, catalog)` without filters), each a catalog row passing every filter, in key order, none ranked below a match left out, and rows with equal keys in catalog order |
| Metrics.TallyCounts | app/main.py:257-258 | `Counter` gives each label its number of occurrences, and has an entry exactly for the labels that occur |
| Metrics.MapSumRemove | app/main.py:257 | the sum of a tally may take any entry out first |
| Metrics.MapSumBump | app/main.py:257 | counting one more label adds one to the total |
| Metrics.TallyTotal | app/main.py:257-258 | a tally's counts add up to the number of labels |
| Metrics.OrDefault | app/main.py:257-258 | `value or default` gives the default exactly when the value is missing, empty or the default itself, and otherwise the value |
| Metrics.OutcomeLabels | app/main.py:257 | one outcome label per summary |
| Metrics.SentimentLabels | app/main.py:258 | one sentiment label per summary |
| Metrics.TalliesCoverSummaries | app/main.py:257-258 | the outcome tally and the sentiment tally each add up to the number of summaries |
| Metrics.MissingLabelsDefault | app/main.py:257-258 | a summary with a missing or empty outcome is counted as "Other", and one with a missing or empty sentiment as "Neutral" |
| Metrics.CallIdsSeenMembers | app/main.py:262 | the set of call ids holds exactly the ids (None included) of the summaries |
| Metrics.CallIdsSeenBound | app/main.py:262 | there are never more distinct calls than summaries |
| Metrics.CallOrderMembers | app/main.py:250-254 | a call id is a key of `by_call` exactly when some offer row carries it (non-empty) |
| Metrics.CallOrderSpec | app/main.py:250-254 | each key appears once in `by_call`'s key order, and an id that is not a key has no rows |
| Metrics.Rounds | app/main.py:255 | one round count per call |
| Metrics.RoundsUnchanged | app/main.py:254 | a row outside the listed calls changes none of their round counts |
| Metrics.RoundsBump | app/main.py:254 | a row of a listed call adds exactly one round in total |
| Metrics.RoundsTotal | app/main.py:250-255 | the rounds per call add up to the number of offer rows with a non-empty call id |
| Metrics.GroupsStep | app/main.py:252-254 | one `setdefault(cid, []).append(o)` step: rows without a call id change nothing; otherwise the row is appended to its call's group, and a new call id is added at the end of the key order |
| Metrics.AppendToCall | app/main.py:252-254 | one loop step: a row without a call id changes nothing; otherwise the row is appended to its call's list, created empty when the id is new, and a new id joins the end of the key order |
| Metrics.GroupByCall | app/main.py:250-254 | the loop builds exactly the grouping of offer rows by call id, with the keys in first-seen order |
| Metrics.RoundCounts | app/main.py:255 | the round counts are the group sizes in key order, one per call, and they add up to the rows with a call id |
| Metrics.Metrics | app/main.py:249-271 | `offers_logged` is the number of offer rows; `calls` is the number of distinct summary call ids; `avg_rounds` is the rows with a call id divided by the number of calls, or 0.0 without calls; the tallies are the `Counter`s of the labels; accepted, rejected and not-eligible are the numbers of summaries with exactly that outcome label (0 when absent) |

## Left out

- HTTP routing, the API-key dependency, the pydantic request and response classes, `/healthz` (wall clock) and the `/dash` page: framework plumbing with no decisions of its own.
- The registry request itself: the missing-`FMCSA_WEBKEY` error, the HTTP call, and the handling of the 401, 404 and 5xx status codes (app/main.py:172-188). `FindCarrier` starts from the decoded reply, which is a parameter.
- Loading the catalog from a JSON or CSV file and the built-in demo rows (app/main.py:61-109). The catalog is a parameter.
- Appending offers and summaries to the JSONL logs, and reading and decoding those logs in `metrics` (app/main.py:217-247). The parsed rows are parameters.
- The `float(loadboard_rate)` conversion applied to the copied matches (app/main.py:132-135): floating point with a swallowed exception. A row's other columns travel along unchanged in `Load.rest`.
- Copying the matched rows (`dict(r)`) so that the catalog is left untouched. Dafny values are immutable, so the catalog is never changed by the model.
- Metrics.AverageRounds: `avg_rounds` is the exact quotient as a `real`, not a rounded binary float.
- Unicode: `strip`, `lower`, `\d` and string order are modelled on ASCII. Python also strips and case-folds non-ASCII characters and accepts non-ASCII digits for `\d`.
- JSON numbers are integers in the model. Floating-point numbers are not represented.
- Carriers.RecordOf: `allowToOperate`, `outOfService`, `outOfServiceDate`, `legalName` and `dbaName` are read as strings. A member holding another kind of value counts as missing. In the code, a non-string flag never equals "N" or "Y", which gives the same verdict. A non-string date raises an error while the reason is built when `outOfService` is "Y" and the date is truthy (app/main.py:165-166); otherwise it goes straight to the `out_of_service_date` response field (app/main.py:196), where the model has None. Non-string names would fail response validation.
- Carriers.TextOr: a non-empty list or object stored under `mcNumber` or `dotNumber` would be printed with Python's `repr`. The model does not produce that text and gives the default instead.
- Metrics: a call id is a string or missing. A non-string `call_id` (a number, a list) is not represented. The key order of the `outcomes` and `sentiments` tallies in the JSON reply is not modelled: they are maps.
- Json.Get: an object is a member list that may repeat a key, and `Get` then takes the first member under it, while `json.loads` keeps the last; `FirstListCarrier` visits every member. The two agree on objects with unique keys (`GetUnique`), which is all a Python dict can hold.
- Loads.Load: `origin`, `destination`, `equipment_type` and `pickup_datetime` are strings or missing. A catalog row holding a number or list there would make `_norm` or the substring test raise an error (app/main.py:112, 122, 129), or print differently under `str()`; such rows are not represented.
- Concurrency: the code shares no mutable state beyond the read-only catalog.
