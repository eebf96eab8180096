# myjab: state and district lookup over the CoWIN API client, in Dafny

myjab is a small script that finds the CoWIN ids of one state and one
district. Given the names `madhyapradesh` and `gwalior`, it does the following:

- It asks the CoWIN API for the list of states. If that fails in any way, it uses a table of states embedded in the script.
- It finds the configured state's id by name.
- It calls `get_districts_list` for that state, which builds a resource path but issues no request, and here always raises. On any exception it uses an embedded table of the districts of Madhya Pradesh.
- It finds the configured district's id.

The API calls go through a thin client, `CowinClient`. The client builds
resource paths, copies the request parameters and classifies the HTTP
status of each response into one of four outcomes: success, a client-error
exception, a server-error exception, or fall-through.

The model has three modules:

- `CowinClient` (`cowin_client.dfy`) covers the client:
  - the records the API returns;
  - the exceptions a call can raise, as a `Call<T>` that either returns or raises;
  - the status classification, as written and as corrected;
  - `__get`, `get_states` and the path built by `get_districts_list`.

  The transport is not modelled. What it answers for a request is a parameter
  of type `Call<Response>`. A response body is reduced to the facts the client
  reads: whether it is JSON, whether its top level is an object, its `meta`
  member, and its `states` list.
- `FallbackTables` (`fallback_tables.dfy`) holds the two embedded tables,
  entry for entry and in the script's order.
- `MyjabMain` (`myjab_main.dfy`) covers the rest:
  - the name normalisation;
  - the two lookups, as imperative scans over an array, each proved equal to a recursive first-match function;
  - the script itself.

  The lookups match a stored name after removing its spaces and lower-casing
  it. The query is only lower-cased. The lemmas state the consequences:
  - the case of the query does not matter;
  - a query that contains a space never matches anything;
  - the earliest of several matching records wins.

  Two further lemmas show that with the configured names, the fallback tables
  resolve to state 20 and district 313.

The district fetch always raises. `get_districts_list` concatenates a string
with the state id, and the state id is an int or `None`. So the district is
always looked up in the fallback table, whatever the API answers.
`RunScript` states this.

Two places where the code differs from what a reader would expect. The model
follows the code in both:

- The docstring of `__handle_response_status` (myjab_cowin_client.py:100-101)
  says every status outside the 2xx range raises. The code raises only for
  4xx and 5xx. Any other status (1xx, 3xx, 600 and above) falls through and
  returns `None`.
- A state name written as a person would write it, such as `Madhya Pradesh`,
  looks like a valid query, but it finds nothing. Only the stored name has its
  spaces removed, so a query with a space cannot match
  (`SpacedQueryFindsNothing`). The configured query is `madhyapradesh`, with
  no space.

## Model

| member | source | states |
|---|---|---|
| CowinClient.Decimal | myjab_cowin_client.py:118 | the status is rendered as a non-empty string of decimal digits with no leading zero |
| CowinClient.DecimalRoundTrip | myjab_cowin_client.py:118 | parsing the rendered status gives back the number |
| CowinClient.ThreeDigits | myjab_cowin_client.py:118-122 | a status between 100 and 999 renders as three characters, led by its hundreds digit |
| CowinClient.ReadMetaMessage | myjab_cowin_client.py:111-116 | reading `meta.message` raises AttributeError exactly when the body is JSON with no `meta` object; a body that is not JSON is caught and yields nothing |
| CowinClient.AsWrittenMissingMetaEscapes | myjab_cowin_client.py:108-118 | as written, a 400 response whose JSON body has no `meta` raises AttributeError, not the client-error exception |
| CowinClient.HandleStatusAsWritten | myjab_cowin_client.py:103-122 | the classification as the program runs it: a 2xx status is returned; a 4xx raises AttributeError when the body read raises, and APIClientException otherwise; a 5xx raises APIServerException; it returns nothing iff the status is in none of these classes |
| CowinClient.HandleStatus | myjab_cowin_client.py:103-122 | the corrected classification (see Findings), in which the body read cannot escape: returns the status iff it is 2xx; raises APIClientException iff 4xx; raises APIServerException iff 5xx; returns nothing iff none of these; raises nothing else |
| CowinClient.AsWrittenDiffersOnlyWithoutMeta | myjab_cowin_client.py:108-118 | the written and the corrected classification differ exactly on 4xx responses whose JSON body lacks a `meta` object |
| CowinClient.AsWrittenIgnoresMetaMessage | myjab_cowin_client.py:111-118 | the `meta.message` read from the body never changes the outcome or the message |
| CowinClient.StatusClassIsFirstDigit | myjab_cowin_client.py:105-122 | for a three-digit status the outcome is decided by the first digit: 2 returns, 4 and 5 raise, 1, 3 and 6-9 fall through |
| CowinClient.ClientErrorMessageCarriesStatus | myjab_cowin_client.py:118 | the client-error message is the status's three digits, which parse back to it, then " Client Error " and the reason |
| CowinClient.ServerErrorMessageCarriesStatus | myjab_cowin_client.py:122 | the server-error message is 17 characters: the status's three digits, which parse back to it, then " Server Error." |
| CowinClient.CopyParams | myjab_cowin_client.py:90-93 | the copied dictionary is empty when no parameters are given, and holds exactly the given pairs otherwise |
| CowinClient.GetOutcome | myjab_cowin_client.py:94-96 | a transport failure propagates; a 4xx or 5xx response raises exactly the classifier's exception, message included; any other response is returned unchanged, and only then does the call return |
| CowinClient.GetOutcomeAsWritten | myjab_cowin_client.py:94-96 | `__get` as written returns exactly when `GetOutcome` does, with the same response; it differs only on a 4xx whose body read raises, where it raises AttributeError |
| CowinClient.Get | myjab_cowin_client.py:89-96 | the request carries the resource and a copy of the parameters; the outcome is `GetOutcome` of the transport's answer |
| CowinClient.StatesField | myjab_cowin_client.py:69 | `json()['states']` returns the list iff the body is an object that has it; otherwise it raises a decode error, a TypeError or KeyError('states') |
| CowinClient.StatesOutcome | myjab_cowin_client.py:65-69 | `get_states` returns the body's states list iff the transport answered, the status is neither 4xx nor 5xx and the body holds a states list; a transport failure and the classifier's exception, message included, propagate unchanged |
| CowinClient.StatesOutcomeAsWritten | myjab_cowin_client.py:65-69 | `get_states` as written returns exactly when `StatesOutcome` does, with the same list; it differs only on a 4xx whose body read raises, where it raises AttributeError |
| CowinClient.GetStates | myjab_cowin_client.py:65-69 | requests `admin/location/states` with no parameters; the outcome is `StatesOutcome` of the transport's answer |
| CowinClient.DistrictsPath | myjab_cowin_client.py:72 | the path is built iff the state id is a string, and is then the districts prefix followed by the id; otherwise TypeError |
| CowinClient.GetDistrictsList | myjab_cowin_client.py:71-72 | raises TypeError iff the state id is not a string; otherwise returns `None` |
| MyjabMain.Lower | myjab_main.py:8 | lower-casing keeps the length, turns each upper-case ASCII letter into its lower-case letter (code point + 32), leaves no upper-case letter, and changes no other character, spaces included |
| MyjabMain.RemoveSpaces | myjab_main.py:8 | the result contains no space |
| MyjabMain.RemoveSpacesKeepsSpaceFree | myjab_main.py:8 | a name without spaces is unchanged |
| MyjabMain.RemoveSpacesKeepsOthers | myjab_main.py:8 | every character other than a space is kept, as often as it occurs |
| MyjabMain.RemoveSpacesOfSpace | myjab_main.py:8 | a lone space is removed entirely |
| MyjabMain.RemoveSpacesAppend | myjab_main.py:8 | removing spaces distributes over concatenation |
| MyjabMain.NormalizedNameHasNoSpace | myjab_main.py:8 | a normalised stored name never contains a space |
| FallbackTables.AllStates | myjab_main.py:28-64 | the fallback state table has 37 entries, the i-th of which has id i |
| FallbackTables.MpDistricts | myjab_main.py:66-116 | the fallback district table has 51 entries, each with an id from 312 to 362 |
| MyjabMain.StateLookup | myjab_main.py:4-9 | `None` iff no state name matches; otherwise the id of the first matching state in list order |
| MyjabMain.DistrictLookup | myjab_main.py:11-16 | `None` iff no district name matches; otherwise the id of the first matching district in list order |
| MyjabMain.GetStateById | myjab_main.py:4-9 | the scan returns `StateLookup` of the list and leaves the list unchanged |
| MyjabMain.GetDistrictById | myjab_main.py:11-16 | the scan returns `DistrictLookup` of the list and leaves the list unchanged |
| MyjabMain.StateLookupIgnoresQueryCase | myjab_main.py:8 | queries that are equal once lower-cased find the same state |
| MyjabMain.DistrictLookupIgnoresQueryCase | myjab_main.py:15 | queries that are equal once lower-cased find the same district |
| MyjabMain.SpacedQueryMatchesNothing | myjab_main.py:8 | a query containing a space matches no stored name |
| MyjabMain.SpacedQueryFindsNothing | myjab_main.py:4-16 | a query containing a space finds no state and no district |
| MyjabMain.EarliestDuplicateWins | myjab_main.py:5-9 | when a list already has a match, appending another matching record does not change the id found |
| MyjabMain.DistrictLookupMirrorsStateLookup | myjab_main.py:4-16 | the district lookup gives the same result as the state lookup on records with the same names and ids |
| MyjabMain.MismatchAt | myjab_main.py:8 | a stored name whose first k+1 characters contain no space, and whose k-th character differs from the query's after lower-casing, does not match |
| MyjabMain.SingleSpaceRemoved | myjab_main.py:8 | removing the one space between two space-free words joins them |
| MyjabMain.MadhyaPradeshMatches | myjab_main.py:25 | "Madhya Pradesh" matches the configured state query |
| MyjabMain.StatesBeforeMadhyaPradeshDiffer | myjab_main.py:28-46 | none of the first 19 fallback states matches the configured state query |
| MyjabMain.TwentiethStateMatches | myjab_main.py:47 | the 20th fallback state matches the configured state query |
| MyjabMain.AllStatesResolvesMyState | myjab_main.py:25-64 | looking up the configured state in the fallback state table gives 20 |
| MyjabMain.DistrictsBeforeGunaDiffer | myjab_main.py:66-82 | none of the first 17 fallback districts matches the configured district query |
| MyjabMain.GunaDiffers | myjab_main.py:83 | "Guna" does not match the configured district query |
| MyjabMain.GwaliorMatches | myjab_main.py:84 | "Gwalior" matches the configured district query |
| MyjabMain.MpDistrictsResolvesMyDistrict | myjab_main.py:26-116 | looking up the configured district in the fallback district table gives 313 |
| MyjabMain.AsPyValue | myjab_main.py:126-129 | the state id handed to `get_districts_list` is never a string |
| MyjabMain.RunScript | myjab_main.py:118-134 | the states are the fetched list, or the fallback table when the fetch raises; the state id is their lookup; the districts are always the fallback table; the district id is its lookup |
| MyjabMain.RunConfiguredScript | myjab_main.py:118-134 | running the script with the configured names `madhyapradesh` and `gwalior` (lines 25-26): a failed states fetch yields state 20, and the district is 313 whatever the fetch does |

## Left out

- The transport (`Core` and its `get`) is not part of this model. Its answer to a request is a parameter. Connection details, credentials, OAuth and the API version are not modelled: neither the client's initializer nor the host and version constants of the script.
- JSON decoding is abstracted. A body is reduced to whether it is JSON, whether its top level is an object, its `meta` member and its `states` list. A state record is taken to carry both `state_id` and `state_name`, and likewise for districts. A record without a name makes `.replace` raise in the source, and that case is not modelled.
- `generate_otp`, `confirm_otp`, the four session queries and `get_certificate_as_pdf` are not modelled. They only assign a resource path and return `None`.
- The subclasses `Unauthorized`, `TooManyRequests`, `ResourceNotFound` and `AlreadyExists` are declared but never raised. They appear only as constructors of `ApiKind`.
- The two `print` calls and the final print of the district id are output only.
- Lower: folds ASCII letters only, while Python's `str.lower` also folds non-ASCII letters. Every name in the tables and in the configuration is ASCII.
- CopyParams: the result is a map, so the insertion order of the Python dictionary is not modelled.
- GetDistrictsList: it issues no request in the source, and the model returns `None` when the path can be built. The script never reaches that case.
- RunScript: the bare `except` catches every exception. The model covers the ones a call can raise here: API errors, decode errors, `TypeError`, `KeyError` and transport failures. The `AttributeError` of the as-written 4xx branch is not among them, because `GetStates` uses the corrected classification. `StatesOutcomeAsWritten` shows that the as-written `get_states` returns exactly when the corrected one does, with the same list, so the script takes the same branch either way. Interrupts and other exceptions raised outside the calls are not modelled.
- GetOutcome: built on the corrected `HandleStatus`. As written, `__get` raises AttributeError, not APIClientException, for a 4xx whose JSON body has no `meta` object (see Findings). `GetOutcomeAsWritten` models that behaviour and states exactly where the two differ.
- Get: returns `GetOutcome`, so it shares the corrected 4xx exception described for GetOutcome.
- StatesOutcome: built on the corrected `HandleStatus`. As written, `get_states` raises AttributeError on the same 4xx responses as `__get`. `StatesOutcomeAsWritten` models that behaviour and states exactly where the two differ.
- GetStates: returns `StatesOutcome`, so it shares the corrected 4xx exception described for StatesOutcome.
- Get: the `**kwargs` that `__get` forwards to the transport are not modelled. No caller in the client or the script passes any.

## Findings

| source | as written | input that shows it | evidently intended | confidence | as-written member | corrected member |
|---|---|---|---|---|---|---|
| myjab_cowin_client.py:111-118 | the 4xx branch reads `.get('meta').get('message')` inside a `try` that catches only `json.JSONDecodeError` | status 400 with the body `{}` (JSON with no `meta` object): `None.get` raises AttributeError | every 4xx raises `APIClientException("<status> Client Error " + reason)`, and reading the body is best-effort | high; not executed | CowinClient.HandleStatusAsWritten, CowinClient.AsWrittenMissingMetaEscapes | CowinClient.HandleStatus |
