# MarzPay collections: a Dafny model

This project models `CollectionsAPI` of the MarzPay Python SDK (`marzpay/classes/collections.py`).
The class shapes requests for a mobile-money service and hands each one to an injected transport
(`client.request`). It does four things:

- It validates the parameters of a money collection. Every check runs and every failure message is
  collected, in a fixed order. One validation error carrying the whole list is raised when the list
  is not empty.
- It normalises the customer's phone number. Every non-digit is deleted. If the digits do not already
  start with the country code `256`, one leading `0` is replaced by `256`, or `256` is put in front.
- It builds the `/collections?k=v&...` query from the filters that were given, and the
  `/collections/{id}` path of a single collection.
- It sends exactly one request per public call, and none when validation fails.

Modules:

- `Wrappers`: `Option`, `Result`, `Outcome`.
- `Strings`: digit and prefix predicates.
- `Errors`: `MarzPayError`.
- `Phone`: `_format_phone_number`.
- `Validation`: `_validate_collect_money_params` and the parameter record.
- `Query`: the `get_collections` endpoint, the decimal text of `page` and `limit`, and reading a
  query string back.
- `Collections`: the transport `Client` and the `CollectionsApi` class.

The transport is a class `Client`. Its ghost field `log` records every request sent. What the service
answers is an injected function `respond`, and its answer, success or failure, is returned unchanged.
The methods of `CollectionsApi` state the whole change to `log`. That is how "no request on a
validation failure" and "exactly one request of this shape otherwise" are stated.

Python values are modelled as follows:

- `None` becomes `Option.None`.
- The dynamic `amount` is `Option<AmountValue>`, where `AmountValue = IntVal(int) | OtherVal`.
- Python's falsiness of an optional string (`None` or `""`) is `Validation.Falsy`.
- The parameter dictionary is the record `CollectParams`.
- Overwriting `params["phone_number"]` is a record update (`Collections.Payload`).

## Model

| member | source | states |
|---|---|---|
| Phone.Digits | marzpay/classes/collections.py:226 | the regex strip leaves only characters 0-9 and is never longer than its input |
| Phone.DigitsOfDigits | marzpay/classes/collections.py:226 | a string that is already all digits is left unchanged by the strip |
| Phone.DigitsAppend | marzpay/classes/collections.py:226 | the strip works piece by piece, so the digits keep their original order |
| Phone.DigitsCount | marzpay/classes/collections.py:226 | each digit occurs in the stripped string as often as in the input; no non-digit occurs |
| Phone.FormatPhoneNumber | marzpay/classes/collections.py:226-235 | the normalised number consists only of 0-9 and starts with 256, for every input |
| Phone.FormatPhoneNumberIdempotent | marzpay/classes/collections.py:226-235 | normalising a normalised number changes nothing |
| Phone.FormatPhoneNumberKeepsInternational | marzpay/classes/collections.py:229 | a digit string that already starts with 256 is returned unchanged |
| Phone.FormatPhoneNumberCases | marzpay/classes/collections.py:226-233 | with d the input's digits, the result is d, or 256 plus d without its one leading zero (length +2), or 256 plus d (length +3) |
| Phone.FormatPhoneNumberKeepsSubscriber | marzpay/classes/collections.py:229-233 | everything after the first digit survives at the end of the result; the result is 0 to 3 characters longer than the digits |
| Phone.FormatPhoneNumberIgnoresSeparators | marzpay/classes/collections.py:226 | inserting text without digits anywhere in the input does not change the result |
| Phone.FormatPhoneNumberLocalExample | marzpay/classes/collections.py:230-231 | "0759983853" becomes "256759983853" |
| Phone.FormatPhoneNumberPlusExample | marzpay/classes/collections.py:226-229 | "+256759983853" becomes "256759983853" |
| Phone.FormatPhoneNumberBareExample | marzpay/classes/collections.py:232-233 | "759983853" becomes "256759983853" |
| Phone.FormatPhoneNumberDoubleZeroExample | marzpay/classes/collections.py:230-231 | "00759" becomes "2560759": only one leading zero is replaced |
| Validation.Falsy | marzpay/classes/collections.py:202-207 | `not s` on an optional string holds exactly for None and the empty string |
| Validation.AmountError | marzpay/classes/collections.py:190-198 | each amount message is tied to exactly the amounts that cause it (missing, not an integer, below 500, above 10,000,000); an integer in [500, 10,000,000] gives none |
| Validation.ValidationErrors | marzpay/classes/collections.py:187-208 | the list is empty if and only if the amount is valid and phone and reference are neither None nor empty; the phone and reference messages appear exactly when those fields are falsy; at most three messages |
| Validation.ValidateCollectMoneyParams | marzpay/classes/collections.py:187-213 | it raises if and only if the parameters are invalid, and the error carries "Validation failed" and the complete ordered list |
| Validation.AllFailuresReported | marzpay/classes/collections.py:187-208 | validation does not stop at the first failure: all three messages appear, in order |
| Validation.AtMostOneAmountMessage | marzpay/classes/collections.py:190-198 | an amount message can only stand first in the list, so at most one appears |
| Validation.OutOfRangeAmountReported | marzpay/classes/collections.py:195-198 | an integral amount below 500 or above 10,000,000 always leads the error list with the matching message |
| Query.NatToDecimal | marzpay/classes/collections.py:154 | the text of a page or limit number is a non-empty digit string with no leading zero |
| Query.IntToDecimal | marzpay/classes/collections.py:154 | the text of a page or limit number is non-empty, starts with `-` exactly when the number is negative, and is digits otherwise |
| Query.IntToDecimalReadsBack | marzpay/classes/collections.py:154 | the digits after the sign read back as the magnitude of the number |
| Query.NatToDecimalRoundTrip | marzpay/classes/collections.py:154 | reading the rendered digits back gives the number |
| Query.IntToDecimalInjective | marzpay/classes/collections.py:154 | different page or limit numbers are rendered as different text |
| Query.Field | marzpay/classes/collections.py:154 | one `k=v` field is the key, a single `=` right after it, then the value |
| Query.FieldReadsBack | marzpay/classes/collections.py:154 | a field whose key holds no `=` splits at its first `=` into exactly its key and value |
| Query.Join | marzpay/classes/collections.py:154 | the joined query is empty exactly when there are no pairs, and otherwise starts with the first pair's field |
| Query.JoinRoundTrip | marzpay/classes/collections.py:154 | joining `k=v` pairs with `&` loses nothing when keys and values hold neither `&` nor `=` |
| Query.Candidates | marzpay/classes/collections.py:141-150 | the five recognised filters in the order page, limit, status, from_date, to_date; page and limit are present exactly when given and carry their decimal text; the text filters are passed as given |
| Query.Present | marzpay/classes/collections.py:139-150 | the filter dict never has more entries than there are filters, and a given first filter is its first entry |
| Query.PresentKeepsGiven | marzpay/classes/collections.py:139-150 | the filter list holds exactly the filters that are not None, and is empty exactly when none is given |
| Query.PresentAppend | marzpay/classes/collections.py:139-150 | dropping absent filters can be done one filter at a time, so the fixed order is kept |
| Query.Endpoint | marzpay/classes/collections.py:152-155 | every endpoint starts with /collections |
| Query.CollectionsEndpoint | marzpay/classes/collections.py:139-155 | the step-by-step filter building gives the endpoint of exactly the given filters, in the order page, limit, status, from_date, to_date |
| Query.NoFiltersEndpoint | marzpay/classes/collections.py:152-155 | with every filter None, the endpoint is exactly /collections, with no `?` |
| Query.EndpointRoundTrip | marzpay/classes/collections.py:139-155 | if the text filters hold neither `&` nor `=`, the query of the endpoint decodes to exactly the given filters, in the fixed order |
| Query.PageLimitExample | marzpay/classes/collections.py:139-155 | page=2 and limit=10 give /collections?page=2&limit=10 |
| Query.UnescapedValuesCollide | marzpay/classes/collections.py:154 | values are not escaped: a status holding `&from_date=` plus a date produces the same path as the status and that date given as a separate from_date |
| Collections.Client.Send | marzpay/classes/collections.py:94-98 | one transport call appends exactly that request to the log and returns the service's answer unchanged |
| Collections.CollectionPath | marzpay/classes/collections.py:116 | the path is /collections/ followed by the id, which can be read back from it |
| Collections.CollectionPathInjective | marzpay/classes/collections.py:116 | different ids are requested at different paths |
| Collections.ServicesIdCollides | marzpay/classes/collections.py:116 | the id "services" is requested at the same path as get_services |
| Collections.Payload | marzpay/classes/collections.py:80-92 | the payload carries the normalised phone number, and every other entry is the caller's value |
| Collections.CollectionsApi.constructor | marzpay/classes/collections.py:35-37 | the API keeps the client it is given |
| Collections.CollectionsApi.CollectMoney | marzpay/classes/collections.py:80-98 | invalid parameters give the validation error with the full list and send nothing; valid ones send exactly one POST /collections with the normalised payload and return the answer unchanged |
| Collections.CollectionsApi.GetCollection | marzpay/classes/collections.py:113-116 | a None or empty id gives "Collection ID is required" and sends nothing; otherwise exactly one GET of /collections/{id} is sent |
| Collections.CollectionsApi.GetCollections | marzpay/classes/collections.py:139-157 | exactly one GET of the endpoint built from the given filters |
| Collections.CollectionsApi.GetServices | marzpay/classes/collections.py:166 | exactly one GET of /collections/services |
| Collections.AcceptedCollectionPayload | marzpay/classes/collections.py:80-98 | an integer amount in [500, 10,000,000] with a non-empty phone and reference passes validation; the number sent is all digits and starts with 256; normalising the payload again changes nothing |
| Collections.BlankPhoneSentAsCountryCode | marzpay/classes/collections.py:201-203 | a phone number made of spaces passes validation and is sent as "256" |
| Collections.Sent | marzpay/classes/collections.py:80-98 | one collect_money call sends at most one request, exactly when the parameters pass validation, and that request is a POST to /collections |
| Collections.CollectTwice | marzpay/classes/collections.py:80-98 | two collections through one API add to the log exactly what each sends on its own, whether or not the other passed validation |

## Left out

- `generate_reference` (collections.py:168-175) returns a random UUID v4 from a process-wide random source. Its only promise is uniqueness with high probability, which no contract can state. It is not part of this model.
- The transport's internals are not part of this model: HTTP, authentication, the base URL and serialisation of the payload. Its answers are modelled as a fixed function of the request (`Client.respond`). So the model does not capture answers that depend on server state or time, nor a transport that raises different errors for the same request.
- `MarzPayError.validation_error` is defined in a module that is not part of this model. It is modelled as `ValidationError(message, validationErrors)`. For `collect_money` this is the message "Validation failed" and the list that the source passes as `{"validation_errors": errors}`. For `get_collection` it is "Collection ID is required" with an empty list.
- Validation.AmountError: Python's `isinstance(amount, int)` also accepts `True` and `False`. The model distinguishes only integers (`IntVal`) from other values (`OtherVal`), so a boolean amount is not modelled.
- Arguments of the wrong Python type are not modelled: a non-string phone number makes `re.sub` raise `TypeError`, non-integer `page` or `limit` values are rendered with `str`, and an integer `collection_id` is rejected when it is `0` (falsy) and otherwise rendered into the path by the f-string (collections.py:116). Phone numbers, references, collection ids and text filters are strings, and `page` and `limit` are integers.
- Python keyword-argument calls are modelled as positional parameters with the source's defaults: `description` and `callback_url` default to None, `country` to "UG", and every `get_collections` filter to None.
- The phone number is checked only with `not phone_number`, and the model follows that code: a phone number made only of separators passes `not phone_number` and is sent as `256` (`Collections.BlankPhoneSentAsCountryCode`).
- Query values are not percent-encoded, and the model reproduces this as written (`Query.UnescapedValuesCollide`). The decoding round trip (`Query.EndpointRoundTrip`) is stated only for values without `&` and `=`.
- `run_tests.py` (a subprocess test runner) and `upload_to_pypi.py` (packaging with interactive input) are I/O and packaging scripts with no logic to model.
