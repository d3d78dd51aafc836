# SAP free-of-charge sales orders: payload builder and submission run

This project models the core of a small Streamlit tool. The tool uploads a
spreadsheet of order lines and groups the rows by (SoldToParty, PO_Number).
For each group, it posts one "sales order without charge" request to an SAP
OData service. For every order SAP creates, it loads a header row into a
BigQuery table.

The model has three parts:

- `Payload` (payload.dfy) models `build_group_payload`. A group of rows
  becomes a `SalesOrder` document. Its header comes from the first row plus
  fixed business constants. It has one `Item` per row, in row order (the
  JSON `to_Item.results`). Every cell is a string because the code applies
  `str()` to each one. `BuildGroupPayload` is the loop that builds the item
  list. It is proved equal to the specification function `GroupPayload`.
  Lemmas about `GroupPayload` prove the properties. `RowsOf` is the
  builder's inverse: for a group whose rows share its key, the document
  gives the group's rows back.
- `Projection` (projection.dfy) models the row built in `save_to_bigquery`.
  Twelve keys are copied from the response object `d` under the same names.
  A missing key becomes null, as `d.get` does.
- `Submission` (submission.dfy) models the loop that runs after the user
  confirms. The network and the warehouse become inputs and outputs:
  - The SAP responses come in as a sequence parallel to the groups.
  - The run returns the results table, the header rows it saved, the
    requests it posted, and whether an exception stopped it.
  - `SubmitGroups` is the loop. It is proved equal to the specification
    function `Run`, and lemmas about `Run` prove the properties.

The source applies `str()` to every cell, so cells are modelled as strings.
The grouping key is modelled as the strings in the rows. The date is an
opaque string computed once per run, and the CSRF token is a parameter.

Some behaviour the code has on a 201 response is easy to miss:

- `response.json()["d"]` runs before anything else. If the body has no `d`
  object, the exception ends the run and nothing is saved for that group.
- `save_to_bigquery(d)` runs before `d["SalesOrderWithoutCharge"]` is read.
  If `d` has no order number, a header row with a null order number has
  already been loaded, then the KeyError ends the run without a result
  record. Later groups are not posted.

The model keeps both cases (`Raises`, the `crashed` flag).
`SavesMatchSuccesses` states the one extra saved row that the second case
leaves behind.

The body of `if st.button(...)` (app.py:146) is not indented, so the file as
written does not parse. The model follows the evident intent: the
submission loop runs once, after confirmation.

Facts about the code worth stating:

- The results table holds only SoldToParty, SalesOrderWithoutCharge, Status
  and, on failure, Error (app.py:176-194). It has no PO number and no item
  count.
- Only a header row is saved, to one table (app.py:101-128). No item rows
  are written.
- The date comes from the local clock (`datetime.now()`, app.py:52). Here it
  is an opaque string.
- `OrganizationDivision` is "00" (app.py:83).

## Model

| member | source | states |
|---|---|---|
| Payload.BuildGroupPayload | app.py:56-97 | the loop appends one item per row, in row order, and the result is exactly the document `GroupPayload` describes: header from the first row and constants, items built from rows |
| Payload.ItemsFollowRows | app.py:58-77 | one item per row; item i copies Item, Material, Qty, Plant, StorageLocation and ShippingPoint of row i; header SoldToParty and PO are the first row's, and every item repeats that PO |
| Payload.PayloadCarriesConstants | app.py:67-93 | every item has category "CBXN", unit "EA", currency "INR", NetAmount "0"; the header has "CBFD", "2000", "10", "00", "INR", "001", "CC", "FOB", "KA", "KA"; both dates equal the one date argument |
| Payload.PayloadRoundTrip | app.py:58-77 | for a group whose rows share its key, reading the rows back from the document gives exactly the group, in order |
| Payload.RowsDetermineDocument | app.py:62-97 | two documents that carry the constants, share a date and give back the same non-empty rows are equal, so the round trip and the constants characterise the builder |
| Payload.QuantityEditIsLocal | app.py:64-77 | changing only the quantity of row k changes only RequestedQuantity of item k; the header and all other items are unchanged |
| Projection.HeaderRow | app.py:101-113 | the saved row has exactly the twelve listed columns; a column is non-null iff the response has that key, and then holds the response's value under the same name |
| Projection.HeaderRowIgnoresOtherKeys | app.py:101-113 | the saved row depends only on the listed keys of the response |
| Submission.SubmitGroups | app.py:148-198 | the loop builds, posts, and on 201 saves and records SUCCESS, otherwise records FAILED; its results, saved rows, posted requests and stop flag are exactly those of `Run` |
| Submission.RunStopsAfterRaise | app.py:171-180 | once an exception has stopped the run, later groups add no request, no saved row and no result |
| Submission.CompletedRunLinesUp | app.py:161-194 | if no response raises, every group is posted once in order, and there is exactly one result per group, in group order; a FAILED group does not stop later groups |
| Submission.StatusMapping | app.py:171-194 | for 201: status SUCCESS, order number taken from `d`, no error; for any other status: FAILED, null order number, response text as Error; the customer is always the group key's |
| Submission.CompletedRunSavesEach201 | app.py:171-174 | if no response raises, the warehouse gets one header row per 201 response, in order, projected from that response's `d`, and none for other statuses |
| Submission.SavesMatchSuccesses | app.py:171-180 | in any run, the order-number column of the saved rows equals the order numbers of the SUCCESS records, in order; only a run stopped by a missing order number leaves one extra row with a null order number |
| Submission.PostsShareDateAndToken | app.py:148-169 | every posted request carries the one header set built from the run's single token and the run's single date, and is group j's document; at most one request per group |
| Submission.StopsAtFirstRaise | app.py:171-180 | a 201 whose body lacks `d` or whose `d` lacks the order number stops the run at that group: its request (the group's document under the run's headers) went out, the k earlier groups keep their per-group results, it has no result of its own, no later group is posted, and when `d` was readable the last saved row is its projection |
| Submission.PostedDocumentsCarryGroups | app.py:159-163 | with groups that share their key, each posted document names the group's customer and PO and gives back exactly the group's rows |
| Submission.SavesEqualSuccesses | app.py:171-194 | if no response raises, the number of saved header rows equals the number of SUCCESS results and the number of 201 responses |

## Left out

- Streamlit UI, the Excel upload, the preview and the messages (app.py:133-146, 182-201): user interface and I/O.
- The pandas grouping (app.py:140, 159): groups are an input. `SubmitGroups` requires only that each group is non-empty, which `iloc[0]` needs. Key sorting and NaN-key dropping are not modelled.
- `fetch_csrf_token` and the HTTP session (app.py:39-49, 165-169): network code. The token is a parameter. A failed token fetch, which aborts the run before any group, is not modelled. A POST that raises (a connection error or time-out at app.py:165-169), which also ends the run, is not modelled; every response arrives.
- `sap_today_date` (app.py:51-53): it reads the wall clock and uses float arithmetic. The date is an opaque string argument.
- BigQuery client setup and the load job (app.py:26-34, 118-128): foreign calls. A failed load, which would raise and stop the run, is not modelled; every save succeeds.
- The `raw_response` (`json.dumps(d)`) and `created_at` (`datetime.utcnow()`) columns (app.py:114-115): serialisation and clock. The saved row keeps only the twelve projected keys.
- JSON values inside `d` are modelled as strings. Nested objects and JSON null are not distinguished: a JSON null value is either a missing key or some string. For the order number this differs from the code: if `d["SalesOrderWithoutCharge"]` is JSON null, app.py:178 records SUCCESS with a None order number, while the model records `Some` of a string or, with the key read as missing, stops the run.
- Secrets loading (app.py:16-21): external configuration.
